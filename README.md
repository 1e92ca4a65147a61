# convert-syntax: the grammar-definition compiler

`convertSyntax` takes a grammar written in shorthand and compiles it into a
canonical tree of tagged nodes rooted at the rule `main`. The grammar has a
lexical table (token names with their patterns) and a table of parse rules.
A rule is a reference string (`"type"` or `"type:value"`) or a tagged tuple:
`sequence` or `either` over a list, `many`, `one_plus` or `zero_plus` over a
unit with an optional delimiter, `optional`, or `one`. Every named rule is
converted once and shared by all references to it. This is why recursive
grammars convert to finite cyclic graphs. The literal `VERIFIED` inside a
sequence becomes a verified marker. Three defects in a grammar are reported
with descriptive messages:
- a `type:value` reference to an unknown type;
- a reference to a rule nobody defines;
- an untagged array where a single rule was expected.

The behaviour is pinned by the test file `src/convertSyntax.spec.js`. The
implementation file `src/convertSyntax.js` is not part of this model. The
model is built to those tests.

Layout:
- `shorthand.dfy` (`Shorthand`): the input, i.e. rule definitions, the
  recognised tuple kinds and the first-colon split of references.
  `Classify` reads a definition as written in the tables (strings and nested
  arrays) into that shorthand. An array is a tagged tuple when it has two or
  three elements and starts with a kind name; otherwise it is an untagged
  list.
- `canonical.dfy` (`Canonical`): the output nodes. A shared named rule is a
  `RuleRef(name)` edge into a `Graph`, a map from rule name to its node.
  `Follow` reads a property path such as `.subRule[3].subRule` through those
  edges, as a consumer of the shared objects would.
- `diagnostics.dfy` (`Diagnostics`): the errors and their messages.
- `resolver.dfy` (`Resolver`): one reference string to a lex leaf, a
  verified marker or an edge.
- `components.dfy` (`Components`): one rule definition to its node, as pure
  functions.
- `graph.dfy` (`GraphBuilder`):
  - `ConvertSpec` is what a call must return.
  - `Builder` is the converter itself, a class holding the per-call cache of
    finished rules (`done`) and the rules under way (`inFlight`).
  - `ConvertSyntax` is proved to meet `ConvertSpec` and to terminate on
    recursive grammars. The measure is the set of rules not yet entered.
- `evaluation.dfy` (`Evaluation`): single evaluation steps used to compute
  the examples.
- `conformance.dfy` (`Conformance`): the small grammars of the test file and
  the results any call must give on them.
- `pascal.dfy` (`PascalExample`): the 36-rule pascal grammar of the test
  file.

## Model

| member | source | states |
|---|---|---|
| Shorthand.ParseKind | src/convertSyntax.spec.js:254-359 | a recognised kind string is the spelling of exactly that kind |
| Shorthand.KindNameParses | src/convertSyntax.spec.js:254-359 | every one of the seven kinds is recognised under its own name (spelling and recognising are inverse) |
| Shorthand.Classify | src/convertSyntax.spec.js:222-227 | a string is read as a reference; an array is read as a tagged tuple exactly when it has two or three elements headed by a recognised kind name, and otherwise as an untagged list of the same length |
| Shorthand.ClassifyRoundTrip | src/convertSyntax.spec.js:222-227 | reading loses nothing: writing a read definition back gives the literal it was read from |
| Shorthand.UntaggedArray | src/convertSyntax.spec.js:223-226 | an array not headed by a kind name, such as `['symbol:[', 'symbol:]']`, is read as an untagged list whose elements are each read on their own |
| Shorthand.SplitRef | src/convertSyntax.spec.js:33-73 | the type name has no colon; there is a value exactly when the reference has a colon; type, colon and value rejoin to the reference |
| Shorthand.SplitJoin | src/convertSyntax.spec.js:33-73 | splitting a joined `type:value` gives back the type and the value, even when the value holds colons (as in `symbol::=`) |
| Resolver.Resolve | src/convertSyntax.spec.js:3-73 | a lex leaf names a token of the lexical table and rejoins to the reference; an edge names a defined rule; a verified marker only comes out for a sequence item |
| Resolver.BareTokenRef | src/convertSyntax.spec.js:3-30 | a bare token name becomes a lex leaf of that type with no value |
| Resolver.QualifiedTokenRef | src/convertSyntax.spec.js:33-73 | `T:v` with `T` a token becomes a lex leaf of type `T` with value `v` |
| Resolver.UnknownQualifiedRef | src/convertSyntax.spec.js:493-504 | `T:v` with `T` in neither table fails with a lookup error naming `T` and `T:v` |
| Resolver.UnknownBareRef | src/convertSyntax.spec.js:96-130 | a bare name in neither table fails naming the referring rule and the name |
| Resolver.RuleNameRef | src/convertSyntax.spec.js:254-260 | a bare rule name becomes an edge to that rule |
| Resolver.VerifiedRef | src/convertSyntax.spec.js:171-196 | `VERIFIED` becomes the verified marker as a sequence item and is an error anywhere else |
| Resolver.ResolvedRefs | src/convertSyntax.spec.js:254-260 | the edge a reference contributes does not depend on where it stands |
| Diagnostics.UndeterminedNamesReferrer | src/convertSyntax.spec.js:126-128 | the undefined-rule message matches `<referrer>.+rule type` |
| Diagnostics.ArrayMessageExplains | src/convertSyntax.spec.js:231-235 | the bare-array message matches `array.+should have used a string` |
| Components.Collect | src/convertSyntax.spec.js:20-29 | gathered results keep the length and order of the single results |
| Components.ConvItem | src/convertSyntax.spec.js:171-196 | a converted item holds verified markers only as sequence items, and its edges are the rules the definition refers to |
| Components.ConvTuple | src/convertSyntax.spec.js:17-20 | a converted tuple carries the given name as `type` and the tuple's kind as `ruleType`; its edges are the definition's references, the delimiter's included |
| Components.ConvList | src/convertSyntax.spec.js:20-29 | a converted list has one node per item, in order, each the conversion of its item |
| Components.ConvRule | src/convertSyntax.spec.js:17-30 | a rule's root carries the rule name and its tuple kind |
| Components.ListConverts | src/convertSyntax.spec.js:20-29 | a list converts to `ns` when each item converts to the node at its position |
| Components.FirstErrorWins | src/convertSyntax.spec.js:112-115 | a list fails with the error of its first failing item |
| Components.ListErrorIsItemError | src/convertSyntax.spec.js:112-115 | a failing list's error is that of an item all of whose predecessors convert |
| Components.SequenceKeepsOrder | src/convertSyntax.spec.js:3-30 | a converted sequence has the rule name and one node per listed item, in the listed order |
| Components.RepetitionDelimiter | src/convertSyntax.spec.js:132-169 | a repetition's unit is its converted payload; it has no delimiter without a third element, and otherwise the converted third element, rule references included |
| Components.SequenceTuple | src/convertSyntax.spec.js:3-30 | a sequence over converted items is a sequence node of those items |
| Components.OptionalRejectsArray | src/convertSyntax.spec.js:215-236 | an untagged array as an `optional` payload fails with the bare-array error, whatever it holds |
| GraphBuilder.SucceedsIff | src/convertSyntax.spec.js:238-491 | a call succeeds exactly when `main` exists and every rule reachable from it converts on its own |
| GraphBuilder.ConversionUnique | src/convertSyntax.spec.js:238-491 | a grammar has at most one conversion |
| GraphBuilder.ConversionKeepsReachable | src/convertSyntax.spec.js:238-491 | the result holds exactly the defined rules reachable from `main` |
| GraphBuilder.NoDanglingEdges | src/convertSyntax.spec.js:489-490 | every edge of the result leads to a node of the result, the conversion of the rule it names |
| GraphBuilder.VerifiedOnlyInSequences | src/convertSyntax.spec.js:171-196 | in a result, verified markers stand only as sequence items |
| GraphBuilder.RootTagged | src/convertSyntax.spec.js:17-20 | the result's root carries `type` `main` and the kind of `main`'s tuple |
| GraphBuilder.EveryRuleConverts | src/convertSyntax.spec.js:238-491 | a grammar whose every rule converts converts as a whole |
| GraphBuilder.ResultIs | src/convertSyntax.spec.js:171-196 | a closed graph of reachable, converted rules is the result |
| GraphBuilder.SingleRuleResult | src/convertSyntax.spec.js:3-30 | a root without edges converts to a graph of that root alone |
| GraphBuilder.OnlyFailure | src/convertSyntax.spec.js:96-130 | when one reachable rule fails and all others convert, the call fails with that rule's error |
| GraphBuilder.ReachableStep | src/convertSyntax.spec.js:254-275 | rules referred to by a reachable rule are reachable |
| GraphBuilder.EdgeReachable | src/convertSyntax.spec.js:254-275 | the edges of a reachable rule's node lead to reachable rules |
| GraphBuilder.EnterKeepsInv | src/convertSyntax.spec.js:238-491 | entering a reachable rule keeps the cache invariant |
| GraphBuilder.FinishKeepsInv | src/convertSyntax.spec.js:238-491 | finishing a rule with its conversion keeps the cache invariant and the set of rules started |
| GraphBuilder.Builder.constructor | src/convertSyntax.spec.js:489 | a call starts with an empty cache and nothing under way |
| GraphBuilder.Builder.Visit | src/convertSyntax.spec.js:238-491 | a rule already finished or under way is not entered again: the cache and the rules under way are unchanged and the answer is an edge to it; otherwise a successful visit leaves the rule cached with its conversion, and an error comes from a rule entered |
| GraphBuilder.Builder.ConvertItem | src/convertSyntax.spec.js:215-236 | the result is the item's conversion, its edges lead to rules entered, and an error is the item's own or one of a rule entered |
| GraphBuilder.Builder.ConvertTuple | src/convertSyntax.spec.js:75-169 | the result is the tuple's conversion, with edges to rules entered, and an error is the tuple's own or one of a rule entered |
| GraphBuilder.Builder.ConvertList | src/convertSyntax.spec.js:20-29 | the result is the list's conversion, with edges to rules entered, and an error is the list's own or one of a rule entered |
| GraphBuilder.Builder.ConvertNext | src/convertSyntax.spec.js:20-29 | one more item extends the converted prefix of the list by that item's conversion |
| GraphBuilder.ConvertSyntax | src/convertSyntax.spec.js:238-491 | a call terminates, even on recursive grammars, and returns the unique conversion or an error of a rule reachable from `main`; without `main` it fails |
| Evaluation.ValuedTokenItem | src/convertSyntax.spec.js:33-73 | a `type:value` item with a token type converts to a lex leaf with that value |
| Evaluation.VerifiedItem | src/convertSyntax.spec.js:171-196 | `VERIFIED` as a sequence item converts to the verified marker |
| Evaluation.DelimitedRepeatTuple | src/convertSyntax.spec.js:132-169 | a repetition with a delimiter converts to a repetition node holding both converted parts |
| Evaluation.ListRepeatTuple | src/convertSyntax.spec.js:109-111 | an untagged list as a repetition unit converts as an anonymous sequence |
| Conformance.LexTypesConverted | src/convertSyntax.spec.js:3-30 | the lex-types grammar converts to a `main` sequence of two valueless lex leaves, in order |
| Conformance.KeyValueConverted | src/convertSyntax.spec.js:33-73 | the key:value grammar converts to lex leaves `word`/`hello` and `word`/`world` |
| Conformance.ManyConverted | src/convertSyntax.spec.js:75-94 | `['many', 'word']` converts to a `many` node over the `word` leaf, without a delimiter |
| Conformance.DelimiterConverted | src/convertSyntax.spec.js:132-169 | `['many', 'word', 'symbol:,']` converts with delimiter the lex leaf `symbol`/`,` |
| Conformance.CutConverted | src/convertSyntax.spec.js:171-196 | the grammar converts to its three shared rules, and `.subRule.subRule[0].subRule[1]` is the verified marker |
| Conformance.OptionalConverted | src/convertSyntax.spec.js:198-213 | `['optional', 'symbol:!']` converts |
| Conformance.BareArrayInnerRead | src/convertSyntax.spec.js:223-226 | `['symbol:[', 'symbol:]']` is read as an untagged list of two references |
| Conformance.BareArrayRead | src/convertSyntax.spec.js:222-227 | the `main` of the bare-array test, read from its table, is the definition `Conformance.BareArrayFails` converts |
| Conformance.ErgoMainRead | src/convertSyntax.spec.js:109-111 | the ergolang `main`, `['many', ['statement']]`, is read as a `many` over an untagged list of one reference |
| Conformance.BareArrayFails | src/convertSyntax.spec.js:215-236 | an untagged array under `optional` fails with a message matching `array.+should have used a string` |
| Conformance.ErgoFails | src/convertSyntax.spec.js:96-130 | the ergolang grammar fails naming `statement` and then "rule type" |
| Conformance.UnknownTypeFails | src/convertSyntax.spec.js:493-504 | `NOPE:bar` fails with exactly `Failed to lookup rule NOPE from type:value pair "NOPE:bar"` |
| PascalExample.PascalRulesConvert | src/convertSyntax.spec.js:254-485 | every one of the 36 pascal rules converts on its own |
| PascalExample.PascalReachable | src/convertSyntax.spec.js:254-307 | `block` and `var_decl_part` are reachable from `main` |
| PascalExample.PascalPath | src/convertSyntax.spec.js:490 | in a graph holding the converted `main`, `block` and `var_decl_part`, the path `.subRule[3].subRule[1].subRule.subRule[1]` leads to the verified marker |
| PascalExample.PascalConverted | src/convertSyntax.spec.js:238-491 | the recursive pascal grammar, with rule delimiters, converts; `main`, `block` and `var_decl_part` are as written; the inspected path leads to the verified marker |

## Left out

- Regular expressions and the `ignore`/`capture` modes of the lexical table: only token names matter to conversion, so the lexical table is a list of names.
- What the nodes mean when parsing (the trial order of `either`, the cut of a verified marker, repetition matching): that belongs to the parse engine.
- JavaScript object identity and prototypes: sharing a converted rule is modelled as a `RuleRef` edge into a name-to-node map. A consumer's property path is read through those edges by `Follow`.
- The pascal test driver under `__tests__/pascal` reads a file and runs an external tokenizer. It is I/O and is not part of this model.
- Message wording: the tests pin only the lookup failure exactly, and two others by pattern. The remaining messages are worded by the model.
- Choices the tests leave open, made by the model and each a single branch of `Resolver.Resolve` or `Components.ConvTuple`:
  - token names are looked up before `VERIFIED`, and both before parse-rule names;
  - a reference is split at its first colon;
  - a value on a parse-rule reference is an error (`ValueOnRule`);
  - `VERIFIED` outside a sequence item is an error (`MisplacedVerified`);
  - a `sequence` or `either` whose payload is not a list is an error (`PayloadNotList`);
  - a third element on a tuple that is not a repetition is ignored;
  - a grammar without `main` fails (`MissingRoot`).
- Shorthand.Classify: how the tables' arrays are told apart is the model's reading, not pinned by the tests beyond the examples. An array of two or three elements whose first element is a kind name is a tuple even where an untagged list was meant. An array headed by an unrecognised name is an untagged list, so read tables never give `UnsupportedRuleType`; that error remains for shorthand definitions built directly.
- Canonical.Expand: it looks through one edge per step. A rule defined as a bare reference to another rule (`a: 'b'`) converts to an edge to `b`, and a path through `a` stops at that edge instead of reaching `b`'s node. No test defines a rule that way.
- Evaluation.ListRepeatTuple: an untagged list as a repetition unit (the ergolang grammar's `main`) is treated as an anonymous sequence. The tests only require that the later `statement` error is reported. Conformance.ErgoFails relies on this choice.
- PascalExample.PascalConverted: it is stated for every grammar satisfying `PascalShape`, which fixes the token list, the rule names and every definition, rather than for a single literal table. It does not list the rules left out of the result (the unreferenced `array_type`).
- GraphBuilder.ConvertSyntax: the order in which rules are entered, and which error is reported when several reachable rules fail, are not stated. The contract only says the error belongs to some reachable rule; `Builder` reports the first one met depth first.
