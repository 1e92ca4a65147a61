/** The grammars of the converter's documented examples, each with what any
    result satisfying the converter's contract must be. Each rule is
    computed from the single steps of `Evaluation` in a lemma of its own,
    and the whole result from the lemmas of `GraphBuilder` about
    conversions. */
module Conformance {
  import opened Shorthand
  import opened Canonical
  import opened Diagnostics
  import opened Resolver
  import opened Components
  import opened GraphBuilder
  import opened Evaluation

  // ---- literal facts: string equalities the proofs below use as hints; they
  // state nothing about the converter ---------------------------------------

  /** The words of `type:value` references used below, split at the colon. */
  lemma ValuedRefs()
    ensures "word:hello" == "word" + ":" + "hello" && "word:world" == "word" + ":" + "world"
    ensures "symbol:," == "symbol" + ":" + "," && "symbol:!" == "symbol" + ":" + "!"
    ensures "NOPE:bar" == "NOPE" + ":" + "bar" && "word:fn" == "word" + ":" + "fn"
    ensures "symbol:{" == "symbol" + ":" + "{" && "symbol:}" == "symbol" + ":" + "}"
    ensures "symbol:[" == "symbol" + ":" + "[" && "symbol:]" == "symbol" + ":" + "]"
  {
  }

  /** The lookup message of the non-existent type test, spelled out. */
  lemma LookupText()
    ensures "Failed to lookup rule " + "NOPE" + " from type:value pair \"" + "NOPE:bar" + "\""
            == "Failed to lookup rule NOPE from type:value pair \"NOPE:bar\""
  {
  }

  // ---- converts lex types -------------------------------------------------

  const LexTypes: Grammar :=
    Grammar(["word", "whitespace"],
            map["main" := Tuple("sequence", List([Ref("word"), Ref("whitespace")]), None)])

  const LexTypesMain: Node := Sequence(Some(Root), [Lex("word", None), Lex("whitespace", None)])

  lemma LexTypesRoot()
    ensures ConvRule(LexTypes, Root) == Ok(LexTypesMain)
  {
    var g := LexTypes;
    TokenItem(g, Root, "word", true);
    TokenItem(g, Root, "whitespace", true);
    ListOf2(g, Root, true, Ref("word"), Ref("whitespace"), Lex("word", None), Lex("whitespace", None));
    SequenceTuple(g, Root, Some(Root), [Ref("word"), Ref("whitespace")], LexTypesMain.items);
  }

  /** Bare token names become lex leaves without values, in the listed
      order, under a root tagged with its name and kind. */
  lemma LexTypesConverted(res: Result<Graph>)
    requires ConvertSpec(LexTypes, res)
    ensures res == Ok(map[Root := LexTypesMain])
  {
    LexTypesRoot();
    SingleRuleResult(LexTypes, res, LexTypesMain);
  }

  // ---- converts key:value types -------------------------------------------

  const KeyValue: Grammar :=
    Grammar(["word", "whitespace"],
            map["main" := Tuple("sequence", List([Ref("word:hello"), Ref("word:world")]), None)])

  const KeyValueMain: Node := Sequence(Some(Root), [Lex("word", Some("hello")), Lex("word", Some("world"))])

  lemma KeyValueRoot()
    ensures ConvRule(KeyValue, Root) == Ok(KeyValueMain)
  {
    var g := KeyValue;
    ValuedRefs();
    ValuedTokenItem(g, Root, "word:hello", "word", "hello", true);
    ValuedTokenItem(g, Root, "word:world", "word", "world", true);
    ListOf2(g, Root, true, Ref("word:hello"), Ref("word:world"), Lex("word", Some("hello")), Lex("word", Some("world")));
    SequenceTuple(g, Root, Some(Root), [Ref("word:hello"), Ref("word:world")], KeyValueMain.items);
  }

  /** `type:value` references become lex leaves of that type carrying that
      value. */
  lemma KeyValueConverted(res: Result<Graph>)
    requires ConvertSpec(KeyValue, res)
    ensures res == Ok(map[Root := KeyValueMain])
    ensures KeyValueMain.items[0] == Lex("word", Some("hello")) && KeyValueMain.items[1] == Lex("word", Some("world"))
  {
    KeyValueRoot();
    SingleRuleResult(KeyValue, res, KeyValueMain);
  }

  // ---- converts the many type ---------------------------------------------

  const ManyWords: Grammar :=
    Grammar(["word", "whitespace"], map["main" := Tuple("many", Ref("word"), None)])

  const ManyWordsMain: Node := Repeat(Some(Root), Many, Lex("word", None), None)

  lemma ManyWordsRoot()
    ensures ConvRule(ManyWords, Root) == Ok(ManyWordsMain)
  {
    var g := ManyWords;
    TokenItem(g, Root, "word", false);
    RepeatTuple(g, Root, Some(Root), Many, Ref("word"), Lex("word", None));
  }

  /** A `many` tuple becomes a repetition node whose unit is the converted
      payload and which has no delimiter. */
  lemma ManyConverted(res: Result<Graph>)
    requires ConvertSpec(ManyWords, res)
    ensures res == Ok(map[Root := ManyWordsMain])
  {
    ManyWordsRoot();
    SingleRuleResult(ManyWords, res, ManyWordsMain);
  }

  // ---- can have delimiters for the many type ------------------------------

  const DelimitedWords: Grammar :=
    Grammar(["word", "whitespace", "symbol"],
            map["main" := Tuple("many", Ref("word"), Some(Ref("symbol:,")))])

  const DelimitedWordsMain: Node := Repeat(Some(Root), Many, Lex("word", None), Some(Lex("symbol", Some(","))))

  lemma DelimitedWordsRoot()
    ensures ConvRule(DelimitedWords, Root) == Ok(DelimitedWordsMain)
  {
    var g := DelimitedWords;
    ValuedRefs();
    TokenItem(g, Root, "word", false);
    ValuedTokenItem(g, Root, "symbol:,", "symbol", ",", false);
    DelimitedRepeatTuple(g, Root, Some(Root), Many, Ref("word"), Ref("symbol:,"),
                         Lex("word", None), Lex("symbol", Some(",")));
  }

  /** The third element of a repetition becomes its delimiter, converted
      like any reference. */
  lemma DelimiterConverted(res: Result<Graph>)
    requires ConvertSpec(DelimitedWords, res)
    ensures res == Ok(map[Root := DelimitedWordsMain])
  {
    DelimitedWordsRoot();
    SingleRuleResult(DelimitedWords, res, DelimitedWordsMain);
  }

  // ---- optional -----------------------------------------------------------

  const OptionalBang: Grammar :=
    Grammar(["symbol"], map["main" := Tuple("optional", Ref("symbol:!"), None)])

  const OptionalBangMain: Node := Optional(Some(Root), Lex("symbol", Some("!")))

  lemma OptionalBangRoot()
    ensures ConvRule(OptionalBang, Root) == Ok(OptionalBangMain)
  {
    var g := OptionalBang;
    ValuedRefs();
    ValuedTokenItem(g, Root, "symbol:!", "symbol", "!", false);
    OptionalTuple(g, Root, Some(Root), Ref("symbol:!"), Lex("symbol", Some("!")));
  }

  /** An optional tuple over a token reference converts. */
  lemma OptionalConverted(res: Result<Graph>)
    requires ConvertSpec(OptionalBang, res)
    ensures res == Ok(map[Root := OptionalBangMain])
  {
    OptionalBangRoot();
    SingleRuleResult(OptionalBang, res, OptionalBangMain);
  }

  // ---- catches non-existent types -----------------------------------------

  const UnknownType: Grammar :=
    Grammar([], map["main" := Tuple("one", Ref("NOPE:bar"), None)])

  lemma UnknownTypeRoot()
    ensures ConvRule(UnknownType, Root) == Err(LookupFailed("NOPE", "NOPE:bar"))
  {
    var g := UnknownType;
    ValuedRefs();
    UnknownValuedItem(g, Root, "NOPE:bar", "NOPE", "bar", false);
    OneFails(g, Root, Some(Root), Ref("NOPE:bar"), LookupFailed("NOPE", "NOPE:bar"));
  }

  lemma LookupMessage()
    ensures Message(LookupFailed("NOPE", "NOPE:bar"))
            == "Failed to lookup rule NOPE from type:value pair \"NOPE:bar\""
  {
    LookupText();
  }

  /** The lookup failure names the unknown type and the whole reference. */
  lemma UnknownTypeFails(res: Result<Graph>)
    requires ConvertSpec(UnknownType, res)
    ensures res == Err(LookupFailed("NOPE", "NOPE:bar"))
    ensures Message(res.error) == "Failed to lookup rule NOPE from type:value pair \"NOPE:bar\""
  {
    UnknownTypeRoot();
    RootReachable(UnknownType);
    OnlyFailure(UnknownType, res, Root, LookupFailed("NOPE", "NOPE:bar"));
    LookupMessage();
  }

  // ---- from ergolang: should catch this wrong usage -----------------------

  const Ergo: Grammar :=
    Grammar(["string", "whitespace", "keyword", "ident", "double", "integer", "symbol"],
            map["main" := Tuple("many", List([Ref("statement")]), None),
                "statement" := Tuple("either", List([Ref("funcCall"), Ref("varDecl")]), None),
                "funcCall" := Tuple("sequence", List([Ref("ident"), Ref("expression")]), None),
                "expression" := Tuple("either", List([Ref("ident")]), None)])

  const ErgoMain: Node := Repeat(Some(Root), Many, Sequence(None, [RuleRef("statement")]), None)

  const ErgoStatementDef: RawDef := Tuple("either", List([Ref("funcCall"), Ref("varDecl")]), None)
  const ErgoFuncCallDef: RawDef := Tuple("sequence", List([Ref("ident"), Ref("expression")]), None)
  const ErgoExpressionDef: RawDef := Tuple("either", List([Ref("ident")]), None)

  /** What the rules below need to know of the ergolang tables. */
  predicate ErgoShape(g: Grammar) {
    g.rules.Keys == {Root, "statement", "funcCall", "expression"}
    && g.rules[Root] == Tuple("many", List([Ref("statement")]), None)
    && g.rules["statement"] == ErgoStatementDef && g.rules["funcCall"] == ErgoFuncCallDef
    && g.rules["expression"] == ErgoExpressionDef
    && "ident" in g.lex && "varDecl" !in g.lex
    && "statement" !in g.lex && "funcCall" !in g.lex && "expression" !in g.lex
  }

  /** `main` as written, `['many', ['statement']]`: the repeated unit is an
      array of one reference, read as an untagged list. */
  lemma ErgoMainRead()
    ensures Classify(Arr([Str("many"), Arr([Str("statement")])])) == Ergo.rules[Root]
  {
    assert ParseKind("statement") == None;
  }

  lemma ErgoTables()
    ensures ErgoShape(Ergo)
  {
  }

  /** A repetition of a bare array repeats the sequence of its items. */
  lemma ErgoRoot(g: Grammar)
    requires ErgoShape(g)
    ensures ConvRule(g, Root) == Ok(ErgoMain)
  {
    RuleItem(g, Root, "statement", true);
    ListOf1(g, Root, true, Ref("statement"), RuleRef("statement"));
    ListRepeatTuple(g, Root, Some(Root), Many, [Ref("statement")], [RuleRef("statement")]);
    TupleRule(g, Root);
  }

  /** `varDecl` names neither a token nor a rule. */
  lemma ErgoStatement(g: Grammar)
    requires ErgoShape(g)
    ensures ConvRule(g, "statement") == Err(UndeterminedRuleType("statement", "varDecl"))
  {
    var r, e := "statement", UndeterminedRuleType("statement", "varDecl");
    RuleItem(g, r, "funcCall", false);
    ListOf1(g, r, false, Ref("funcCall"), RuleRef("funcCall"));
    UnknownItem(g, r, "varDecl", false);
    ListFailsLast(g, r, [Ref("funcCall")], Ref("varDecl"), false, [RuleRef("funcCall")], e);
    SnocOf2(Ref("funcCall"), Ref("varDecl"));
    EitherFails(g, r, Some(r), [Ref("funcCall"), Ref("varDecl")], e);
    TupleRule(g, r);
  }

  lemma ErgoFuncCall(g: Grammar)
    requires ErgoShape(g)
    ensures ConvRule(g, "funcCall") == Ok(Sequence(Some("funcCall"), [Lex("ident", None), RuleRef("expression")]))
  {
    var r := "funcCall";
    TokenItem(g, r, "ident", true);
    RuleItem(g, r, "expression", true);
    ListOf2(g, r, true, Ref("ident"), Ref("expression"), Lex("ident", None), RuleRef("expression"));
    SequenceTuple(g, r, Some(r), [Ref("ident"), Ref("expression")], [Lex("ident", None), RuleRef("expression")]);
    TupleRule(g, r);
  }

  lemma ErgoExpression(g: Grammar)
    requires ErgoShape(g)
    ensures ConvRule(g, "expression") == Ok(Either(Some("expression"), [Lex("ident", None)]))
  {
    var r := "expression";
    TokenItem(g, r, "ident", false);
    ListOf1(g, r, false, Ref("ident"), Lex("ident", None));
    EitherTuple(g, r, Some(r), [Ref("ident")], [Lex("ident", None)]);
    TupleRule(g, r);
  }

  lemma ErgoOthersConvert(g: Grammar)
    requires ErgoShape(g)
    ensures forall q | q in g.rules && q != "statement" :: ConvRule(g, q).Ok?
  {
    forall q | q in g.rules && q != "statement"
      ensures ConvRule(g, q).Ok?
    {
      if q == Root {
        ErgoRoot(g);
      } else if q == "funcCall" {
        ErgoFuncCall(g);
      } else {
        assert q == "expression";
        ErgoExpression(g);
      }
    }
  }

  /** The converted root has an edge to `statement`. */
  lemma ErgoMainEdge()
    ensures "statement" in NodeRefs(ErgoMain)
  {
    RefsOf1(RuleRef("statement"));
  }

  lemma ErgoStatementReachable(g: Grammar)
    requires ErgoShape(g)
    ensures Reachable(g, "statement")
  {
    ErgoRoot(g);
    ErgoMainEdge();
    RootReachable(g);
    EdgeReachable(g, Root, ErgoMain, "statement");
  }

  lemma ErgoFailsIn(g: Grammar, res: Result<Graph>)
    requires ErgoShape(g) && ConvertSpec(g, res)
    ensures res == Err(UndeterminedRuleType("statement", "varDecl"))
  {
    ErgoStatement(g);
    ErgoOthersConvert(g);
    ErgoStatementReachable(g);
    OnlyFailure(g, res, "statement", UndeterminedRuleType("statement", "varDecl"));
  }

  /** The error names the rule holding the unresolvable reference, then the
      words "rule type". */
  lemma ErgoFails(res: Result<Graph>)
    requires ConvertSpec(Ergo, res)
    ensures res == Err(UndeterminedRuleType("statement", "varDecl"))
    ensures MatchesInOrder(Message(res.error), "statement", "rule type")
  {
    ErgoTables();
    ErgoFailsIn(Ergo, res);
    UndeterminedNamesReferrer("statement", "varDecl");
  }

  // ---- can convert VERIFIED sequence sub rules ----------------------------

  const Cut: Grammar :=
    Grammar(["word", "whitespace", "symbol"],
            map["main" := Tuple("many", Ref("statement"), None),
                "statement" := Tuple("either", List([Ref("function"), Ref("word")]), None),
                "function" := Tuple("sequence", List([Ref("word:fn"), Ref("VERIFIED"), Ref("symbol:{"), Ref("symbol:}")]), None)])

  const CutMain: Node := Repeat(Some(Root), Many, RuleRef("statement"), None)
  const CutStatement: Node := Either(Some("statement"), [RuleRef("function"), Lex("word", None)])
  const CutFunction: Node :=
    Sequence(Some("function"), [Lex("word", Some("fn")), Verified, Lex("symbol", Some("{")), Lex("symbol", Some("}"))])
  const CutGraph: Graph := map[Root := CutMain, "statement" := CutStatement, "function" := CutFunction]

  lemma CutRoot()
    ensures ConvRule(Cut, Root) == Ok(CutMain)
  {
    var g := Cut;
    RuleItem(g, Root, "statement", false);
    RepeatTuple(g, Root, Some(Root), Many, Ref("statement"), RuleRef("statement"));
  }

  lemma CutStatementRule()
    ensures ConvRule(Cut, "statement") == Ok(CutStatement)
  {
    var g, r := Cut, "statement";
    RuleItem(g, r, "function", false);
    TokenItem(g, r, "word", false);
    ListOf2(g, r, false, Ref("function"), Ref("word"), RuleRef("function"), Lex("word", None));
    EitherTuple(g, r, Some(r), [Ref("function"), Ref("word")], CutStatement.alts);
  }

  /** The verified marker, an item of a sequence, becomes a verified node. */
  lemma CutFunctionRule()
    ensures ConvRule(Cut, "function") == Ok(CutFunction)
  {
    var g, r := Cut, "function";
    ValuedRefs();
    ValuedTokenItem(g, r, "word:fn", "word", "fn", true);
    VerifiedItem(g, r);
    ValuedTokenItem(g, r, "symbol:{", "symbol", "{", true);
    ValuedTokenItem(g, r, "symbol:}", "symbol", "}", true);
    ListOf4(g, r, true, Ref("word:fn"), Ref(VerifiedMarker), Ref("symbol:{"), Ref("symbol:}"),
            Lex("word", Some("fn")), Verified, Lex("symbol", Some("{")), Lex("symbol", Some("}")));
    SequenceTuple(g, r, Some(r), [Ref("word:fn"), Ref(VerifiedMarker), Ref("symbol:{"), Ref("symbol:}")], CutFunction.items);
  }

  lemma CutRules()
    ensures forall r | r in CutGraph :: r in Cut.rules && ConvRule(Cut, r) == Ok(CutGraph[r])
  {
    forall r | r in CutGraph
      ensures r in Cut.rules && ConvRule(Cut, r) == Ok(CutGraph[r])
    {
      if r == Root {
        CutRoot();
      } else if r == "statement" {
        CutStatementRule();
      } else {
        assert r == "function";
        CutFunctionRule();
      }
    }
  }

  lemma CutEdges()
    ensures NodeRefs(CutMain) == {"statement"} && NodeRefs(CutStatement) == {"function"}
    ensures NodeRefs(CutFunction) == {}
  {
    RefsOf2(RuleRef("function"), Lex("word", None));
    RefsOf4(Lex("word", Some("fn")), Verified, Lex("symbol", Some("{")), Lex("symbol", Some("}")));
  }

  lemma CutClosed()
    ensures Closed(Cut, CutGraph.Keys)
  {
    forall r | r in CutGraph.Keys
      ensures r in Cut.rules && RawRefs(Cut, Cut.rules[r]) <= CutGraph.Keys
    {
      CutEdges();
      if r == Root {
        CutRoot();
      } else if r == "statement" {
        CutStatementRule();
      } else {
        assert r == "function";
        CutFunctionRule();
      }
    }
  }

  lemma CutReachable()
    ensures forall r | r in CutGraph :: Reachable(Cut, r)
  {
    var g := Cut;
    CutRoot();
    CutStatementRule();
    CutEdges();
    RootReachable(g);
    EdgeReachable(g, Root, CutMain, "statement");
    EdgeReachable(g, "statement", CutStatement, "function");
  }

  /** The path `.subRule.subRule[0].subRule[1]` from the root leads through
      the shared `statement` and `function` nodes to a verified node. */
  lemma CutPath()
    ensures Follow(CutGraph, CutGraph[Root], [Sub, At(0), At(1)]) == Some(Verified)
  {
  }

  lemma CutConverted(res: Result<Graph>)
    requires ConvertSpec(Cut, res)
    ensures res == Ok(CutGraph)
    ensures Follow(res.value, res.value[Root], [Sub, At(0), At(1)]) == Some(Verified)
  {
    CutRules();
    CutClosed();
    CutReachable();
    ResultIs(Cut, res, CutGraph);
    CutPath();
  }

  // ---- error from pascal: a bare array where a rule was expected ----------

  const BareArray: Grammar :=
    Grammar(["symbol", "name"],
            map["main" := Tuple("sequence", List([Tuple("optional", List([Ref("symbol:["), Ref("symbol:]")]), None)]), None)])

  /** The table as written: `main` is a sequence whose one item is an
      `optional` over the two-element array `['symbol:[', 'symbol:]']`. */
  const BareArrayMainLiteral: Literal :=
    Arr([Str("sequence"), Arr([Arr([Str("optional"), Arr([Str("symbol:["), Str("symbol:]")])])])])

  /** The array under `optional` is headed by a reference, not a kind name,
      so it is read as an untagged list of two references. */
  lemma BareArrayInnerRead()
    ensures Classify(Arr([Str("symbol:["), Str("symbol:]")])) == List([Ref("symbol:["), Ref("symbol:]")])
  {
    var inner := [Str("symbol:["), Str("symbol:]")];
    assert ParseKind("symbol:[") == None;
    assert inner[..1] == [Str("symbol:[")];
  }

  /** Read as a whole, the table gives the definition of `main` above. */
  lemma BareArrayRead()
    ensures Classify(BareArrayMainLiteral) == BareArray.rules[Root]
  {
    BareArrayInnerRead();
    var opt := Arr([Str("optional"), Arr([Str("symbol:["), Str("symbol:]")])]);
    assert [opt][..0] == [];
  }

  lemma BareArrayRoot()
    ensures ConvRule(BareArray, Root) == Err(AmbiguousArray(Root))
  {
    var g := BareArray;
    var opt := Tuple("optional", List([Ref("symbol:["), Ref("symbol:]")]), None);
    OptionalRejectsArray(g, Root, None, [Ref("symbol:["), Ref("symbol:]")], None);
    TupleItem(g, Root, opt, true);
    assert ConvList(g, Root, [], true) == Ok([]);
    ListFailsLast(g, Root, [], opt, true, [], AmbiguousArray(Root));
    SnocOf1(opt);
    SequenceFails(g, Root, Some(Root), [opt], AmbiguousArray(Root));
  }

  /** The error says an array was found where a string should have been
      used. */
  lemma BareArrayFails(res: Result<Graph>)
    requires ConvertSpec(BareArray, res)
    ensures res == Err(AmbiguousArray(Root))
    ensures MatchesInOrder(Message(res.error), "array", "should have used a string")
  {
    BareArrayRoot();
    RootReachable(BareArray);
    OnlyFailure(BareArray, res, Root, AmbiguousArray(Root));
    ArrayMessageExplains(Root);
  }
}
