/** Resolution of a single reference string, `"type"` or `"type:value"`,
    to a lex leaf, a verified marker, or an edge to a named parse rule. */
module Resolver {
  import opened Shorthand
  import opened Canonical
  import opened Diagnostics

  /** The literal that marks a cut point inside a sequence. */
  const VerifiedMarker: string := "VERIFIED"

  /** Resolves reference `s` met while converting rule `owner`. Token names
      are looked up first, then the verified marker, then parse rules; a
      literal value is only meaningful on a token. `inSequence` says whether
      `s` is an item of a sequence, the one place a verified marker may
      stand. */
  function Resolve(g: Grammar, owner: string, s: string, inSequence: bool): (r: Result<Node>)
    ensures r.Ok? && r.value.Lex? ==>
              r.value.tokenType in g.lex && JoinRef(RefParts(r.value.tokenType, r.value.value)) == s
    ensures r.Ok? && r.value.RuleRef? ==> r.value.target == s && s in g.rules
    ensures r.Ok? ==> r.value.Lex? || r.value.RuleRef? || (r.value.Verified? && inSequence)
  {
    var p := SplitRef(s);
    if p.typeName in g.lex then Ok(Lex(p.typeName, p.value))
    else if p.typeName == VerifiedMarker then
      if inSequence then Ok(Verified) else Err(MisplacedVerified(owner))
    else if p.value.Some? then
      if p.typeName in g.rules then Err(ValueOnRule(owner, s)) else Err(LookupFailed(p.typeName, s))
    else if p.typeName in g.rules then Ok(RuleRef(p.typeName))
    else Err(UndeterminedRuleType(owner, p.typeName))
  }

  /** The parse rule a reference string expands to, if it expands to one. */
  function RefTargets(g: Grammar, s: string): set<string> {
    match Resolve(g, "", s, false)
    case Ok(RuleRef(t)) => {t}
    case _ => {}
  }

  /** The edges a resolved reference contributes do not depend on where it
      stands or which rule it is met in. */
  lemma ResolvedRefs(g: Grammar, owner: string, s: string, inSequence: bool)
    requires Resolve(g, owner, s, inSequence).Ok?
    ensures NodeRefs(Resolve(g, owner, s, inSequence).value) == RefTargets(g, s)
  {
  }

  /** A bare token name becomes a lex leaf of that type with no value. */
  lemma BareTokenRef(g: Grammar, owner: string, t: string, inSequence: bool)
    requires ':' !in t && t in g.lex
    ensures Resolve(g, owner, t, inSequence) == Ok(Lex(t, None))
  {
    SplitJoin(RefParts(t, None));
  }

  /** `"T:v"` with `T` a token name becomes a lex leaf of type `T` whose
      value is `v`, the text after the first colon. */
  lemma QualifiedTokenRef(g: Grammar, owner: string, t: string, v: string, inSequence: bool)
    requires ':' !in t && t in g.lex
    ensures Resolve(g, owner, t + ":" + v, inSequence) == Ok(Lex(t, Some(v)))
  {
    SplitJoin(RefParts(t, Some(v)));
  }

  /** `"T:v"` with `T` in neither table fails with a lookup error naming
      both `T` and the full reference. */
  lemma UnknownQualifiedRef(g: Grammar, owner: string, t: string, v: string, inSequence: bool)
    requires ':' !in t && t !in g.lex && t != VerifiedMarker && t !in g.rules
    ensures Resolve(g, owner, t + ":" + v, inSequence) == Err(LookupFailed(t, t + ":" + v))
  {
    SplitJoin(RefParts(t, Some(v)));
  }

  /** A bare name in neither table fails naming the referencing rule. */
  lemma UnknownBareRef(g: Grammar, owner: string, t: string, inSequence: bool)
    requires ':' !in t && t !in g.lex && t != VerifiedMarker && t !in g.rules
    ensures Resolve(g, owner, t, inSequence) == Err(UndeterminedRuleType(owner, t))
  {
    SplitJoin(RefParts(t, None));
  }

  /** A bare parse-rule name becomes an edge to that rule. */
  lemma RuleNameRef(g: Grammar, owner: string, t: string, inSequence: bool)
    requires ':' !in t && t !in g.lex && t != VerifiedMarker && t in g.rules
    ensures Resolve(g, owner, t, inSequence) == Ok(RuleRef(t))
  {
    SplitJoin(RefParts(t, None));
  }

  /** The verified marker is accepted exactly as a sequence item. */
  lemma VerifiedRef(g: Grammar, owner: string, inSequence: bool)
    requires VerifiedMarker !in g.lex
    ensures Resolve(g, owner, VerifiedMarker, inSequence)
            == if inSequence then Ok(Verified) else Err(MisplacedVerified(owner))
  {
    SplitJoin(RefParts(VerifiedMarker, None));
  }
}
