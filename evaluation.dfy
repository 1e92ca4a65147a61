/** Single conversion steps stated for any grammar. A concrete grammar is
    converted by chaining these, so that each of its rules is computed from
    the steps rather than by unfolding the whole conversion at once. */
module Evaluation {
  import opened Shorthand
  import opened Canonical
  import opened Diagnostics
  import opened Resolver
  import opened Components

  /** A bare token name converts to a lex leaf without a value. */
  lemma TokenItem(g: Grammar, owner: string, t: string, inSequence: bool)
    requires ':' !in t && t in g.lex
    ensures ConvItem(g, owner, Ref(t), inSequence) == Ok(Lex(t, None))
  {
    BareTokenRef(g, owner, t, inSequence);
  }

  /** `s`, a token name, a colon and a value, converts to a lex leaf with
      that value. */
  lemma ValuedTokenItem(g: Grammar, owner: string, s: string, t: string, v: string, inSequence: bool)
    requires s == t + ":" + v && ':' !in t && t in g.lex
    ensures ConvItem(g, owner, Ref(s), inSequence) == Ok(Lex(t, Some(v)))
  {
    QualifiedTokenRef(g, owner, t, v, inSequence);
  }

  /** `s`, a name in neither table, a colon and a value, fails to look up
      that name. */
  lemma UnknownValuedItem(g: Grammar, owner: string, s: string, t: string, v: string, inSequence: bool)
    requires s == t + ":" + v && ':' !in t && t !in g.lex && t != VerifiedMarker && t !in g.rules
    ensures ConvItem(g, owner, Ref(s), inSequence) == Err(LookupFailed(t, s))
  {
    UnknownQualifiedRef(g, owner, t, v, inSequence);
  }

  /** A bare name in neither table cannot be given a rule type. */
  lemma UnknownItem(g: Grammar, owner: string, t: string, inSequence: bool)
    requires ':' !in t && t !in g.lex && t != VerifiedMarker && t !in g.rules
    ensures ConvItem(g, owner, Ref(t), inSequence) == Err(UndeterminedRuleType(owner, t))
  {
    UnknownBareRef(g, owner, t, inSequence);
  }

  /** A bare parse-rule name converts to an edge to that rule. */
  lemma RuleItem(g: Grammar, owner: string, t: string, inSequence: bool)
    requires ':' !in t && t !in g.lex && t != VerifiedMarker && t in g.rules
    ensures ConvItem(g, owner, Ref(t), inSequence) == Ok(RuleRef(t))
  {
    RuleNameRef(g, owner, t, inSequence);
  }

  /** The verified marker as a sequence item converts to a verified node. */
  lemma VerifiedItem(g: Grammar, owner: string)
    requires VerifiedMarker !in g.lex
    ensures ConvItem(g, owner, Ref(VerifiedMarker), true) == Ok(Verified)
  {
    VerifiedRef(g, owner, true);
  }

  /** A tagged tuple met as an item converts as an anonymous tuple. */
  lemma TupleItem(g: Grammar, owner: string, d: RawDef, inSequence: bool)
    requires d.Tuple?
    ensures ConvItem(g, owner, d, inSequence) == ConvTuple(g, owner, None, d)
  {
  }

  /** A rule defined by a tagged tuple converts as that tuple, named after
      the rule. */
  lemma TupleRule(g: Grammar, r: string)
    requires r in g.rules && g.rules[r].Tuple?
    ensures ConvRule(g, r) == ConvTuple(g, r, Some(r), g.rules[r])
  {
  }

  lemma EitherTuple(g: Grammar, owner: string, name: Option<string>, items: seq<RawDef>, ns: seq<Node>)
    requires ConvList(g, owner, items, false) == Ok(ns)
    ensures ConvTuple(g, owner, name, Tuple("either", List(items), None)) == Ok(Either(name, ns))
  {
    assert ParseKind("either") == Some(EitherKind);
  }

  lemma RepeatTuple(g: Grammar, owner: string, name: Option<string>, rep: Repetition, p: RawDef, sub: Node)
    requires !p.List? && ConvItem(g, owner, p, false) == Ok(sub)
    ensures ConvTuple(g, owner, name, Tuple(KindName(RepeatKind(rep)), p, None)) == Ok(Repeat(name, rep, sub, None))
  {
    KindNameParses(RepeatKind(rep));
  }

  lemma DelimitedRepeatTuple(g: Grammar, owner: string, name: Option<string>, rep: Repetition,
                             p: RawDef, dl: RawDef, sub: Node, delimiter: Node)
    requires !p.List? && ConvItem(g, owner, p, false) == Ok(sub)
    requires ConvItem(g, owner, dl, false) == Ok(delimiter)
    ensures ConvTuple(g, owner, name, Tuple(KindName(RepeatKind(rep)), p, Some(dl)))
            == Ok(Repeat(name, rep, sub, Some(delimiter)))
  {
    KindNameParses(RepeatKind(rep));
  }

  lemma OptionalTuple(g: Grammar, owner: string, name: Option<string>, p: RawDef, sub: Node)
    requires ConvItem(g, owner, p, false) == Ok(sub)
    ensures ConvTuple(g, owner, name, Tuple("optional", p, None)) == Ok(Optional(name, sub))
  {
    assert ParseKind("optional") == Some(OptionalKind);
  }

  lemma OneTuple(g: Grammar, owner: string, name: Option<string>, p: RawDef, sub: Node)
    requires ConvItem(g, owner, p, false) == Ok(sub)
    ensures ConvTuple(g, owner, name, Tuple("one", p, None)) == Ok(One(name, sub))
  {
    assert ParseKind("one") == Some(OneKind);
  }

  /** A repetition whose unit is an untagged list repeats the implicit
      sequence of the list's items. */
  lemma ListRepeatTuple(g: Grammar, owner: string, name: Option<string>, rep: Repetition,
                        items: seq<RawDef>, ns: seq<Node>)
    requires ConvList(g, owner, items, true) == Ok(ns)
    ensures ConvTuple(g, owner, name, Tuple(KindName(RepeatKind(rep)), List(items), None))
            == Ok(Repeat(name, rep, Sequence(None, ns), None))
  {
    KindNameParses(RepeatKind(rep));
  }

  /** A single-payload tuple fails with the error of its payload. */
  lemma OneFails(g: Grammar, owner: string, name: Option<string>, p: RawDef, e: Error)
    requires ConvItem(g, owner, p, false) == Err(e)
    ensures ConvTuple(g, owner, name, Tuple("one", p, None)) == Err(e)
  {
    assert ParseKind("one") == Some(OneKind);
  }

  /** A sequence or either tuple fails with the error of its list. */
  lemma SequenceFails(g: Grammar, owner: string, name: Option<string>, items: seq<RawDef>, e: Error)
    requires ConvList(g, owner, items, true) == Err(e)
    ensures ConvTuple(g, owner, name, Tuple("sequence", List(items), None)) == Err(e)
  {
    assert ParseKind("sequence") == Some(SequenceKind);
  }

  lemma EitherFails(g: Grammar, owner: string, name: Option<string>, items: seq<RawDef>, e: Error)
    requires ConvList(g, owner, items, false) == Err(e)
    ensures ConvTuple(g, owner, name, Tuple("either", List(items), None)) == Err(e)
  {
    assert ParseKind("either") == Some(EitherKind);
  }

  /** A list whose last item fails after the others converted fails with
      that item's error. */
  lemma ListFailsLast(g: Grammar, owner: string, front: seq<RawDef>, x: RawDef, inSequence: bool,
                      ns: seq<Node>, e: Error)
    requires ConvList(g, owner, front, inSequence) == Ok(ns) && ConvItem(g, owner, x, inSequence) == Err(e)
    ensures ConvList(g, owner, front + [x], inSequence) == Err(e)
  {
    var items := front + [x];
    assert items[|front|] == x;
    assert forall j | 0 <= j < |front| :: items[j] == front[j];
    FirstErrorWins(g, owner, items, inSequence, |front|);
  }

  /** Lists of one to eight converted items. */
  lemma ListOf1(g: Grammar, owner: string, b: bool, d1: RawDef, n1: Node)
    requires ConvItem(g, owner, d1, b) == Ok(n1)
    ensures ConvList(g, owner, [d1], b) == Ok([n1])
  {
    ListConverts(g, owner, [d1], b, [n1]);
  }

  lemma ListOf2(g: Grammar, owner: string, b: bool, d1: RawDef, d2: RawDef,
                n1: Node, n2: Node)
    requires ConvItem(g, owner, d1, b) == Ok(n1) && ConvItem(g, owner, d2, b) == Ok(n2)
    ensures ConvList(g, owner, [d1, d2], b) == Ok([n1, n2])
  {
    ListOf1(g, owner, b, d1, n1);
    SnocOf2(d1, d2);
    SnocOf2(n1, n2);
    ListSnoc(g, owner, [d1], d2, b, [n1], n2);
  }

  lemma ListOf3(g: Grammar, owner: string, b: bool, d1: RawDef, d2: RawDef, d3: RawDef,
                n1: Node, n2: Node, n3: Node)
    requires ConvItem(g, owner, d1, b) == Ok(n1) && ConvItem(g, owner, d2, b) == Ok(n2)
    requires ConvItem(g, owner, d3, b) == Ok(n3)
    ensures ConvList(g, owner, [d1, d2, d3], b) == Ok([n1, n2, n3])
  {
    ListOf2(g, owner, b, d1, d2, n1, n2);
    SnocOf3(d1, d2, d3);
    SnocOf3(n1, n2, n3);
    ListSnoc(g, owner, [d1, d2], d3, b, [n1, n2], n3);
  }

  lemma ListOf4(g: Grammar, owner: string, b: bool, d1: RawDef, d2: RawDef, d3: RawDef, d4: RawDef,
                n1: Node, n2: Node, n3: Node, n4: Node)
    requires ConvItem(g, owner, d1, b) == Ok(n1) && ConvItem(g, owner, d2, b) == Ok(n2)
    requires ConvItem(g, owner, d3, b) == Ok(n3) && ConvItem(g, owner, d4, b) == Ok(n4)
    ensures ConvList(g, owner, [d1, d2, d3, d4], b) == Ok([n1, n2, n3, n4])
  {
    ListOf3(g, owner, b, d1, d2, d3, n1, n2, n3);
    SnocOf4(d1, d2, d3, d4);
    SnocOf4(n1, n2, n3, n4);
    ListSnoc(g, owner, [d1, d2, d3], d4, b, [n1, n2, n3], n4);
  }

  lemma ListOf5(g: Grammar, owner: string, b: bool, d1: RawDef, d2: RawDef, d3: RawDef, d4: RawDef, d5: RawDef,
                n1: Node, n2: Node, n3: Node, n4: Node, n5: Node)
    requires ConvItem(g, owner, d1, b) == Ok(n1) && ConvItem(g, owner, d2, b) == Ok(n2)
    requires ConvItem(g, owner, d3, b) == Ok(n3) && ConvItem(g, owner, d4, b) == Ok(n4)
    requires ConvItem(g, owner, d5, b) == Ok(n5)
    ensures ConvList(g, owner, [d1, d2, d3, d4, d5], b) == Ok([n1, n2, n3, n4, n5])
  {
    ListOf4(g, owner, b, d1, d2, d3, d4, n1, n2, n3, n4);
    SnocOf5(d1, d2, d3, d4, d5);
    SnocOf5(n1, n2, n3, n4, n5);
    ListSnoc(g, owner, [d1, d2, d3, d4], d5, b, [n1, n2, n3, n4], n5);
  }

  lemma ListOf6(g: Grammar, owner: string, b: bool, d1: RawDef, d2: RawDef, d3: RawDef, d4: RawDef, d5: RawDef, d6: RawDef,
                n1: Node, n2: Node, n3: Node, n4: Node, n5: Node, n6: Node)
    requires ConvItem(g, owner, d1, b) == Ok(n1) && ConvItem(g, owner, d2, b) == Ok(n2)
    requires ConvItem(g, owner, d3, b) == Ok(n3) && ConvItem(g, owner, d4, b) == Ok(n4)
    requires ConvItem(g, owner, d5, b) == Ok(n5) && ConvItem(g, owner, d6, b) == Ok(n6)
    ensures ConvList(g, owner, [d1, d2, d3, d4, d5, d6], b) == Ok([n1, n2, n3, n4, n5, n6])
  {
    ListOf5(g, owner, b, d1, d2, d3, d4, d5, n1, n2, n3, n4, n5);
    SnocOf6(d1, d2, d3, d4, d5, d6);
    SnocOf6(n1, n2, n3, n4, n5, n6);
    ListSnoc(g, owner, [d1, d2, d3, d4, d5], d6, b, [n1, n2, n3, n4, n5], n6);
  }

  lemma ListOf7(g: Grammar, owner: string, b: bool, d1: RawDef, d2: RawDef, d3: RawDef, d4: RawDef, d5: RawDef, d6: RawDef, d7: RawDef,
                n1: Node, n2: Node, n3: Node, n4: Node, n5: Node, n6: Node, n7: Node)
    requires ConvItem(g, owner, d1, b) == Ok(n1) && ConvItem(g, owner, d2, b) == Ok(n2)
    requires ConvItem(g, owner, d3, b) == Ok(n3) && ConvItem(g, owner, d4, b) == Ok(n4)
    requires ConvItem(g, owner, d5, b) == Ok(n5) && ConvItem(g, owner, d6, b) == Ok(n6)
    requires ConvItem(g, owner, d7, b) == Ok(n7)
    ensures ConvList(g, owner, [d1, d2, d3, d4, d5, d6, d7], b) == Ok([n1, n2, n3, n4, n5, n6, n7])
  {
    ListOf6(g, owner, b, d1, d2, d3, d4, d5, d6, n1, n2, n3, n4, n5, n6);
    SnocOf7(d1, d2, d3, d4, d5, d6, d7);
    SnocOf7(n1, n2, n3, n4, n5, n6, n7);
    ListSnoc(g, owner, [d1, d2, d3, d4, d5, d6], d7, b, [n1, n2, n3, n4, n5, n6], n7);
  }

  lemma ListOf8(g: Grammar, owner: string, b: bool, d1: RawDef, d2: RawDef, d3: RawDef, d4: RawDef, d5: RawDef, d6: RawDef, d7: RawDef, d8: RawDef,
                n1: Node, n2: Node, n3: Node, n4: Node, n5: Node, n6: Node, n7: Node, n8: Node)
    requires ConvItem(g, owner, d1, b) == Ok(n1) && ConvItem(g, owner, d2, b) == Ok(n2)
    requires ConvItem(g, owner, d3, b) == Ok(n3) && ConvItem(g, owner, d4, b) == Ok(n4)
    requires ConvItem(g, owner, d5, b) == Ok(n5) && ConvItem(g, owner, d6, b) == Ok(n6)
    requires ConvItem(g, owner, d7, b) == Ok(n7) && ConvItem(g, owner, d8, b) == Ok(n8)
    ensures ConvList(g, owner, [d1, d2, d3, d4, d5, d6, d7, d8], b) == Ok([n1, n2, n3, n4, n5, n6, n7, n8])
  {
    ListOf7(g, owner, b, d1, d2, d3, d4, d5, d6, d7, n1, n2, n3, n4, n5, n6, n7);
    SnocOf8(d1, d2, d3, d4, d5, d6, d7, d8);
    SnocOf8(n1, n2, n3, n4, n5, n6, n7, n8);
    ListSnoc(g, owner, [d1, d2, d3, d4, d5, d6, d7], d8, b, [n1, n2, n3, n4, n5, n6, n7], n8);
  }

  // ---- literal facts: equalities on literal sequences and on the edges of
  // literal node lists, used as hints by the concrete conversions; they state
  // nothing about the converter ---------------------------------------------

  /** Appending one element to a literal sequence gives the longer literal. */
  lemma SnocOf1<T>(a1: T)
    ensures [] + [a1] == [a1]
  {
  }

  lemma SnocOf2<T>(a1: T, a2: T)
    ensures [a1] + [a2] == [a1, a2]
  {
  }

  lemma SnocOf3<T>(a1: T, a2: T, a3: T)
    ensures [a1, a2] + [a3] == [a1, a2, a3]
  {
  }

  lemma SnocOf4<T>(a1: T, a2: T, a3: T, a4: T)
    ensures [a1, a2, a3] + [a4] == [a1, a2, a3, a4]
  {
  }

  lemma SnocOf5<T>(a1: T, a2: T, a3: T, a4: T, a5: T)
    ensures [a1, a2, a3, a4] + [a5] == [a1, a2, a3, a4, a5]
  {
  }

  lemma SnocOf6<T>(a1: T, a2: T, a3: T, a4: T, a5: T, a6: T)
    ensures [a1, a2, a3, a4, a5] + [a6] == [a1, a2, a3, a4, a5, a6]
  {
  }

  lemma SnocOf7<T>(a1: T, a2: T, a3: T, a4: T, a5: T, a6: T, a7: T)
    ensures [a1, a2, a3, a4, a5, a6] + [a7] == [a1, a2, a3, a4, a5, a6, a7]
  {
  }

  lemma SnocOf8<T>(a1: T, a2: T, a3: T, a4: T, a5: T, a6: T, a7: T, a8: T)
    ensures [a1, a2, a3, a4, a5, a6, a7] + [a8] == [a1, a2, a3, a4, a5, a6, a7, a8]
  {
  }

  /** One more converted item extends a converted list. */
  lemma ListSnoc(g: Grammar, owner: string, front: seq<RawDef>, x: RawDef, inSequence: bool, ns: seq<Node>, n: Node)
    requires ConvList(g, owner, front, inSequence) == Ok(ns) && ConvItem(g, owner, x, inSequence) == Ok(n)
    ensures ConvList(g, owner, front + [x], inSequence) == Ok(ns + [n])
  {
    assert (front + [x])[..|front|] == front;
    ListConverts(g, owner, front + [x], inSequence, ns + [n]);
  }

  /** The edges of a literal list of nodes are those of its items. */
  lemma RefsOf1(n1: Node)
    ensures NodeRefsList([n1]) == NodeRefs(n1)
  {
    assert [n1][..0] == [];
  }

  lemma RefsOf2(n1: Node, n2: Node)
    ensures NodeRefsList([n1, n2]) == NodeRefs(n1) + NodeRefs(n2)
  {
    RefsOf1(n1);
    SnocOf2(n1, n2);
  }

  lemma RefsOf3(n1: Node, n2: Node, n3: Node)
    ensures NodeRefsList([n1, n2, n3]) == NodeRefs(n1) + NodeRefs(n2) + NodeRefs(n3)
  {
    RefsOf2(n1, n2);
    SnocOf3(n1, n2, n3);
  }

  lemma RefsOf4(n1: Node, n2: Node, n3: Node, n4: Node)
    ensures NodeRefsList([n1, n2, n3, n4]) == NodeRefs(n1) + NodeRefs(n2) + NodeRefs(n3) + NodeRefs(n4)
  {
    RefsOf3(n1, n2, n3);
    SnocOf4(n1, n2, n3, n4);
  }

  lemma RefsOf5(n1: Node, n2: Node, n3: Node, n4: Node, n5: Node)
    ensures NodeRefsList([n1, n2, n3, n4, n5]) == NodeRefs(n1) + NodeRefs(n2) + NodeRefs(n3) + NodeRefs(n4) + NodeRefs(n5)
  {
    RefsOf4(n1, n2, n3, n4);
    SnocOf5(n1, n2, n3, n4, n5);
  }

  lemma RefsOf6(n1: Node, n2: Node, n3: Node, n4: Node, n5: Node, n6: Node)
    ensures NodeRefsList([n1, n2, n3, n4, n5, n6]) == NodeRefs(n1) + NodeRefs(n2) + NodeRefs(n3) + NodeRefs(n4) + NodeRefs(n5) + NodeRefs(n6)
  {
    RefsOf5(n1, n2, n3, n4, n5);
    SnocOf6(n1, n2, n3, n4, n5, n6);
  }

  lemma RefsOf7(n1: Node, n2: Node, n3: Node, n4: Node, n5: Node, n6: Node, n7: Node)
    ensures NodeRefsList([n1, n2, n3, n4, n5, n6, n7]) == NodeRefs(n1) + NodeRefs(n2) + NodeRefs(n3) + NodeRefs(n4) + NodeRefs(n5) + NodeRefs(n6) + NodeRefs(n7)
  {
    RefsOf6(n1, n2, n3, n4, n5, n6);
    SnocOf7(n1, n2, n3, n4, n5, n6, n7);
  }

  lemma RefsOf8(n1: Node, n2: Node, n3: Node, n4: Node, n5: Node, n6: Node, n7: Node, n8: Node)
    ensures NodeRefsList([n1, n2, n3, n4, n5, n6, n7, n8]) == NodeRefs(n1) + NodeRefs(n2) + NodeRefs(n3) + NodeRefs(n4) + NodeRefs(n5) + NodeRefs(n6) + NodeRefs(n7) + NodeRefs(n8)
  {
    RefsOf7(n1, n2, n3, n4, n5, n6, n7);
    SnocOf8(n1, n2, n3, n4, n5, n6, n7, n8);
  }
}
