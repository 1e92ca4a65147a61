/** Conversion of one rule definition into its canonical node. A reference
    to a named parse rule becomes a `RuleRef` edge here; expanding the named
    rule itself, once, is the graph builder's job. */
module Components {
  import opened Shorthand
  import opened Canonical
  import opened Diagnostics
  import opened Resolver

  /** The parse rules a definition refers to: the edges its conversion has
      when it succeeds. A delimiter only counts on a repetition. */
  function RawRefs(g: Grammar, d: RawDef): set<string> {
    match d
    case Ref(s) => RefTargets(g, s)
    case List(items) => RawRefsList(g, items)
    case Tuple(kind, p, dl) =>
      RawRefs(g, p)
      + (if IsRepetition(kind) && dl.Some? then RawRefs(g, dl.value) else {})
  }

  function RawRefsList(g: Grammar, items: seq<RawDef>): set<string> {
    if items == [] then {}
    else RawRefsList(g, items[..|items| - 1]) + RawRefs(g, items[|items| - 1])
  }

  predicate IsRepetition(kind: string) {
    ParseKind(kind).Some? && ParseKind(kind).value.RepeatKind?
  }

  /** The results of a list of conversions gathered in order: the values
      of all of them, or the error of the first that failed. */
  function Collect<T>(rs: seq<Result<T>>): (r: Result<seq<T>>)
    ensures r.Ok? ==> |r.value| == |rs| && forall i | 0 <= i < |rs| :: rs[i] == Ok(r.value[i])
  {
    if rs == [] then Ok([])
    else
      match Collect(rs[..|rs| - 1])
      case Err(e) => Err(e)
      case Ok(front) =>
        match rs[|rs| - 1]
        case Err(e) => Err(e)
        case Ok(last) =>
          assert forall i | 0 <= i < |rs| - 1 :: rs[..|rs| - 1][i] == rs[i];
          Ok(front + [last])
  }

  /** Results that all succeed gather to their values. */
  lemma {:induction false} CollectAllOk<T>(rs: seq<Result<T>>, vs: seq<T>)
    requires |vs| == |rs| && forall i | 0 <= i < |rs| :: rs[i] == Ok(vs[i])
    ensures Collect(rs) == Ok(vs)
    decreases |rs|
  {
    if rs != [] {
      var k := |rs| - 1;
      assert forall i | 0 <= i < k :: rs[..k][i] == rs[i] && vs[..k][i] == vs[i];
      CollectAllOk(rs[..k], vs[..k]);
      assert vs == vs[..k] + [vs[k]];
    }
  }

  /** Results gather to the error of the first failing one. */
  lemma {:induction false} CollectFirstError<T>(rs: seq<Result<T>>, i: nat)
    requires i < |rs| && rs[i].Err? && forall j | 0 <= j < i :: rs[j].Ok?
    ensures Collect(rs) == Err(rs[i].error)
    decreases |rs|
  {
    var k := |rs| - 1;
    if i < k {
      assert forall j | 0 <= j <= i :: rs[..k][j] == rs[j];
      CollectFirstError(rs[..k], i);
    } else {
      var vs := seq(k, j requires 0 <= j < k => rs[j].value);
      assert forall j | 0 <= j < k :: rs[..k][j] == Ok(vs[j]);
      CollectAllOk(rs[..k], vs);
    }
  }

  /** A gathered failure is the error of some result, all earlier ones
      succeeding. */
  lemma {:induction false} CollectErrorIsFirst<T>(rs: seq<Result<T>>)
    requires Collect(rs).Err?
    ensures exists i | 0 <= i < |rs| :: rs[i] == Err(Collect(rs).error) && forall j | 0 <= j < i :: rs[j].Ok?
    decreases |rs|
  {
    var k := |rs| - 1;
    var e := Collect(rs).error;
    if Collect(rs[..k]).Err? {
      CollectErrorIsFirst(rs[..k]);
      var i :| 0 <= i < k && rs[..k][i] == Err(e) && forall j | 0 <= j < i :: rs[..k][j].Ok?;
      assert forall j | 0 <= j <= i :: rs[..k][j] == rs[j];
      assert rs[i] == Err(e) && forall j | 0 <= j < i :: rs[j].Ok?;
    } else {
      assert forall j | 0 <= j < k :: rs[..k][j] == rs[j];
      assert rs[k] == Err(e) && forall j | 0 <= j < k :: rs[j].Ok?;
    }
  }

  /** One more successful result extends a gathered prefix by its value. */
  lemma CollectStep<T>(rs: seq<Result<T>>, i: nat, vs: seq<T>, v: T)
    requires i < |rs| && Collect(rs[..i]) == Ok(vs) && rs[i] == Ok(v)
    ensures Collect(rs[..i + 1]) == Ok(vs + [v])
  {
    assert rs[..i + 1][..i] == rs[..i];
  }

  /** A failure after a successful prefix is the failure of the whole list. */
  lemma CollectStops<T>(rs: seq<Result<T>>, i: nat)
    requires i < |rs| && Collect(rs[..i]).Ok? && rs[i].Err?
    ensures Collect(rs) == Err(rs[i].error)
  {
    assert forall j | 0 <= j < i :: rs[..i][j] == rs[j];
    CollectFirstError(rs, i);
  }

  /** Lists whose nodes have the edges of their items have the edges of the
      list. */
  lemma {:induction false} RefsAgree(g: Grammar, ns: seq<Node>, items: seq<RawDef>)
    requires |ns| == |items| && forall i | 0 <= i < |items| :: NodeRefs(ns[i]) == RawRefs(g, items[i])
    ensures NodeRefsList(ns) == RawRefsList(g, items)
    decreases |items|
  {
    if items != [] {
      var k := |items| - 1;
      assert forall i | 0 <= i < k :: ns[..k][i] == ns[i] && items[..k][i] == items[i];
      RefsAgree(g, ns[..k], items[..k]);
    }
  }

  /** Converts a sequence item, an either alternative, a single payload or
      a delimiter. An untagged array is rejected here. */
  function ConvItem(g: Grammar, owner: string, d: RawDef, inSequence: bool): (r: Result<Node>)
    ensures r.Ok? ==> Placed(r.value, inSequence) && NodeRefs(r.value) == RawRefs(g, d)
    decreases d, 1
  {
    match d
    case Ref(s) =>
      var r := Resolve(g, owner, s, inSequence);
      if r.Ok? then ResolvedRefs(g, owner, s, inSequence); r else r
    case List(_) => Err(AmbiguousArray(owner))
    case Tuple(_, _, _) => ConvTuple(g, owner, None, d)
  }

  /** Converts a tagged tuple; `name` is the rule name when the tuple is a
      rule's whole definition. */
  function ConvTuple(g: Grammar, owner: string, name: Option<string>, d: RawDef): (r: Result<Node>)
    requires d.Tuple?
    ensures r.Ok? ==> Placed(r.value, false) && NodeRefs(r.value) == RawRefs(g, d)
    ensures r.Ok? ==> TypeField(r.value) == name && RuleType(r.value) == Some(d.kind)
    decreases d, 0
  {
    match ParseKind(d.kind)
    case None => Err(UnsupportedRuleType(owner, d.kind))
    case Some(SequenceKind) =>
      if d.payload.List? then
        var items :- ConvList(g, owner, d.payload.items, true);
        Ok(Sequence(name, items))
      else Err(PayloadNotList(owner, d.kind))
    case Some(EitherKind) =>
      if d.payload.List? then
        var alts :- ConvList(g, owner, d.payload.items, false);
        Ok(Either(name, alts))
      else Err(PayloadNotList(owner, d.kind))
    case Some(RepeatKind(rep)) =>
      var sub :- if d.payload.List? then
                   // an untagged list as the repeated unit stands for a sequence
                   var items :- ConvList(g, owner, d.payload.items, true);
                   Ok(Sequence(None, items))
                 else ConvItem(g, owner, d.payload, false);
      (match d.delim
       case None => Ok(Repeat(name, rep, sub, None))
       case Some(dl) =>
         var delimiter :- ConvItem(g, owner, dl, false);
         Ok(Repeat(name, rep, sub, Some(delimiter))))
    case Some(OptionalKind) =>
      var sub :- ConvItem(g, owner, d.payload, false);
      Ok(Optional(name, sub))
    case Some(OneKind) =>
      var sub :- ConvItem(g, owner, d.payload, false);
      Ok(One(name, sub))
  }

  /** Each item of a list converted on its own. */
  function ItemResults(g: Grammar, owner: string, items: seq<RawDef>, inSequence: bool): (rs: seq<Result<Node>>)
    ensures |rs| == |items|
    ensures forall i | 0 <= i < |items| :: rs[i] == ConvItem(g, owner, items[i], inSequence)
    ensures forall i | 0 <= i < |items| :: rs[i].Ok? ==>
              Placed(rs[i].value, inSequence) && NodeRefs(rs[i].value) == RawRefs(g, items[i])
    decreases items, 2
  {
    if items == [] then []
    else
      var front := items[..|items| - 1];
      assert forall i | 0 <= i < |front| :: front[i] == items[i];
      ItemResults(g, owner, front, inSequence) + [ConvItem(g, owner, items[|items| - 1], inSequence)]
  }

  /** Converts the items of a list in order, stopping at the first failure. */
  function ConvList(g: Grammar, owner: string, items: seq<RawDef>, inSequence: bool): (r: Result<seq<Node>>)
    ensures r.Ok? ==> |r.value| == |items|
    ensures r.Ok? ==> forall i | 0 <= i < |items| :: ConvItem(g, owner, items[i], inSequence) == Ok(r.value[i])
    ensures r.Ok? ==> NodeRefsList(r.value) == RawRefsList(g, items)
    ensures r.Ok? ==> forall i | 0 <= i < |items| :: Placed(r.value[i], inSequence)
    decreases items, 3
  {
    var r := Collect(ItemResults(g, owner, items, inSequence));
    if r.Ok? then RefsAgree(g, r.value, items); r else r
  }

  /** Converts the definition of parse rule `name`. A tuple definition gives
      a root node that carries the rule's name and the tuple's kind. */
  function ConvRule(g: Grammar, name: string): (r: Result<Node>)
    requires name in g.rules
    ensures r.Ok? ==> Placed(r.value, false) && NodeRefs(r.value) == RawRefs(g, g.rules[name])
    ensures r.Ok? && g.rules[name].Tuple? ==>
              TypeField(r.value) == Some(name) && RuleType(r.value) == Some(g.rules[name].kind)
  {
    var d := g.rules[name];
    if d.Tuple? then ConvTuple(g, name, Some(name), d) else ConvItem(g, name, d, false)
  }

  /** A list converts to `ns` exactly when each item converts to the node
      at its position. */
  lemma ListConverts(g: Grammar, owner: string, items: seq<RawDef>, inSequence: bool, ns: seq<Node>)
    requires |ns| == |items|
    requires forall i | 0 <= i < |items| :: ConvItem(g, owner, items[i], inSequence) == Ok(ns[i])
    ensures ConvList(g, owner, items, inSequence) == Ok(ns)
  {
    CollectAllOk(ItemResults(g, owner, items, inSequence), ns);
  }

  /** A list fails with the error of its first failing item. */
  lemma FirstErrorWins(g: Grammar, owner: string, items: seq<RawDef>, inSequence: bool, i: nat)
    requires i < |items|
    requires forall j | 0 <= j < i :: ConvItem(g, owner, items[j], inSequence).Ok?
    requires ConvItem(g, owner, items[i], inSequence).Err?
    ensures ConvList(g, owner, items, inSequence) == Err(ConvItem(g, owner, items[i], inSequence).error)
  {
    CollectFirstError(ItemResults(g, owner, items, inSequence), i);
  }

  /** Conversely, a failing list fails with the error of one of its items,
      every earlier item converting. */
  lemma ListErrorIsItemError(g: Grammar, owner: string, items: seq<RawDef>, inSequence: bool)
    requires ConvList(g, owner, items, inSequence).Err?
    ensures exists i | 0 <= i < |items| ::
              ConvItem(g, owner, items[i], inSequence) == Err(ConvList(g, owner, items, inSequence).error)
              && forall j | 0 <= j < i :: ConvItem(g, owner, items[j], inSequence).Ok?
  {
    var rs := ItemResults(g, owner, items, inSequence);
    CollectErrorIsFirst(rs);
    var i :| 0 <= i < |rs| && rs[i] == Err(Collect(rs).error) && forall j | 0 <= j < i :: rs[j].Ok?;
    assert ConvItem(g, owner, items[i], inSequence) == Err(ConvList(g, owner, items, inSequence).error);
  }

  /** The edges of each item are edges of the list. */
  lemma {:induction false} RawRefsListBounds(g: Grammar, items: seq<RawDef>, i: nat)
    requires i < |items|
    ensures RawRefs(g, items[i]) <= RawRefsList(g, items)
    decreases |items|
  {
    if i < |items| - 1 {
      var front := items[..|items| - 1];
      RawRefsListBounds(g, front, i);
      assert front[i] == items[i];
    }
  }

  /** A sequence keeps its items in the listed order, each converted on its
      own, and its root carries the rule name it was given. */
  lemma SequenceKeepsOrder(g: Grammar, owner: string, name: Option<string>, items: seq<RawDef>, dl: Option<RawDef>)
    requires ConvTuple(g, owner, name, Tuple("sequence", List(items), dl)).Ok?
    ensures var n := ConvTuple(g, owner, name, Tuple("sequence", List(items), dl)).value;
            n.Sequence? && n.name == name && |n.items| == |items|
            && forall i | 0 <= i < |items| :: ConvItem(g, owner, items[i], true) == Ok(n.items[i])
  {
  }

  /** A repetition without a third element has no delimiter; with one, its
      delimiter is that element converted like any other reference, a named
      rule included. The repeated unit is converted the same way in both. */
  lemma RepetitionDelimiter(g: Grammar, owner: string, name: Option<string>, kind: string, p: RawDef, dl: Option<RawDef>)
    requires IsRepetition(kind) && !p.List?
    requires ConvTuple(g, owner, name, Tuple(kind, p, dl)).Ok?
    ensures var n := ConvTuple(g, owner, name, Tuple(kind, p, dl)).value;
            n.Repeat? && KindName(RepeatKind(n.rep)) == kind && n.name == name
            && Ok(n.sub) == ConvItem(g, owner, p, false)
            && (dl.None? ==> n.delimiter.None?)
            && (dl.Some? ==> n.delimiter.Some? && Ok(n.delimiter.value) == ConvItem(g, owner, dl.value, false))
  {
  }

  /** A sequence tuple converts to a sequence of its converted items. */
  lemma SequenceTuple(g: Grammar, owner: string, name: Option<string>, items: seq<RawDef>, ns: seq<Node>)
    requires ConvList(g, owner, items, true) == Ok(ns)
    ensures ConvTuple(g, owner, name, Tuple("sequence", List(items), None)) == Ok(Sequence(name, ns))
  {
    assert ParseKind("sequence") == Some(SequenceKind);
  }

  /** An untagged array as a single payload is rejected, whatever it holds. */
  lemma OptionalRejectsArray(g: Grammar, owner: string, name: Option<string>, items: seq<RawDef>, dl: Option<RawDef>)
    ensures ConvTuple(g, owner, name, Tuple("optional", List(items), dl)) == Err(AmbiguousArray(owner))
  {
  }
}
