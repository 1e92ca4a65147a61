/** The memoizing driver: converts the root rule and, depth first, every
    named rule it reaches, each exactly once. A rule already converted, or
    still being converted further up the call chain, is not entered again;
    the reference becomes an edge to its shared node. This is what makes
    self- and mutually-recursive grammars terminate. */
module GraphBuilder {
  import opened Shorthand
  import opened Canonical
  import opened Diagnostics
  import opened Resolver
  import opened Components

  /** The rule conversion starts from. */
  const Root: string := "main"

  /** A set of rule names holding the root and every rule its members'
      definitions refer to. */
  ghost predicate Closed(g: Grammar, names: set<string>) {
    Root in names && forall r | r in names :: r in g.rules && RawRefs(g, g.rules[r]) <= names
  }

  /** Reachable from the root: a member of every closed set. */
  ghost predicate Reachable(g: Grammar, r: string) {
    forall names | Closed(g, names) :: r in names
  }

  /** `graph` is the conversion of `g`: it holds exactly the rules reachable
      from the root, each mapped to the conversion of its definition. */
  ghost predicate IsConversion(g: Grammar, graph: Graph) {
    Closed(g, graph.Keys)
    && (forall names | Closed(g, names) :: graph.Keys <= names)
    && forall r | r in graph :: r in g.rules && ConvRule(g, r) == Ok(graph[r])
  }

  /** What a call of the converter returns: the conversion of the grammar,
      or the error of some rule reachable from the root. */
  ghost predicate ConvertSpec(g: Grammar, res: Result<Graph>) {
    if Root !in g.rules then res == Err(MissingRoot)
    else match res
      case Ok(graph) => IsConversion(g, graph)
      case Err(e) => exists r | r in g.rules && Reachable(g, r) :: ConvRule(g, r) == Err(e)
  }

  /** Reachability follows the edges of a definition. */
  lemma ReachableStep(g: Grammar, owner: string, t: string)
    requires Reachable(g, owner) && owner in g.rules && t in RawRefs(g, g.rules[owner])
    ensures Reachable(g, t)
  {
  }

  /** There is at most one conversion of a grammar. */
  lemma ConversionUnique(g: Grammar, a: Graph, b: Graph)
    requires IsConversion(g, a) && IsConversion(g, b)
    ensures a == b
  {
    assert a.Keys <= b.Keys && b.Keys <= a.Keys;
    forall r | r in a
      ensures a[r] == b[r]
    {
      assert Ok(a[r]) == ConvRule(g, r) == Ok(b[r]);
    }
  }

  /** The conversion holds exactly the rules reachable from the root. */
  lemma ConversionKeepsReachable(g: Grammar, graph: Graph, r: string)
    requires IsConversion(g, graph)
    ensures r in graph <==> r in g.rules && Reachable(g, r)
  {
    if r in graph {
      forall names | Closed(g, names)
        ensures r in names
      {
        assert graph.Keys <= names;
      }
    }
  }

  /** Every edge of the conversion leads to a node of the conversion, and
      that node is the conversion of the rule the edge names. */
  lemma NoDanglingEdges(g: Grammar, graph: Graph, r: string, t: string)
    requires IsConversion(g, graph) && r in graph && t in NodeRefs(graph[r])
    ensures t in graph && Ok(Expand(graph, RuleRef(t))) == ConvRule(g, t)
  {
    assert NodeRefs(graph[r]) == RawRefs(g, g.rules[r]) by {
      assert ConvRule(g, r) == Ok(graph[r]);
    }
  }

  /** In a conversion, verified markers only stand as items of sequences. */
  lemma VerifiedOnlyInSequences(g: Grammar, graph: Graph, r: string)
    requires IsConversion(g, graph) && r in graph
    ensures Placed(graph[r], false)
  {
    assert ConvRule(g, r) == Ok(graph[r]);
  }

  /** A call succeeds exactly when the root exists and every rule reachable
      from it converts on its own. */
  lemma SucceedsIff(g: Grammar, res: Result<Graph>)
    requires ConvertSpec(g, res)
    ensures res.Ok? <==> Root in g.rules && forall r | r in g.rules && Reachable(g, r) :: ConvRule(g, r).Ok?
  {
    if res.Ok? {
      forall r | r in g.rules && Reachable(g, r)
        ensures ConvRule(g, r).Ok?
      {
        ConversionKeepsReachable(g, res.value, r);
      }
    }
  }

  /** A grammar whose every rule converts converts as a whole, whatever is
      reachable. */
  lemma EveryRuleConverts(g: Grammar, res: Result<Graph>)
    requires ConvertSpec(g, res) && Root in g.rules
    requires forall r | r in g.rules :: ConvRule(g, r).Ok?
    ensures res.Ok?
  {
    SucceedsIff(g, res);
  }

  /** A graph built from closed, reachable, converted rules is the result. */
  lemma ResultIs(g: Grammar, res: Result<Graph>, graph: Graph)
    requires ConvertSpec(g, res) && Root in g.rules && Closed(g, graph.Keys)
    requires forall r | r in graph :: Reachable(g, r) && ConvRule(g, r) == Ok(graph[r])
    ensures res == Ok(graph)
  {
    assert IsConversion(g, graph);
    forall r | r in g.rules && Reachable(g, r)
      ensures ConvRule(g, r).Ok?
    {
      assert r in graph.Keys;
    }
    SucceedsIff(g, res);
    ConversionUnique(g, res.value, graph);
  }

  /** A root that converts to a node without edges is the whole result. */
  lemma SingleRuleResult(g: Grammar, res: Result<Graph>, n: Node)
    requires ConvertSpec(g, res) && Root in g.rules
    requires ConvRule(g, Root) == Ok(n) && NodeRefs(n) == {}
    ensures res == Ok(map[Root := n])
  {
    var graph := map[Root := n];
    assert graph.Keys == {Root};
    assert Reachable(g, Root);
    ResultIs(g, res, graph);
  }

  /** The root is reachable from itself. */
  lemma RootReachable(g: Grammar)
    ensures Reachable(g, Root)
  {
  }

  /** A rule a reachable rule's conversion refers to is reachable. */
  lemma EdgeReachable(g: Grammar, owner: string, n: Node, t: string)
    requires owner in g.rules && Reachable(g, owner) && ConvRule(g, owner) == Ok(n) && t in NodeRefs(n)
    ensures Reachable(g, t)
  {
    ReachableStep(g, owner, t);
  }

  /** When one reachable rule fails and every other rule converts, the call
      fails with that rule's error. */
  lemma OnlyFailure(g: Grammar, res: Result<Graph>, r: string, e: Error)
    requires ConvertSpec(g, res) && Root in g.rules
    requires r in g.rules && Reachable(g, r) && ConvRule(g, r) == Err(e)
    requires forall q | q in g.rules && q != r :: ConvRule(g, q).Ok?
    ensures res == Err(e)
  {
    SucceedsIff(g, res);
    var q :| q in g.rules && Reachable(g, q) && ConvRule(g, q) == Err(res.error);
    assert q == r;
  }

  /** The result's root is the `main` rule's node, tagged with the name
      `main` and with the kind its tuple gives. */
  lemma RootTagged(g: Grammar, graph: Graph)
    requires IsConversion(g, graph) && g.rules[Root].Tuple?
    ensures Root in graph && TypeField(graph[Root]) == Some(Root)
    ensures RuleType(graph[Root]) == Some(g.rules[Root].kind)
  {
    assert ConvRule(g, Root) == Ok(graph[Root]);
  }

  /** The builder's invariant: every rule entered is reachable, and every
      rule finished holds the conversion of its definition, whose edges lead
      to rules entered. */
  ghost predicate BuilderInv(g: Grammar, done: Graph, inFlight: set<string>) {
    done.Keys !! inFlight
    && done.Keys + inFlight <= g.rules.Keys
    && (forall r | r in done.Keys + inFlight :: Reachable(g, r))
    && forall r | r in done :: ConvRule(g, r) == Ok(done[r]) && NodeRefs(done[r]) <= done.Keys + inFlight
  }

  /** Entering a reachable rule keeps the invariant. */
  lemma EnterKeepsInv(g: Grammar, done: Graph, inFlight: set<string>, t: string)
    requires BuilderInv(g, done, inFlight) && t in g.rules && Reachable(g, t) && t !in done
    ensures BuilderInv(g, done, inFlight + {t})
  {
  }

  /** Finishing an entered rule with the conversion of its definition keeps
      the invariant. */
  lemma FinishKeepsInv(g: Grammar, done: Graph, inFlight: set<string>, t: string, n: Node)
    requires BuilderInv(g, done, inFlight) && t in inFlight && t in g.rules
    requires ConvRule(g, t) == Ok(n) && NodeRefs(n) <= done.Keys + inFlight
    ensures BuilderInv(g, done[t := n], inFlight - {t})
    ensures done[t := n].Keys + (inFlight - {t}) == done.Keys + inFlight
  {
  }

  /** The state of one conversion call: the nodes of the rules converted so
      far and the names of the rules whose conversion is under way. */
  class Builder {
    const g: Grammar
    var done: Graph
    var inFlight: set<string>

    function Started(): set<string>
      reads this
    {
      done.Keys + inFlight
    }

    /** The termination measure: rules not yet entered. */
    function Unstarted(): set<string>
      reads this
    {
      g.rules.Keys - Started()
    }

    ghost predicate Valid()
      reads this
    {
      BuilderInv(g, done, inFlight)
    }

    /** Some rule entered so far fails on its own with `e`. */
    ghost predicate StartedFailsWith(e: Error)
      reads this
    {
      exists r | r in Started() && r in g.rules :: ConvRule(g, r) == Err(e)
    }

    constructor (g: Grammar)
      ensures this.g == g && done == map[] && inFlight == {} && Valid()
    {
      this.g := g;
      done := map[];
      inFlight := {};
    }

    /** Makes sure rule `t` is converted and answers the edge to its shared
        node. */
    method Visit(t: string) returns (res: Result<Node>)
      requires Valid() && t in g.rules && Reachable(g, t)
      modifies this
      ensures Valid() && old(Started()) <= Started()
      ensures res.Ok? ==> res.value == RuleRef(t) && t in Started() && inFlight == old(inFlight)
      ensures res.Err? ==> StartedFailsWith(res.error)
      // a rule finished or under way is not entered again
      ensures old(t in done || t in inFlight) ==>
                done == old(done) && inFlight == old(inFlight) && res == Ok(RuleRef(t))
      // a rule not under way before the call is finished by a successful one
      ensures res.Ok? && old(t !in inFlight) ==> t in done && Ok(done[t]) == ConvRule(g, t)
      decreases Unstarted(), 0, 0
    {
      if t in done || t in inFlight {
        return Ok(RuleRef(t));
      }
      EnterKeepsInv(g, done, inFlight, t);
      inFlight := inFlight + {t};
      var d := g.rules[t];
      var r;
      if d.Tuple? {
        r := ConvertTuple(t, Some(t), d);
      } else {
        r := ConvertItem(t, d, false);
      }
      if r.Err? {
        return Err(r.error);
      }
      FinishKeepsInv(g, done, inFlight, t, r.value);
      done, inFlight := done[t := r.value], inFlight - {t};
      return Ok(RuleRef(t));
    }

    /** Converts a reference, untagged array or tuple met inside rule
        `owner`, entering the named rules it refers to. */
    method ConvertItem(owner: string, d: RawDef, inSequence: bool) returns (res: Result<Node>)
      requires Valid() && owner in inFlight && RawRefs(g, d) <= RawRefs(g, g.rules[owner])
      modifies this
      ensures Valid() && old(Started()) <= Started()
      ensures res.Ok? ==> res == ConvItem(g, owner, d, inSequence)
                          && NodeRefs(res.value) <= Started() && inFlight == old(inFlight)
      ensures res.Err? ==> res == ConvItem(g, owner, d, inSequence) || StartedFailsWith(res.error)
      decreases Unstarted(), Size(d), 1
    {
      match d
      case Ref(s) =>
        res := Resolve(g, owner, s, inSequence);
        if res.Ok? && res.value.RuleRef? {
          ResolvedRefs(g, owner, s, inSequence);
          ReachableStep(g, owner, res.value.target);
          var v := Visit(res.value.target);
          if v.Err? {
            return Err(v.error);
          }
        }
      case List(_) =>
        res := Err(AmbiguousArray(owner));
      case Tuple(_, _, _) =>
        res := ConvertTuple(owner, None, d);
    }

    /** Converts a tagged tuple met inside rule `owner`; `name` is the rule
        name when the tuple is the rule's whole definition. */
    method ConvertTuple(owner: string, name: Option<string>, d: RawDef) returns (res: Result<Node>)
      requires d.Tuple?
      requires Valid() && owner in inFlight && RawRefs(g, d) <= RawRefs(g, g.rules[owner])
      modifies this
      ensures Valid() && old(Started()) <= Started()
      ensures res.Ok? ==> res == ConvTuple(g, owner, name, d)
                          && NodeRefs(res.value) <= Started() && inFlight == old(inFlight)
      ensures res.Err? ==> res == ConvTuple(g, owner, name, d) || StartedFailsWith(res.error)
      decreases Unstarted(), Size(d), 0
    {
      match ParseKind(d.kind)
      case None =>
        res := Err(UnsupportedRuleType(owner, d.kind));
      case Some(SequenceKind) =>
        if d.payload.List? {
          assert Size(d.payload) == 1 + SizeList(d.payload.items);
          var items := ConvertList(owner, d.payload.items, true);
          if items.Err? {
            return Err(items.error);
          }
          res := Ok(Sequence(name, items.value));
        } else {
          res := Err(PayloadNotList(owner, d.kind));
        }
      case Some(EitherKind) =>
        if d.payload.List? {
          assert Size(d.payload) == 1 + SizeList(d.payload.items);
          var alts := ConvertList(owner, d.payload.items, false);
          if alts.Err? {
            return Err(alts.error);
          }
          res := Ok(Either(name, alts.value));
        } else {
          res := Err(PayloadNotList(owner, d.kind));
        }
      case Some(RepeatKind(rep)) =>
        var sub: Node;
        if d.payload.List? {
          assert Size(d.payload) == 1 + SizeList(d.payload.items);
          var items := ConvertList(owner, d.payload.items, true);
          if items.Err? {
            return Err(items.error);
          }
          sub := Sequence(None, items.value);
        } else {
          var r := ConvertItem(owner, d.payload, false);
          if r.Err? {
            return Err(r.error);
          }
          sub := r.value;
        }
        if d.delim.None? {
          res := Ok(Repeat(name, rep, sub, None));
        } else {
          var delimiter := ConvertItem(owner, d.delim.value, false);
          if delimiter.Err? {
            return Err(delimiter.error);
          }
          res := Ok(Repeat(name, rep, sub, Some(delimiter.value)));
        }
      case Some(OptionalKind) =>
        var sub := ConvertItem(owner, d.payload, false);
        if sub.Err? {
          return Err(sub.error);
        }
        res := Ok(Optional(name, sub.value));
      case Some(OneKind) =>
        var sub := ConvertItem(owner, d.payload, false);
        if sub.Err? {
          return Err(sub.error);
        }
        res := Ok(One(name, sub.value));
    }

    /** Converts the items of a list in order, stopping at the first
        failure. */
    method ConvertList(owner: string, items: seq<RawDef>, inSequence: bool) returns (res: Result<seq<Node>>)
      requires Valid() && owner in inFlight && RawRefsList(g, items) <= RawRefs(g, g.rules[owner])
      modifies this
      ensures Valid() && old(Started()) <= Started()
      ensures res.Ok? ==> res == ConvList(g, owner, items, inSequence)
                          && NodeRefsList(res.value) <= Started() && inFlight == old(inFlight)
      ensures res.Err? ==> res == ConvList(g, owner, items, inSequence) || StartedFailsWith(res.error)
      decreases Unstarted(), SizeList(items), 3
    {
      ghost var rs := ItemResults(g, owner, items, inSequence);
      ghost var started0, inFlight0 := Started(), inFlight;
      var converted: seq<Node> := [];
      var i := 0;
      while i < |items|
        invariant 0 <= i <= |items|
        invariant Valid() && started0 <= Started() && inFlight == inFlight0
        invariant Collect(rs[..i]) == Ok(converted)
        invariant NodeRefsList(converted) <= Started()
      {
        var r := ConvertNext(owner, items, inSequence, i, converted, rs);
        if r.Err? {
          return Err(r.error);
        }
        converted := converted + [r.value];
        i := i + 1;
      }
      assert rs[..i] == rs;
      return Ok(converted);
    }

    /** Converts item `i` of a list whose item results are `rs` and whose
        first `i` items converted to `converted`. */
    method ConvertNext(owner: string, items: seq<RawDef>, inSequence: bool, i: nat, converted: seq<Node>,
                       ghost rs: seq<Result<Node>>)
      returns (res: Result<Node>)
      requires Valid() && owner in inFlight && RawRefsList(g, items) <= RawRefs(g, g.rules[owner])
      requires rs == ItemResults(g, owner, items, inSequence)
      requires i < |items| && Collect(rs[..i]) == Ok(converted) && NodeRefsList(converted) <= Started()
      modifies this
      ensures Valid() && old(Started()) <= Started()
      ensures res.Ok? ==> Collect(rs[..i + 1]) == Ok(converted + [res.value]) && inFlight == old(inFlight)
                          && NodeRefsList(converted + [res.value]) <= Started()
      ensures res.Err? ==> Collect(rs) == Err(res.error) || StartedFailsWith(res.error)
      decreases Unstarted(), SizeList(items), 2
    {
      RawRefsListBounds(g, items, i);
      SizeListBounds(items, i);
      res := ConvertItem(owner, items[i], inSequence);
      if res.Err? {
        if res == rs[i] {
          CollectStops(rs, i);
        }
        return;
      }
      CollectStep(rs, i, converted, res.value);
      assert (converted + [res.value])[..|converted|] == converted;
    }
  }

  /** Converts grammar `g` from its `main` rule. The node cache lives in a
      builder made for this call only. */
  method ConvertSyntax(g: Grammar) returns (res: Result<Graph>)
    ensures ConvertSpec(g, res)
  {
    if Root !in g.rules {
      return Err(MissingRoot);
    }
    var builder := new Builder(g);
    var root := builder.Visit(Root);
    if root.Err? {
      return Err(root.error);
    }
    return Ok(builder.done);
  }
}
