/** The canonical rule graph the converter produces. Each node is tagged by
    its rule type. A named parse rule is converted once and shared by every
    reference to it; that sharing is written here as a `RuleRef(name)` edge
    into a map from rule name to the rule's node, so that recursive grammars
    are finite graphs with cycles rather than infinite trees. */
module Canonical {
  import opened Shorthand

  /** `name` is the `type` field a rule's root node carries: the rule's own
      name at the root of a named rule, absent on nested anonymous tuples. */
  datatype Node =
    | Lex(tokenType: string, value: Option<string>)
    | Verified
    | RuleRef(target: string)
    | Sequence(name: Option<string>, items: seq<Node>)
    | Either(name: Option<string>, alts: seq<Node>)
    | Repeat(name: Option<string>, rep: Repetition, sub: Node, delimiter: Option<Node>)
    | Optional(name: Option<string>, sub: Node)
    | One(name: Option<string>, sub: Node)

  /** The whole output: one node per converted rule name. */
  type Graph = map<string, Node>

  /** The `ruleType` tag of a node; a `RuleRef` stands for the shared node of
      the rule it names and has no tag of its own. */
  function RuleType(n: Node): Option<string> {
    match n
    case Lex(_, _) => Some("lex")
    case Verified => Some("verified")
    case RuleRef(_) => None
    case Sequence(_, _) => Some(KindName(SequenceKind))
    case Either(_, _) => Some(KindName(EitherKind))
    case Repeat(_, rep, _, _) => Some(KindName(RepeatKind(rep)))
    case Optional(_, _) => Some(KindName(OptionalKind))
    case One(_, _) => Some(KindName(OneKind))
  }

  /** The `type` field of a node: the token name of a lex leaf, the rule name
      of a rule root, nothing for a verified marker or an anonymous tuple. */
  function TypeField(n: Node): Option<string> {
    match n
    case Lex(t, _) => Some(t)
    case Verified => None
    case RuleRef(_) => None
    case Sequence(name, _) => name
    case Either(name, _) => name
    case Repeat(name, _, _, _) => name
    case Optional(name, _) => name
    case One(name, _) => name
  }

  /** The rule names a node refers to (its outgoing sharing edges). */
  function NodeRefs(n: Node): set<string> {
    match n
    case Lex(_, _) => {}
    case Verified => {}
    case RuleRef(t) => {t}
    case Sequence(_, items) => NodeRefsList(items)
    case Either(_, alts) => NodeRefsList(alts)
    case Repeat(_, _, sub, dl) =>
      NodeRefs(sub) + (match dl case None => {} case Some(d) => NodeRefs(d))
    case Optional(_, sub) => NodeRefs(sub)
    case One(_, sub) => NodeRefs(sub)
  }

  function NodeRefsList(ns: seq<Node>): set<string> {
    if ns == [] then {} else NodeRefsList(ns[..|ns| - 1]) + NodeRefs(ns[|ns| - 1])
  }

  /** Verified markers sit only as direct items of a sequence: `asItem` says
      whether `n` itself is such an item. */
  predicate Placed(n: Node, asItem: bool) {
    match n
    case Lex(_, _) => true
    case Verified => asItem
    case RuleRef(_) => true
    case Sequence(_, items) => forall i | 0 <= i < |items| :: Placed(items[i], true)
    case Either(_, alts) => forall i | 0 <= i < |alts| :: Placed(alts[i], false)
    case Repeat(_, _, sub, dl) =>
      Placed(sub, false) && (match dl case None => true case Some(d) => Placed(d, false))
    case Optional(_, sub) => Placed(sub, false)
    case One(_, sub) => Placed(sub, false)
  }

  /** One step of a property path as a consumer writes it on the shared
      objects: `.subRule[i]` on a sequence or either, `.subRule` on a
      single-payload node. */
  datatype Step = At(i: nat) | Sub

  /** The shared node a reference stands for. */
  function Expand(graph: Graph, n: Node): Node {
    if n.RuleRef? && n.target in graph then graph[n.target] else n
  }

  /** Follows a path from `n`, looking through rule references at every step
      as a consumer of the shared objects would. */
  function Follow(graph: Graph, n: Node, path: seq<Step>): Option<Node>
    decreases |path|
  {
    var m := Expand(graph, n);
    if path == [] then Some(m)
    else
      match (m, path[0])
      case (Sequence(_, items), At(i)) =>
        if i < |items| then Follow(graph, items[i], path[1..]) else None
      case (Either(_, alts), At(i)) =>
        if i < |alts| then Follow(graph, alts[i], path[1..]) else None
      case (Repeat(_, _, sub, _), Sub) => Follow(graph, sub, path[1..])
      case (Optional(_, sub), Sub) => Follow(graph, sub, path[1..])
      case (One(_, sub), Sub) => Follow(graph, sub, path[1..])
      case _ => None
  }
}
