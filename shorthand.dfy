/** The authoring-time grammar description handed to the converter: a lexical
    table (only token names matter to conversion) and a table of parse rules
    written in shorthand. */
module Shorthand {

  datatype Option<T> = None | Some(value: T)

  /** One parse-rule definition as a grammar author writes it.
      - `Ref(s)`: a reference string, `"type"` or `"type:value"`.
      - `Tuple(kind, payload, delim)`: a tagged array `[kind, payload]` or
        `[kind, payload, delimiter]`.
      - `List(items)`: an untagged array, as in the payload of a sequence. */
  datatype RawDef =
    | Ref(ref: string)
    | Tuple(kind: string, payload: RawDef, delim: Option<RawDef>)
    | List(items: seq<RawDef>)

  /** `lex` lists the token names of the lexical table in order (a name may
      repeat); `rules` maps parse-rule names to their definitions. */
  datatype Grammar = Grammar(lex: seq<string>, rules: map<string, RawDef>)

  /** The tuple kinds the converter recognises. */
  datatype Repetition = Many | OnePlus | ZeroPlus
  datatype Kind = SequenceKind | EitherKind | RepeatKind(rep: Repetition) | OptionalKind | OneKind

  function KindName(k: Kind): string {
    match k
    case SequenceKind => "sequence"
    case EitherKind => "either"
    case RepeatKind(Many) => "many"
    case RepeatKind(OnePlus) => "one_plus"
    case RepeatKind(ZeroPlus) => "zero_plus"
    case OptionalKind => "optional"
    case OneKind => "one"
  }

  /** Recognises a tuple's kind string; `None` for anything else. */
  function ParseKind(s: string): (k: Option<Kind>)
    ensures k.Some? ==> KindName(k.value) == s
  {
    if s == "sequence" then Some(SequenceKind)
    else if s == "either" then Some(EitherKind)
    else if s == "many" then Some(RepeatKind(Many))
    else if s == "one_plus" then Some(RepeatKind(OnePlus))
    else if s == "zero_plus" then Some(RepeatKind(ZeroPlus))
    else if s == "optional" then Some(OptionalKind)
    else if s == "one" then Some(OneKind)
    else None
  }

  /** Every kind is recognised under its own name, so the two functions are
      inverse on the seven kinds. */
  lemma KindNameParses(k: Kind)
    ensures ParseKind(KindName(k)) == Some(k)
  {
  }

  /** The names of the three repetition kinds as a grammar spells them. */
  lemma RepeatKindNames()
    ensures KindName(RepeatKind(Many)) == "many" && KindName(RepeatKind(OnePlus)) == "one_plus"
    ensures KindName(RepeatKind(ZeroPlus)) == "zero_plus"
  {
  }

  /** A reference string split into its type name and optional literal value. */
  datatype RefParts = RefParts(typeName: string, value: Option<string>)

  function JoinRef(p: RefParts): string {
    match p.value
    case None => p.typeName
    case Some(v) => p.typeName + ":" + v
  }

  /** A string holding a colon has a first one. */
  lemma {:induction false} FirstColonExists(s: string)
    requires ':' in s
    ensures exists k :: 0 <= k < |s| && s[k] == ':' && ':' !in s[..k]
  {
    if s[0] == ':' {
      assert s[..0] == [];
    } else {
      FirstColonExists(s[1..]);
      var k :| 0 <= k < |s[1..]| && s[1..][k] == ':' && ':' !in s[1..][..k];
      assert s[..k + 1] == [s[0]] + s[1..][..k];
    }
  }

  /** Splits a reference at its FIRST colon: the type name is the text before
      it, the value the (possibly empty) text after it; without a colon there
      is no value. */
  function SplitRef(s: string): (p: RefParts)
    ensures ':' !in p.typeName
    ensures p.value.None? <==> ':' !in s
    ensures JoinRef(p) == s
  {
    if ':' in s then
      FirstColonExists(s);
      var k :| 0 <= k < |s| && s[k] == ':' && ':' !in s[..k];
      assert s == s[..k] + ":" + s[k + 1..];
      RefParts(s[..k], Some(s[k + 1..]))
    else RefParts(s, None)
  }

  /** Splitting undoes joining whenever the type name has no colon of its
      own: the first colon of the joined string is the one joining added. */
  lemma SplitJoin(p: RefParts)
    requires ':' !in p.typeName
    ensures SplitRef(JoinRef(p)) == p
  {
    if p.value.Some? {
      var t, v := p.typeName, p.value.value;
      var s := JoinRef(p);
      var k := |SplitRef(s).typeName|;
      assert s == t + ":" + v && s[|t|] == ':';
      assert SplitRef(s).typeName == s[..k] && s[k] == ':';
      // the first colon is neither before nor after the joining one
      assert k <= |t| by {
        if k > |t| { assert false; }
      }
      assert k >= |t| by {
        if k < |t| { assert false; }
      }
    }
  }


  /** A structural size for termination arguments. */
  function Size(d: RawDef): (n: nat)
    ensures n >= 1
  {
    match d
    case Ref(_) => 1
    case List(items) => 1 + SizeList(items)
    case Tuple(_, p, dl) => 1 + Size(p) + (match dl case None => 0 case Some(x) => Size(x))
  }

  function SizeList(items: seq<RawDef>): nat {
    if items == [] then 0 else SizeList(items[..|items| - 1]) + Size(items[|items| - 1])
  }

  lemma {:induction false} SizeListBounds(items: seq<RawDef>, i: nat)
    requires i < |items|
    ensures Size(items[i]) <= SizeList(items)
  {
    if i < |items| - 1 {
      var front := items[..|items| - 1];
      SizeListBounds(front, i);
      assert front[i] == items[i];
    }
  }

  /** A definition as it appears in the source tables, before it is read:
      a string or an array of such values. */
  datatype Literal = Str(text: string) | Arr(elems: seq<Literal>)

  /** An array is a tagged tuple when it has two or three elements and its
      first element is the name of a recognised kind; any other array is an
      untagged list, whose elements are read one by one. */
  predicate IsTagged(es: seq<Literal>) {
    2 <= |es| <= 3 && es[0].Str? && ParseKind(es[0].text).Some?
  }

  /** Reads a definition of the source tables into its shorthand form. */
  function Classify(v: Literal): (d: RawDef)
    ensures v.Str? <==> d.Ref?
    ensures v.Arr? && IsTagged(v.elems) <==> d.Tuple?
    ensures d.Tuple? ==> ParseKind(d.kind).Some?
    ensures d.List? ==> |d.items| == |v.elems|
    decreases v, 1
  {
    match v
    case Str(s) => Ref(s)
    case Arr(es) =>
      if IsTagged(es) then
        Tuple(es[0].text, Classify(es[1]), if |es| == 3 then Some(Classify(es[2])) else None)
      else List(ClassifyAll(es))
  }

  function ClassifyAll(es: seq<Literal>): (ds: seq<RawDef>)
    ensures |ds| == |es|
    decreases es, 0
  {
    if es == [] then [] else ClassifyAll(es[..|es| - 1]) + [Classify(es[|es| - 1])]
  }

  /** Writes a shorthand definition back as a literal of the tables. */
  function Unclassify(d: RawDef): Literal {
    match d
    case Ref(s) => Str(s)
    case Tuple(kind, p, dl) =>
      Arr([Str(kind), Unclassify(p)] + (match dl case None => [] case Some(x) => [Unclassify(x)]))
    case List(items) => Arr(UnclassifyAll(items))
  }

  function UnclassifyAll(ds: seq<RawDef>): seq<Literal> {
    if ds == [] then [] else UnclassifyAll(ds[..|ds| - 1]) + [Unclassify(ds[|ds| - 1])]
  }

  /** Reading loses nothing: writing a read definition back gives the
      literal it was read from. */
  lemma {:induction false} ClassifyRoundTrip(v: Literal)
    ensures Unclassify(Classify(v)) == v
    decreases v, 1
  {
    match v
    case Str(_) =>
    case Arr(es) =>
      if IsTagged(es) {
        ClassifyRoundTrip(es[1]);
        if |es| == 3 {
          ClassifyRoundTrip(es[2]);
          assert es == [es[0], es[1]] + [es[2]];
        } else {
          assert es == [es[0], es[1]];
        }
      } else {
        ClassifyAllRoundTrip(es);
      }
  }

  lemma {:induction false} ClassifyAllRoundTrip(es: seq<Literal>)
    ensures UnclassifyAll(ClassifyAll(es)) == es
    decreases es, 0
  {
    if es != [] {
      var front := es[..|es| - 1];
      ClassifyAllRoundTrip(front);
      ClassifyRoundTrip(es[|es| - 1]);
      assert ClassifyAll(es)[..|es| - 1] == ClassifyAll(front);
      assert front + [es[|es| - 1]] == es;
    }
  }

  /** An array not headed by a kind name, such as a list of two references,
      is read as an untagged list of its elements, each read on its own. */
  lemma UntaggedArray(es: seq<Literal>, i: nat)
    requires !IsTagged(es) && i < |es|
    ensures Classify(Arr(es)).List? && Classify(Arr(es)).items[i] == Classify(es[i])
  {
    ClassifyAllAt(es, i);
  }

  lemma {:induction false} ClassifyAllAt(es: seq<Literal>, i: nat)
    requires i < |es|
    ensures ClassifyAll(es)[i] == Classify(es[i])
    decreases es
  {
    if i < |es| - 1 {
      var front := es[..|es| - 1];
      ClassifyAllAt(front, i);
      assert ClassifyAll(es)[i] == ClassifyAll(front)[i];
    }
  }
}
