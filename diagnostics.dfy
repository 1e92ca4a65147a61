/** The diagnostics a conversion can fail with. Each embeds the offending
    rule name or reference string so that an author can locate the defect. */
module Diagnostics {

  datatype Error =
    /** A `type:value` reference whose type names neither a token nor a rule. */
    | LookupFailed(typeName: string, ref: string)
    /** Rule `referrer` refers to `target`, which no table defines. */
    | UndeterminedRuleType(referrer: string, target: string)
    /** An untagged array where a tagged rule or a reference was required. */
    | AmbiguousArray(rule: string)
    /** A tuple whose kind is not one of the recognised kinds. */
    | UnsupportedRuleType(rule: string, kind: string)
    /** A `VERIFIED` marker anywhere but as an item of a sequence. */
    | MisplacedVerified(rule: string)
    /** A `name:value` reference whose name is a parse rule. */
    | ValueOnRule(rule: string, ref: string)
    /** A sequence or either whose payload is not a list. */
    | PayloadNotList(rule: string, kind: string)
    /** The parse table has no `main` rule to start from. */
    | MissingRoot

  /** Failure-compatible result, so that conversions can be chained with `:-`. */
  datatype Result<T> = Ok(value: T) | Err(error: Error) {
    predicate IsFailure() { Err? }
    function PropagateFailure<U>(): Result<U> requires Err? { Err(error) }
    function Extract(): T requires Ok? { value }
  }

  function Message(e: Error): string {
    match e
    case LookupFailed(t, ref) =>
      "Failed to lookup rule " + t + " from type:value pair \"" + ref + "\""
    case UndeterminedRuleType(referrer, target) =>
      "Rule " + referrer + " has a reference whose " + "rule type" + (" could not be determined: " + target)
    case AmbiguousArray(rule) =>
      "Found an " + "array" + " where a tagged rule was expected, " + "should have used a string"
      + (" reference or a tagged tuple (in rule " + rule + ")")
    case UnsupportedRuleType(rule, kind) =>
      "Unsupported rule type \"" + kind + "\" in rule " + rule
    case MisplacedVerified(rule) =>
      "VERIFIED may only be an item of a sequence (in rule " + rule + ")"
    case ValueOnRule(rule, ref) =>
      "Rule " + rule + " gives a value to the parse rule reference \"" + ref + "\""
    case PayloadNotList(rule, kind) =>
      "Rule " + rule + " uses " + kind + " without a list of sub rules"
    case MissingRoot =>
      "The parse table has no main rule"
  }

  /** `s` matches the regular expression `a.+b`: `a`, then at least one
      character other than a line break, then `b`. */
  ghost predicate MatchesInOrder(s: string, a: string, b: string) {
    exists pre, mid, post :: s == pre + a + mid + b + post && |mid| > 0 && '\n' !in mid
  }

  /** The undetermined-rule-type message names the referencing rule and then
      the phrase "rule type". */
  lemma UndeterminedNamesReferrer(referrer: string, target: string)
    ensures MatchesInOrder(Message(UndeterminedRuleType(referrer, target)), referrer, "rule type")
  {
    var mid := " has a reference whose ";
    assert '\n' !in mid;
    assert Message(UndeterminedRuleType(referrer, target))
        == "Rule " + referrer + mid + "rule type" + (" could not be determined: " + target);
  }

  /** The bare-array message says that an array was found and that a string
      should have been used. */
  lemma ArrayMessageExplains(rule: string)
    ensures MatchesInOrder(Message(AmbiguousArray(rule)), "array", "should have used a string")
  {
    var mid := " where a tagged rule was expected, ";
    var post := " reference or a tagged tuple (in rule " + rule + ")";
    assert '\n' !in mid;
    var m := Message(AmbiguousArray(rule));
    assert m == "Found an " + "array" + mid + "should have used a string" + post;
    assert m == "Found an " + "array" + mid + "should have used a string" + post && |mid| > 0 && '\n' !in mid;
  }
}
