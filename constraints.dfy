/**
 * The subset of go-playground's struct validation that the core's `validate` tags use on
 * string fields: `required`, `min=<n>` and `max=<n>`. Lengths are counted in characters
 * (runes), as go-playground counts them for strings. The tags of one field are checked in
 * order and only the first one that fails is reported for that field.
 */
module Constraints {
  import opened Wrappers
  import Strconv

  /** One tag of a string field's `validate` list. */
  datatype Rule = Required | Min(n: nat) | Max(n: nat)

  /** One entry of go-playground's ValidationErrors: `Field()`, `Tag()` and `Param()`. */
  datatype FieldError = FieldError(field: string, tag: string, param: string)

  function TagName(rule: Rule): string {
    match rule
    case Required => "required"
    case Min(_) => "min"
    case Max(_) => "max"
  }

  /** The text after `=` in the tag, e.g. "3" for `min=3`. */
  function Param(rule: Rule): string {
    match rule
    case Required => ""
    case Min(n) => Strconv.Itoa(n)
    case Max(n) => Strconv.Itoa(n)
  }

  /** `required` on a string rejects only its zero value, the empty string. */
  predicate Holds(rule: Rule, s: string) {
    match rule
    case Required => |s| > 0
    case Min(n) => |s| >= n
    case Max(n) => |s| <= n
  }

  predicate Satisfies(s: string, rules: seq<Rule>) {
    forall i :: 0 <= i < |rules| ==> Holds(rules[i], s)
  }

  /** `required` on an unsigned integer rejects only its zero value. */
  predicate RequiredUint(n: Strconv.UInt64) {
    n != 0
  }

  /** The error go-playground reports for one field, if any: the first of its rules that fails. */
  function FirstFailure(field: string, rules: seq<Rule>, s: string): (r: Option<FieldError>)
    ensures r.None? <==> Satisfies(s, rules)
    ensures r.Some? ==> (exists i :: 0 <= i < |rules| && !Holds(rules[i], s)
                          && (forall j :: 0 <= j < i ==> Holds(rules[j], s))
                          && r.value == FieldError(field, TagName(rules[i]), Param(rules[i])))
  {
    if rules == [] then None
    else if !Holds(rules[0], s) then Some(FieldError(field, TagName(rules[0]), Param(rules[0])))
    else
      var r := FirstFailure(field, rules[1..], s);
      assert forall j :: 1 <= j < |rules| ==> rules[j] == rules[1..][j - 1];
      r
  }

  /** The tag list `required,min=lo,max=hi` holds exactly for lengths in [max(lo,1), hi]. */
  lemma RequiredMinMax(s: string, lo: nat, hi: nat)
    ensures Satisfies(s, [Required, Min(lo), Max(hi)]) <==> |s| > 0 && lo <= |s| <= hi
  {
    var rules := [Required, Min(lo), Max(hi)];
    assert Satisfies(s, rules) ==> Holds(rules[0], s) && Holds(rules[1], s) && Holds(rules[2], s);
  }

  /** For `required,min=lo,max=hi` with 1 <= lo: which single error each length produces. */
  lemma RequiredMinMaxFailure(field: string, s: string, lo: nat, hi: nat)
    requires 1 <= lo
    ensures |s| == 0 ==> FirstFailure(field, [Required, Min(lo), Max(hi)], s) == Some(FieldError(field, "required", ""))
    ensures 0 < |s| < lo ==> FirstFailure(field, [Required, Min(lo), Max(hi)], s) == Some(FieldError(field, "min", Strconv.Itoa(lo)))
    ensures lo <= |s| && hi < |s| ==> FirstFailure(field, [Required, Min(lo), Max(hi)], s) == Some(FieldError(field, "max", Strconv.Itoa(hi)))
  {
    var rules := [Required, Min(lo), Max(hi)];
    assert rules[1..] == [Min(lo), Max(hi)];
    assert rules[1..][1..] == [Max(hi)];
    assert rules[1..][1..][1..] == [];
    if lo <= |s| && hi < |s| {
      assert FirstFailure(field, rules[1..][1..], s) == Some(FieldError(field, "max", Strconv.Itoa(hi)));
    }
  }
}
