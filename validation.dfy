/**
 The field validator of the checkout contact form: a pure predicate over a field's
 value and its (optional) rule set { required, minLength, maxLength }.

 The rule keys keep JavaScript truthiness: a key that is absent, `false` or `0` is
 skipped. `required` is tested on the trimmed value, the two bounds on the raw length.
 */
module Validation {

  import opened Wrappers

  /** The code points that ECMAScript's String.prototype.trim strips: the WhiteSpace
      and LineTerminator productions (tab, VT, FF, space, NBSP, ZWNBSP, the Unicode
      space separators, LF, CR, LS, PS). */
  predicate IsWhitespace(c: char) {
    || c == '\t' || c == '\n' || c == '\U{000B}' || c == '\U{000C}' || c == '\r'
    || c == ' ' || c == '\U{00A0}' || c == '\U{1680}'
    || ('\U{2000}' <= c <= '\U{200A}')
    || c == '\U{2028}' || c == '\U{2029}' || c == '\U{202F}' || c == '\U{205F}'
    || c == '\U{3000}' || c == '\U{FEFF}'
  }

  /** A string made of whitespace only (the empty string included). */
  predicate IsBlank(s: string) {
    forall i :: 0 <= i < |s| ==> IsWhitespace(s[i])
  }

  /** Strips leading whitespace: the result is the suffix of `s` that starts at its
      first non-whitespace character. */
  function TrimStart(s: string): (r: string)
    ensures |r| <= |s| && r == s[|s| - |r|..]
    ensures forall i :: 0 <= i < |s| - |r| ==> IsWhitespace(s[i])
    ensures r != [] ==> !IsWhitespace(r[0])
    decreases |s|
  {
    if s != [] && IsWhitespace(s[0]) then TrimStart(s[1..]) else s
  }

  /** Strips trailing whitespace: the result is the prefix of `s` that ends at its
      last non-whitespace character. */
  function TrimEnd(s: string): (r: string)
    ensures |r| <= |s| && r == s[..|r|]
    ensures forall i :: |r| <= i < |s| ==> IsWhitespace(s[i])
    ensures r != [] ==> !IsWhitespace(r[|r| - 1])
    decreases |s|
  {
    if s != [] && IsWhitespace(s[|s| - 1]) then TrimEnd(s[..|s| - 1]) else s
  }

  /** Stripping both ends leaves nothing exactly when the string is blank. */
  lemma StripsEmptyIffBlank(s: string)
    ensures TrimEnd(TrimStart(s)) == [] <==> IsBlank(s)
  {
    var t := TrimStart(s);
    if TrimEnd(t) != [] {
      assert TrimEnd(t)[0] == s[|s| - |t|];
    }
  }

  /** `r` is the slice of `s` at `i`, and everything before and after it is whitespace. */
  predicate BlankAround(s: string, i: nat, r: string) {
    && i + |r| <= |s| && r == s[i..i + |r|]
    && (forall k :: 0 <= k < i ==> IsWhitespace(s[k]))
    && (forall k :: i + |r| <= k < |s| ==> IsWhitespace(s[k]))
  }

  /** A prefix `r` of a suffix `t` of `s` is the slice of `s` where `t` starts, and what
      lies between the end of `r` and the end of `s` is what `t` loses after `r`. */
  lemma PrefixOfSuffix(s: string, t: string, r: string)
    requires |t| <= |s| && t == s[|s| - |t|..]
    requires |r| <= |t| && r == t[..|r|]
    ensures r == s[|s| - |t|..|s| - |t| + |r|]
    ensures forall k :: |s| - |t| + |r| <= k < |s| ==> s[k] == t[k - (|s| - |t|)]
  {
  }

  /** Stripping both ends keeps a slice of `s` with whitespace all around it, which
      starts and ends with a non-whitespace character when it is not empty. */
  lemma StripsAround(s: string)
    ensures BlankAround(s, |s| - |TrimStart(s)|, TrimEnd(TrimStart(s)))
    ensures var r := TrimEnd(TrimStart(s)); r != [] ==> !IsWhitespace(r[0]) && !IsWhitespace(r[|r| - 1])
  {
    var t := TrimStart(s);
    var r := TrimEnd(t);
    PrefixOfSuffix(s, t, r);
    assert r != [] ==> r[0] == t[0];
  }

  /** String.prototype.trim: the slice of `s` from its first to its last non-whitespace
      character, everything around it whitespace; empty exactly when `s` is blank. */
  function Trim(s: string): (r: string)
    ensures exists i: nat :: BlankAround(s, i, r)
    ensures r != [] ==> !IsWhitespace(r[0]) && !IsWhitespace(r[|r| - 1])
    ensures r == [] <==> IsBlank(s)
  {
    StripsEmptyIffBlank(s);
    StripsAround(s);
    TrimEnd(TrimStart(s))
  }

  /** The rule set of a field, one optional key per rule. */
  datatype Rules = Rules(required: Option<bool>, minLength: Option<int>, maxLength: Option<int>)

  /** JavaScript truthiness of an optional number key: absent and 0 are falsy. */
  predicate BoundSet(b: Option<int>) {
    b.Some? && b.value != 0
  }

  /** The three checks, in the order the validator runs them. */
  datatype Check = Required | MinLength | MaxLength

  /** Whether the check's rule key is truthy, so that the check is run at all. */
  predicate Applies(c: Check, rules: Rules) {
    match c
    case Required => rules.required == Some(true)
    case MinLength => BoundSet(rules.minLength)
    case MaxLength => BoundSet(rules.maxLength)
  }

  /** The condition a check tests when it is run. */
  predicate Condition(c: Check, value: string, rules: Rules)
    requires Applies(c, rules)
  {
    match c
    case Required => Trim(value) != []
    case MinLength => |value| >= rules.minLength.value
    case MaxLength => |value| <= rules.maxLength.value
  }

  /** One `if (rules.key) { isValid = condition && isValid; }` step. */
  function Step(c: Check, value: string, rules: Rules, isValid: bool): bool {
    if Applies(c, rules) then Condition(c, value, rules) && isValid else isValid
  }

  /** What a check demands of the value, stated without trimming: a check whose key
      is falsy demands nothing. */
  predicate Passes(c: Check, value: string, rules: Rules) {
    match c
    case Required => rules.required == Some(true) ==> !IsBlank(value)
    case MinLength => BoundSet(rules.minLength) ==> |value| >= rules.minLength.value
    case MaxLength => BoundSet(rules.maxLength) ==> |value| <= rules.maxLength.value
  }

  /** checkValidity(value, rules): the three steps run in the source's order, starting
      from `true`. The result is true exactly when every applicable check passes. */
  function CheckValidity(value: string, rules: Rules): (r: bool)
    ensures r <==>
              && (rules.required == Some(true) ==> !IsBlank(value))
              && (BoundSet(rules.minLength) ==> |value| >= rules.minLength.value)
              && (BoundSet(rules.maxLength) ==> |value| <= rules.maxLength.value)
  {
    Step(MaxLength, value, rules, Step(MinLength, value, rules, Step(Required, value, rules, true)))
  }

  /** Runs the given checks in the given order, threading `isValid` through them. */
  function RunChecks(cs: seq<Check>, value: string, rules: Rules, isValid: bool): bool
    decreases |cs|
  {
    if cs == [] then isValid else RunChecks(cs[1..], value, rules, Step(cs[0], value, rules, isValid))
  }

  /** Running any sequence of checks yields the conjunction of the starting flag and
      of what each check in the sequence demands. */
  lemma {:induction false} RunChecksConjunction(cs: seq<Check>, value: string, rules: Rules, isValid: bool)
    ensures RunChecks(cs, value, rules, isValid)
        <==> isValid && forall i :: 0 <= i < |cs| ==> Passes(cs[i], value, rules)
  {
    if cs != [] {
      var next := Step(cs[0], value, rules, isValid);
      RunChecksConjunction(cs[1..], value, rules, next);
      assert next <==> isValid && Passes(cs[0], value, rules);
      assert forall i :: 1 <= i < |cs| ==> cs[i] == cs[1..][i - 1];
    }
  }

  /** The result does not depend on the order in which the checks are run, nor on a
      check being run twice: any sequence that runs each of the three checks at least
      once agrees with the validator. */
  lemma ChecksInAnyOrder(cs: seq<Check>, value: string, rules: Rules)
    requires Required in cs && MinLength in cs && MaxLength in cs
    ensures RunChecks(cs, value, rules, true) == CheckValidity(value, rules)
  {
    RunChecksConjunction(cs, value, rules, true);
    var definitions := [Required, MinLength, MaxLength];
    RunChecksConjunction(definitions, value, rules, true);
    assert RunChecks(definitions, value, rules, true) == CheckValidity(value, rules);
  }

  /** A rule set with no truthy key accepts every string. */
  lemma NoRulesAlwaysValid(value: string, rules: Rules)
    requires rules.required != Some(true) && !BoundSet(rules.minLength) && !BoundSet(rules.maxLength)
    ensures CheckValidity(value, rules)
  {
  }

  /** With `required` truthy, an empty or all-whitespace value is invalid whatever
      the bounds are. */
  lemma RequiredRejectsBlank(value: string, rules: Rules)
    requires rules.required == Some(true) && IsBlank(value)
    ensures !CheckValidity(value, rules)
  {
  }

  /** A truthy minLength rejects a shorter value; a truthy maxLength rejects a longer one. */
  lemma BoundsRejectOutOfRange(value: string, rules: Rules)
    ensures BoundSet(rules.minLength) && |value| < rules.minLength.value ==> !CheckValidity(value, rules)
    ensures BoundSet(rules.maxLength) && |value| > rules.maxLength.value ==> !CheckValidity(value, rules)
  {
  }

  /** A zero bound is falsy and so is ignored: it behaves as an absent key. */
  lemma ZeroBoundIgnored(value: string, rules: Rules)
    ensures CheckValidity(value, rules.(minLength := Some(0))) == CheckValidity(value, rules.(minLength := None))
    ensures CheckValidity(value, rules.(maxLength := Some(0))) == CheckValidity(value, rules.(maxLength := None))
  {
  }

  /** The rule set of the required text fields (name, street, country, email). */
  function RequiredRules(): Rules {
    Rules(Some(true), None, None)
  }

  /** The rule set of the zipCode field: required, exactly five characters. */
  function ZipCodeRules(): Rules {
    Rules(Some(true), Some(5), Some(5))
  }

  /** A zip code is valid exactly when it is five characters long and not all whitespace. */
  lemma ZipCodeValidity(value: string)
    ensures CheckValidity(value, ZipCodeRules()) <==> |value| == 5 && !IsBlank(value)
  {
  }

  /** Concrete zip codes: four and six digits fail, five digits pass, five spaces fail. */
  lemma ZipCodeExamples()
    ensures !CheckValidity("1234", ZipCodeRules())
    ensures CheckValidity("12345", ZipCodeRules())
    ensures !CheckValidity("123456", ZipCodeRules())
    ensures !CheckValidity("     ", ZipCodeRules())
  {
    assert !IsWhitespace("12345"[0]);
    assert IsBlank("     ");
  }

}
