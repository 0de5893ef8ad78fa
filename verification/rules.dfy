/**
 * The declarative ValidationRule hierarchy: one constructor per value shape, with the
 * fluent setters as pure updates. CsItem.ts, which declares these classes, is not part of
 * this model; the setters follow the behaviour its tests pin down.
 */
module Rules {
  import opened Wrappers

  /** JavaScript's Number.MAX_SAFE_INTEGER, the sentinel the range setters fill in. */
  const MAX_SAFE_INTEGER: int := 9007199254740991

  datatype Rule =
    | StringRule(required: bool, min: Option<int>, max: Option<int>, email: bool,
                 regExp: Option<string>, customRuleName: Option<string>)
    | NumberRule(required: bool, min: Option<int>, max: Option<int>, customRuleName: Option<string>)
    | StringArrayRule(required: bool, customRuleName: Option<string>)
    | NumberArrayRule(required: bool, customRuleName: Option<string>)
    | BooleanRule(required: bool, customRuleName: Option<string>)

  function NewStringRule(): Rule { StringRule(false, None, None, false, None, None) }
  function NewNumberRule(): Rule { NumberRule(false, None, None, None) }
  function NewStringArrayRule(): Rule { StringArrayRule(false, None) }
  function NewNumberArrayRule(): Rule { NumberArrayRule(false, None) }
  function NewBooleanRule(): Rule { BooleanRule(false, None) }

  /** `validationRule?.required` on an item that may have no rule: a missing rule is not required. */
  predicate IsRequired(rule: Option<Rule>) {
    rule.Some? && rule.value.required
  }

  /** `validationRule?.customRuleName`. */
  function CustomRuleNameOf(rule: Option<Rule>): Option<string> {
    if rule.Some? then rule.value.customRuleName else None
  }

  function SetRequired(rule: Rule, required: bool): (r: Rule)
    ensures r.required == required
    ensures r.(required := rule.required) == rule
  {
    rule.(required := required)
  }

  function SetCustomRuleName(rule: Rule, name: string): (r: Rule)
    ensures r.customRuleName == Some(name)
    ensures r.(customRuleName := rule.customRuleName) == rule
  {
    rule.(customRuleName := Some(name))
  }

  /**
   * `setLength(min?, max?)` on a string rule: a missing maximum becomes MAX_SAFE_INTEGER,
   * a missing minimum becomes 0.
   */
  function SetLength(rule: Rule, min: Option<int>, max: Option<int>): (r: Rule)
    requires rule.StringRule?
    ensures r.StringRule?
    ensures min.Some? ==> r.min == min
    ensures min.None? ==> r.min == Some(0)
    ensures max.Some? ==> r.max == max
    ensures max.None? ==> r.max == Some(MAX_SAFE_INTEGER)
    ensures r.(min := rule.min, max := rule.max) == rule
  {
    StringRule(rule.required, Some(min.GetOr(0)), Some(max.GetOr(MAX_SAFE_INTEGER)),
               rule.email, rule.regExp, rule.customRuleName)
  }

  /**
   * `setRange(min?, max?)` on a number rule: EITHER missing bound becomes MAX_SAFE_INTEGER,
   * so a maximum-only range gets the sentinel as its minimum (unlike SetLength).
   */
  function SetRange(rule: Rule, min: Option<int>, max: Option<int>): (r: Rule)
    requires rule.NumberRule?
    ensures r.NumberRule?
    ensures min.Some? ==> r.min == min
    ensures min.None? ==> r.min == Some(MAX_SAFE_INTEGER)
    ensures max.Some? ==> r.max == max
    ensures max.None? ==> r.max == Some(MAX_SAFE_INTEGER)
    ensures r.(min := rule.min, max := rule.max) == rule
  {
    NumberRule(rule.required, Some(min.GetOr(MAX_SAFE_INTEGER)), Some(max.GetOr(MAX_SAFE_INTEGER)),
               rule.customRuleName)
  }

  function SetRegExp(rule: Rule, pattern: string): (r: Rule)
    requires rule.StringRule?
    ensures r.StringRule? && r.regExp == Some(pattern)
    ensures r.(regExp := rule.regExp) == rule
  {
    rule.(regExp := Some(pattern))
  }

  function SetEmail(rule: Rule, email: bool): (r: Rule)
    requires rule.StringRule?
    ensures r.StringRule? && r.email == email
    ensures r.(email := rule.email) == rule
  {
    rule.(email := email)
  }

  /**
   * The two range setters disagree when given only a maximum: the string-length rule gets
   * minimum 0, the number rule gets MAX_SAFE_INTEGER. Both behaviours are kept as observed.
   */
  lemma MaxOnlySentinelsDiffer(max: int)
    ensures SetLength(NewStringRule(), None, Some(max)).min == Some(0)
    ensures SetRange(NewNumberRule(), None, Some(max)).min == Some(MAX_SAFE_INTEGER)
    ensures SetLength(NewStringRule(), None, Some(max)).min != SetRange(NewNumberRule(), None, Some(max)).min
  {
  }
}
