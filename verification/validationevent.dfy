/**
 * The backend-independent part of a validation event (CsValidationEvent): the emptiness
 * test, the required check and the four-branch custom-rule dispatch. Every operation that
 * can set an Item's validation message returns a Verdict: whether there was an error, and
 * the message the Item holds afterwards.
 */
module ValidationEvent {
  import opened Wrappers
  import opened Values
  import opened Rules
  import opened Items
  import opened CustomRules

  datatype Verdict = Verdict(hasError: bool, message: string)

  /** `isEmpty`: undefined, null, the empty string, or an array of length zero. */
  predicate IsEmpty(v: Value)
  {
    v.Undefined? || v.Null? || v == Str("") || v == Arr([])
  }

  /** Every non-empty string and every non-empty array is non-empty; so are numbers and booleans, even 0 and false. */
  lemma IsEmptyExactly(v: Value)
    ensures IsEmpty(v) <==> (v.Undefined? || v.Null? || (v.Str? && |v.s| == 0) || (v.Arr? && |v.elems| == 0))
    ensures IsEmpty(Num(0)) == false && IsEmpty(Bool(false)) == false
  {
  }

  /** `doRequiredCheckHasError`: an error exactly when the rule is required and the value is empty. */
  function RequiredCheckHasError(v: Value, item: Item): (r: bool)
    ensures r ==> item.rule.Some? && item.rule.value.required
    ensures IsRequired(item.rule) ==> (r <==> IsEmpty(v))
    ensures !IsRequired(item.rule) ==> !r
  {
    IsRequired(item.rule) && IsEmpty(v)
  }

  /** The diagnostic suffix shared by the three misconfiguration messages. */
  function RuleSuffix(name: string): string {
    "ルール：[" + name + "]"
  }

  function NoRulesMessage(name: string): string {
    "カスタムルールの定義(customValidationRules)が指定されていないのに、カスタムバリデーションルールが指定されています。" + RuleSuffix(name)
  }

  function NotRegisteredMessage(name: string): string {
    "カスタムバリデーションルールが登録されていません。" + RuleSuffix(name)
  }

  function NotApplicableMessage(name: string): string {
    "この項目には使用できないカスタムバリデーションルールです。" + RuleSuffix(name)
  }

  /** A custom rule name counts only when it is truthy, that is present and non-empty. */
  predicate HasCustomRuleName(item: Item) {
    var name := CustomRuleNameOf(item.rule);
    name.Some? && name.value != ""
  }

  /**
   * `doCustomValidateItemHasError`: the strict four-branch dispatch. No name: no error and
   * the message is untouched. Name but no rule map, name not in the map, or a value the
   * rule's guard rejects: an error with the matching diagnostic, and the validator is not
   * consulted. Otherwise the validator decides: pass clears the message, fail sets the
   * rule's message.
   */
  function CustomValidateItemHasError(rules: Option<map<string, CustomRule>>, v: Value, item: Item): (r: Verdict)
    ensures !HasCustomRuleName(item) ==> r == Verdict(false, item.message)
    ensures HasCustomRuleName(item) && rules.None? ==>
              r == Verdict(true, NoRulesMessage(CustomRuleNameOf(item.rule).value))
    ensures HasCustomRuleName(item) && rules.Some? && CustomRuleNameOf(item.rule).value !in rules.value ==>
              r == Verdict(true, NotRegisteredMessage(CustomRuleNameOf(item.rule).value))
    ensures HasCustomRuleName(item) && rules.Some? && CustomRuleNameOf(item.rule).value in rules.value ==>
              var rule := rules.value[CustomRuleNameOf(item.rule).value];
              && (!CanApplyValue(rule, v) ==> r == Verdict(true, NotApplicableMessage(CustomRuleNameOf(item.rule).value)))
              && (CanApplyValue(rule, v) && rule.validator(v, item) ==> r == Verdict(false, ""))
              && (CanApplyValue(rule, v) && !rule.validator(v, item) ==>
                    r == Verdict(true, FailureMessage(rule, item.labelText, v, item)))
  {
    if !HasCustomRuleName(item) then Verdict(false, item.message)
    else
      var name := CustomRuleNameOf(item.rule).value;
      if rules.None? then Verdict(true, NoRulesMessage(name))
      else if name !in rules.value then Verdict(true, NotRegisteredMessage(name))
      else
        var rule := rules.value[name];
        if !CanApplyValue(rule, v) then Verdict(true, NotApplicableMessage(name))
        else if rule.validator(v, item) then Verdict(false, "")
        else Verdict(true, FailureMessage(rule, item.labelText, v, item))
  }

  /** Every misconfiguration diagnostic names the offending rule at its end. */
  lemma MisconfigurationMessagesNameTheRule(rules: Option<map<string, CustomRule>>, v: Value, item: Item)
    requires HasCustomRuleName(item)
    requires var name := CustomRuleNameOf(item.rule).value;
             rules.None? || name !in rules.value || !CanApplyValue(rules.value[name], v)
    ensures var r := CustomValidateItemHasError(rules, v, item);
            var suffix := RuleSuffix(CustomRuleNameOf(item.rule).value);
            && r.hasError
            && |suffix| <= |r.message|
            && r.message[|r.message| - |suffix|..] == suffix
  {
  }

  /**
   * When the guard rejects the value, the validator is never consulted: swapping the
   * validator (and the message) of the registered rule does not change the verdict.
   */
  lemma InapplicableRuleIgnoresValidator(rules: map<string, CustomRule>, v: Value, item: Item,
                                         other: (Value, Item) -> bool, otherMessage: Message)
    requires HasCustomRuleName(item)
    requires CustomRuleNameOf(item.rule).value in rules
    requires !CanApplyValue(rules[CustomRuleNameOf(item.rule).value], v)
    ensures var name := CustomRuleNameOf(item.rule).value;
            var swapped := rules[name := rules[name].(validator := other, message := otherMessage)];
            CustomValidateItemHasError(Some(swapped), v, item) == CustomValidateItemHasError(Some(rules), v, item)
  {
  }

  /** A verdict of the custom dispatch without an error leaves the message either cleared or untouched. */
  lemma CustomPassClearsOrKeeps(rules: Option<map<string, CustomRule>>, v: Value, item: Item)
    ensures var r := CustomValidateItemHasError(rules, v, item);
            !r.hasError ==> (r.message == "" || r.message == item.message)
  {
  }
}
