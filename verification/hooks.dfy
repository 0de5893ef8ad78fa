/**
 * The construction helpers (CsHooks and CsHooksAdvanced): rule builders, option mappers,
 * the generic Item factory and the range and date Item factories. React state cells
 * become the initial value passed in.
 */
module Hooks {
  import opened Wrappers
  import opened Values
  import opened Rules
  import opened Items
  import opened RangeItems
  import opened ZodEvent
  import opened ZodSemantics

  // ---------------------------------------------------------------- rule builders

  /** A numeric argument the builders treat as given: present and non-zero. */
  predicate TruthyNumber(o: Option<int>) {
    o.Some? && o.value != 0
  }

  /** A custom rule name is attached only when it is a non-empty string. */
  function WithCustomRuleName(rule: Rule, name: Option<string>): (r: Rule)
    ensures name.Some? && name.value != "" ==> r.customRuleName == name
    ensures !(name.Some? && name.value != "") ==> r.customRuleName == rule.customRuleName
    ensures r.(customRuleName := rule.customRuleName) == rule
  {
    if name.Some? && name.value != "" then SetCustomRuleName(rule, name.value) else rule
  }

  /** The custom name a builder ends up with: the given one when non-empty, otherwise none. */
  function BuiltName(name: Option<string>): Option<string> {
    if name.Some? && name.value != "" then name else None
  }

  /** `stringRule(required, min?, max?, customRuleName?)`. */
  function MakeStringRule(required: bool, min: Option<int>, max: Option<int>, name: Option<string>): (r: Rule)
    ensures r.StringRule? && r.required == required && !r.email && r.regExp.None?
    ensures r.customRuleName == BuiltName(name)
    ensures !(TruthyNumber(min) || TruthyNumber(max)) ==> r.min.None? && r.max.None?
    ensures TruthyNumber(min) || TruthyNumber(max) ==>
              && (min.Some? ==> r.min == min) && (min.None? ==> r.min == Some(0))
              && (max.Some? ==> r.max == max) && (max.None? ==> r.max == Some(MAX_SAFE_INTEGER))
  {
    var rule := SetRequired(NewStringRule(), required);
    var sized := if TruthyNumber(min) || TruthyNumber(max) then SetLength(rule, min, max) else rule;
    WithCustomRuleName(sized, name)
  }

  /** `numberRule(required, min?, max?, customRuleName?)`. */
  function MakeNumberRule(required: bool, min: Option<int>, max: Option<int>, name: Option<string>): (r: Rule)
    ensures r.NumberRule? && r.required == required
    ensures r.customRuleName == BuiltName(name)
    ensures !(TruthyNumber(min) || TruthyNumber(max)) ==> r.min.None? && r.max.None?
    ensures TruthyNumber(min) || TruthyNumber(max) ==>
              && (min.Some? ==> r.min == min) && (min.None? ==> r.min == Some(MAX_SAFE_INTEGER))
              && (max.Some? ==> r.max == max) && (max.None? ==> r.max == Some(MAX_SAFE_INTEGER))
  {
    var rule := SetRequired(NewNumberRule(), required);
    var ranged := if TruthyNumber(min) || TruthyNumber(max) then SetRange(rule, min, max) else rule;
    WithCustomRuleName(ranged, name)
  }

  /** `stringArrayRule(required, customRuleName?)`: no bounds at all. */
  function MakeStringArrayRule(required: bool, name: Option<string>): (r: Rule)
    ensures r == StringArrayRule(required, BuiltName(name))
  {
    WithCustomRuleName(SetRequired(NewStringArrayRule(), required), name)
  }

  /** `numberArrayRule(required, customRuleName?)`. */
  function MakeNumberArrayRule(required: bool, name: Option<string>): (r: Rule)
    ensures r == NumberArrayRule(required, BuiltName(name))
  {
    WithCustomRuleName(SetRequired(NewNumberArrayRule(), required), name)
  }

  /** `booleanRule(required, customRuleName?)`. */
  function MakeBooleanRule(required: bool, name: Option<string>): (r: Rule)
    ensures r == BooleanRule(required, BuiltName(name))
  {
    WithCustomRuleName(SetRequired(NewBooleanRule(), required), name)
  }

  /**
   * Zero bounds are the same as no bounds, and a builder-made required string rule without
   * bounds rejects "" with the required message even before "" is read as missing.
   */
  lemma ZeroBoundsAreNoBounds(required: bool, name: Option<string>, labelText: string, isEmail: string -> bool)
    ensures MakeStringRule(required, Some(0), Some(0), name) == MakeStringRule(required, None, None, name)
    ensures MakeNumberRule(required, Some(0), None, name) == MakeNumberRule(required, None, None, name)
    ensures Parse(CreateStringConstraint(labelText, MakeStringRule(true, None, None, name)), Str(""), isEmail)
            == Some(RequiredMessage(labelText))
  {
  }

  /**
   * A number rule built with only a maximum carries the MAX_SAFE_INTEGER sentinel as its
   * minimum, so it rejects every smaller number, the maximum itself included when smaller.
   */
  lemma MaximumOnlyNumberRuleRejectsSmallerNumbers(required: bool, max: int, n: int, labelText: string,
                                                   isEmail: string -> bool)
    requires max != 0 && n < MAX_SAFE_INTEGER
    ensures Parse(CreateNumberConstraint(labelText, MakeNumberRule(required, None, Some(max), None)), Num(n), isEmail)
            == Some(TooSmallMessage(labelText, MAX_SAFE_INTEGER))
  {
    TooSmallReported(labelText, MakeNumberRule(required, None, Some(max), None), n, isEmail);
  }

  // ---------------------------------------------------------------- select options

  /** `selectOptions(options, valueKey = "value", labelKey = "label")`: the options are stored as given. */
  function MakeSelectOptions(options: seq<OptionRecord>, valueKey: Option<string>, labelKey: Option<string>): (r: SelectOptions)
    ensures r.options == options
    ensures r.valueKey == valueKey.GetOr("value") && r.labelKey == labelKey.GetOr("label")
  {
    SelectOptions(options, valueKey.GetOr("value"), labelKey.GetOr("label"))
  }

  /** The record `{ value: o, label: o }`. */
  function SelfLabelled(o: Value): OptionRecord {
    OptionRecord(map["value" := o, "label" := o])
  }

  /** `selectOptionStrings(options)`. */
  function SelectOptionStrings(options: seq<string>): (r: SelectOptions)
    ensures |r.options| == |options| && r.valueKey == "value" && r.labelKey == "label"
  {
    MakeSelectOptions(seq(|options|, i requires 0 <= i < |options| => SelfLabelled(Str(options[i]))), None, None)
  }

  /** `selectOptionNumbers(options)`. */
  function SelectOptionNumbers(options: seq<int>): (r: SelectOptions)
    ensures |r.options| == |options| && r.valueKey == "value" && r.labelKey == "label"
  {
    MakeSelectOptions(seq(|options|, i requires 0 <= i < |options| => SelfLabelled(Num(options[i]))), None, None)
  }

  /** Reading one field of every option, undefined where an option lacks it. */
  function OptionField(so: SelectOptions, field: string): (r: seq<Value>)
    ensures |r| == |so.options|
  {
    seq(|so.options|, i requires 0 <= i < |so.options| =>
      if field in so.options[i].fields then so.options[i].fields[field] else Undefined)
  }

  /** The mapped options give back the input, in order, both as values and as labels. */
  lemma SelectOptionStringsRoundTrip(options: seq<string>)
    ensures var so := SelectOptionStrings(options);
            && OptionField(so, so.valueKey) == seq(|options|, i requires 0 <= i < |options| => Str(options[i]))
            && OptionField(so, so.labelKey) == OptionField(so, so.valueKey)
  {
  }

  lemma SelectOptionNumbersRoundTrip(options: seq<int>)
    ensures var so := SelectOptionNumbers(options);
            && OptionField(so, so.valueKey) == seq(|options|, i requires 0 <= i < |options| => Num(options[i]))
            && OptionField(so, so.labelKey) == OptionField(so, so.valueKey)
  {
  }

  // ---------------------------------------------------------------- item factories

  /** The `RW` argument of the factories. */
  datatype RW = Readonly | Editable

  /** The readonly flag a factory sets: on exactly for `RW.Readonly`; a missing argument means Editable. */
  predicate ReadonlyFlag(rw: Option<RW>) {
    rw.GetOr(Editable) == Readonly
  }

  /**
   * `useCsItem`: a new Item of the given kind with its label, placeholder, initial value
   * and an empty message; the rule only when one is given, the options only on an
   * option-bearing Item.
   */
  function UseCsItem(kind: Kind, labelText: string, value: Value, rule: Option<Rule>, selOpt: Option<SelectOptions>,
                     rw: Option<RW>, placeholder: Option<string>): (r: Item)
    ensures r.kind == kind && r.labelText == labelText && r.value == value && r.placeholder == placeholder
    ensures r.message == "" && r.key.None? && r.parent.None?
    ensures r.rule == rule
    ensures r.options.Some? <==> selOpt.Some? && HasOptions(kind)
    ensures r.options.Some? ==> r.options == selOpt
    ensures r.readonly <==> rw == Some(Readonly)
    ensures r.lowerPlaceholder.None? && r.upperPlaceholder.None?
  {
    var item := NewItem(kind).(labelText := labelText, placeholder := placeholder, value := value, message := "");
    var withRule := if rule.Some? then item.(rule := rule) else item;
    var withOptions := if selOpt.Some? && HasOptions(kind) then withRule.(options := selOpt) else withRule;
    withOptions.(readonly := ReadonlyFlag(rw))
  }

  /** `useRangeInit(lower?, upper?)`: a pair, even of two undefined bounds. */
  function UseRangeInit(lower: Value, upper: Value): (v: Value)
    ensures LowerValue(v) == lower && UpperValue(v) == upper
  {
    SetRangeValue(lower, upper)
  }

  /** `useCsInputDateItem`: a string Item with no select options. */
  function UseCsInputDateItem(labelText: string, value: Value, rule: Rule, rw: Option<RW>, placeholder: Option<string>): (r: Item)
    requires rule.StringRule?
    ensures r.kind == StringItem && r.rule == Some(rule) && r.options.None?
    ensures r.readonly <==> rw == Some(Readonly)
    ensures r.placeholder == placeholder && r.value == value
  {
    UseCsItem(StringItem, labelText, value, Some(rule), None, rw, placeholder)
  }

  /** `useCsInputNumberRangeItem`: the placeholders are stored exactly as given. */
  function UseCsInputNumberRangeItem(labelText: string, value: Value, rule: Rule, rw: Option<RW>,
                                     lowerPlaceholder: Option<string>, upperPlaceholder: Option<string>): (r: Item)
    requires rule.NumberRule?
    ensures r.kind == NumberRangeItem && r.rule == Some(rule) && r.options.None? && r.placeholder.None?
    ensures r.readonly <==> rw == Some(Readonly)
    ensures r.lowerPlaceholder == lowerPlaceholder && r.upperPlaceholder == upperPlaceholder
    ensures r.value == value
  {
    UseCsItem(NumberRangeItem, labelText, value, Some(rule), None, rw, None)
      .(lowerPlaceholder := lowerPlaceholder, upperPlaceholder := upperPlaceholder)
  }

  /** `useCsInputDateRangeItem`: as the number-range factory, for a string-array rule. */
  function UseCsInputDateRangeItem(labelText: string, value: Value, rule: Rule, rw: Option<RW>,
                                   lowerPlaceholder: Option<string>, upperPlaceholder: Option<string>): (r: Item)
    requires rule.StringArrayRule?
    ensures r.kind == DateRangeItem && r.rule == Some(rule) && r.options.None? && r.placeholder.None?
    ensures r.readonly <==> rw == Some(Readonly)
    ensures r.lowerPlaceholder == lowerPlaceholder && r.upperPlaceholder == upperPlaceholder
    ensures r.value == value
  {
    UseCsItem(DateRangeItem, labelText, value, Some(rule), None, rw, None)
      .(lowerPlaceholder := lowerPlaceholder, upperPlaceholder := upperPlaceholder)
  }

  /** A range Item started from `useRangeInit(a, b)` reads back `a` and `b`. */
  lemma RangeItemFromInitReadsBack(labelText: string, rule: Rule, a: Value, b: Value, rw: Option<RW>,
                                   lowerPlaceholder: Option<string>, upperPlaceholder: Option<string>)
    requires rule.NumberRule?
    ensures var item := UseCsInputNumberRangeItem(labelText, UseRangeInit(a, b), rule, rw, lowerPlaceholder, upperPlaceholder);
            LowerValue(item.value) == a && UpperValue(item.value) == b
  {
  }

  /** Options handed to an Item without options are dropped. */
  lemma OptionsOnlyOnOptionItems(labelText: string, value: Value, so: SelectOptions)
    ensures UseCsItem(StringItem, labelText, value, None, Some(so), None, None).options.None?
    ensures UseCsItem(StringOptionsItem, labelText, value, None, Some(so), None, None).options == Some(so)
  {
  }
}
