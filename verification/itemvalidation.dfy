/**
 * The validation entry points of an Item (CsItem and CsInputDateRangeItem). An Item reaches
 * the validation event of its owning View; here that event is passed in, None standing for
 * a View without one.
 */
module ItemValidation {
  import opened Wrappers
  import opened Values
  import opened Rules
  import opened Items
  import opened ValidationEvent
  import opened ZodEvent
  import opened ZodSemantics

  /** The values `validate` treats as "nothing entered": undefined, the empty string, the empty array. */
  predicate NothingEntered(v: Value) {
    v.Undefined? || v == Str("") || v == Arr([])
  }

  /** `null` is empty for the required check but is not "nothing entered", so `validate` still checks it. */
  lemma NothingEnteredVersusEmpty(v: Value)
    ensures NothingEntered(v) ==> IsEmpty(v)
    ensures IsEmpty(v) <==> NothingEntered(v) || v.Null?
  {
  }

  /** `validateAnytime(v)`: the owning View's event decides; without an event there is no error and no change. */
  function ValidateAnytime(ev: Option<ZodEvent>, item: Item, v: Value): (r: Verdict)
    ensures ev.None? ==> r == Verdict(false, item.message)
    ensures ev.Some? ==> r == OnValidateItemHasError(ev.value, v, item)
  {
    match ev
    case None => Verdict(false, item.message)
    case Some(e) => OnValidateItemHasError(e, v, item)
  }

  /** `validate(v)`: an optional Item with nothing entered is not checked at all. */
  function Validate(ev: Option<ZodEvent>, item: Item, v: Value): (r: Verdict)
    ensures !IsRequired(item.rule) && NothingEntered(v) ==> r == Verdict(false, item.message)
    ensures IsRequired(item.rule) || !NothingEntered(v) ==> r == ValidateAnytime(ev, item, v)
  {
    if !IsRequired(item.rule) && NothingEntered(v) then Verdict(false, item.message)
    else ValidateAnytime(ev, item, v)
  }

  /** `validateWhenErrorExists(v)`: re-validates only while a message is showing. */
  function ValidateWhenErrorExists(ev: Option<ZodEvent>, item: Item, v: Value): (r: Verdict)
    ensures item.message == "" ==> r == Verdict(false, "")
    ensures item.message != "" ==> r == ValidateAnytime(ev, item, v)
  {
    if item.message == "" then Verdict(false, item.message) else ValidateAnytime(ev, item, v)
  }

  /**
   * Validating an Item without a custom rule name twice with the same value gives the same
   * verdict and the same message as validating it once.
   */
  lemma ValidateAnytimeIdempotent(ev: Option<ZodEvent>, item: Item, v: Value)
    requires !HasCustomRuleName(item)
    ensures var r := ValidateAnytime(ev, item, v);
            ValidateAnytime(ev, item.(message := r.message), v) == r
  {
    if ev.Some? {
      RevalidationIsStable(ev.value, v, item);
    }
  }

  /** `validate` inherits the idempotence: the skip test does not read the message. */
  lemma ValidateIdempotent(ev: Option<ZodEvent>, item: Item, v: Value)
    requires !HasCustomRuleName(item)
    ensures var r := Validate(ev, item, v);
            Validate(ev, item.(message := r.message), v) == r
  {
    ValidateAnytimeIdempotent(ev, item, v);
  }

  /** A required string Item holding "" fails `validate` with the required message. */
  lemma RequiredEmptyStringFailsValidate(ev: ZodEvent, item: Item)
    requires item.rule.Some? && item.rule.value.StringRule? && item.rule.value.required
    requires item.key.Some? && item.key.value in ev.schema
    requires ev.schema[item.key.value] == CreateStringConstraint(item.labelText, item.rule.value)
    ensures Validate(Some(ev), item, Str("")) == Verdict(true, RequiredMessage(item.labelText))
    ensures RequiredMessage(item.labelText) != ""
  {
    RequiredEmptyStringReportsRequiredMessage(ev, item);
  }

  /**
   * The debounce in action, for a required text Item limited to 1..5 characters: while no
   * message is showing an over-long value is let through; once one is, it is reported.
   */
  lemma WhenErrorExistsDebounces(ev: ZodEvent, item: Item)
    requires item.rule == Some(StringRule(true, Some(1), Some(5), false, None, None))
    requires !HasCustomRuleName(item)
    requires item.key.Some? && item.key.value in ev.schema
    requires ev.schema[item.key.value] == CreateStringConstraint(item.labelText, item.rule.value)
    ensures ValidateWhenErrorExists(Some(ev), item.(message := ""), Str("testete")) == Verdict(false, "")
    ensures ValidateWhenErrorExists(Some(ev), item.(message := "エラー"), Str("testete"))
            == Verdict(true, TooLongMessage(item.labelText, 5))
  {
    TooLongReported(item.labelText, item.rule.value, "testete", ev.isEmail);
  }

  // ---------------------------------------------------------------- date ranges

  /**
   * What `validateDateRange()` returns: nothing (an optional, falsy value is not checked),
   * the event's verdict, false (no event), or a thrown error (no rule to read `required` from).
   */
  datatype DateRangeOutcome = Skipped | Validated(verdict: Verdict) | NoEvent | RuleMissing

  function ValidateDateRange(ev: Option<ZodEvent>, item: Item): (r: DateRangeOutcome)
    ensures item.rule.None? <==> r.RuleMissing?
    ensures r.Skipped? <==> item.rule.Some? && !item.rule.value.required && !Truthy(item.value)
    ensures r.Validated? ==> ev.Some? && r.verdict == OnValidateItemHasError(ev.value, item.value, item)
    ensures r.NoEvent? <==> item.rule.Some? && (item.rule.value.required || Truthy(item.value)) && ev.None?
  {
    if item.rule.None? then RuleMissing
    else if !item.rule.value.required && !Truthy(item.value) then Skipped
    else match ev
      case Some(e) => Validated(OnValidateItemHasError(e, item.value, item))
      case None => NoEvent
  }

  /** An empty array is truthy, so an optional date range holding `[]` is still validated. */
  lemma EmptyDateRangeIsValidated(ev: ZodEvent, item: Item)
    requires item.rule.Some? && item.value == Arr([])
    ensures ValidateDateRange(Some(ev), item).Validated?
  {
  }

  /**
   * `validateDateRange()` agrees with `validateAnytime(value)` whenever it validates: it
   * returns that verdict, and "no event" is the verdict `validateAnytime` gives without one.
   * A date range holding a pair, as every range setter leaves it, is never skipped, and
   * `validate` gives the same verdict for it.
   */
  lemma DateRangeAgreesWithValidateAnytime(ev: Option<ZodEvent>, item: Item)
    ensures var r := ValidateDateRange(ev, item);
            && (r.Validated? ==> r.verdict == ValidateAnytime(ev, item, item.value))
            && (r.NoEvent? ==> ValidateAnytime(ev, item, item.value) == Verdict(false, item.message))
    ensures item.rule.Some? && item.value.Arr? && |item.value.elems| == 2 ==>
              && (ValidateDateRange(ev, item).Validated? || ValidateDateRange(ev, item).NoEvent?)
              && Validate(ev, item, item.value) == ValidateAnytime(ev, item, item.value)
  {
  }
}
