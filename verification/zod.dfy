/**
 * The default validation backend (CsZodValidationEvent). At View construction every Item
 * is compiled into a keyed schema fragment; validating one Item runs the required check,
 * then the custom-rule dispatch, then that Item's fragment.
 *
 * The schema library itself is not modelled. A fragment is a small declarative value
 * (a scalar check list, or an array of scalars with length checks) and `Parse` gives the
 * message of the first issue the library reports for it, or None when the value passes.
 */
module ZodEvent {
  import opened Wrappers
  import opened Values
  import opened Rules
  import opened Items
  import opened CustomRules
  import opened ValidationEvent

  // ---------------------------------------------------------------- fragments

  datatype Bound = Bound(limit: int, message: string)

  datatype StringCheck = MinLength(bound: Bound) | MaxLength(bound: Bound) | EmailFormat(emailMessage: string)

  datatype NumberCheck = MinValue(bound: Bound) | MaxValue(bound: Bound)

  /** A scalar fragment; `optional` admits `undefined`, `requiredError` replaces the default "Required". */
  datatype Scalar =
    | StringSchema(optional: bool, requiredError: Option<string>, stringChecks: seq<StringCheck>)
    | NumberSchema(optional: bool, requiredError: Option<string>, numberChecks: seq<NumberCheck>)

  datatype Schema =
    | ScalarSchema(scalar: Scalar)
    | ArraySchema(element: Scalar, exactLength: Option<Bound>, minLength: Option<Bound>)

  /** The library's default message for a missing value. */
  const REQUIRED: string := "Required"

  /** The library's default message for a value of the wrong runtime type. */
  function InvalidTypeMessage(expected: string, v: Value): string {
    "Expected " + expected + ", received " + TypeName(v)
  }

  predicate StringCheckFails(c: StringCheck, s: string, isEmail: string -> bool) {
    match c
    case MinLength(b) => |s| < b.limit
    case MaxLength(b) => |s| > b.limit
    case EmailFormat(_) => !isEmail(s)
  }

  function StringCheckMessage(c: StringCheck): string {
    match c
    case MinLength(b) => b.message
    case MaxLength(b) => b.message
    case EmailFormat(m) => m
  }

  /** String checks all run; the first issue reported is that of the first failing check. */
  function FirstStringIssue(checks: seq<StringCheck>, s: string, isEmail: string -> bool): (r: Option<string>)
    ensures r.None? <==> forall k :: 0 <= k < |checks| ==> !StringCheckFails(checks[k], s, isEmail)
    ensures r.Some? ==> exists k :: 0 <= k < |checks| && StringCheckFails(checks[k], s, isEmail)
                                    && r.value == StringCheckMessage(checks[k])
                                    && forall j :: 0 <= j < k ==> !StringCheckFails(checks[j], s, isEmail)
  {
    if |checks| == 0 then None
    else if StringCheckFails(checks[0], s, isEmail) then Some(StringCheckMessage(checks[0]))
    else
      var r := FirstStringIssue(checks[1..], s, isEmail);
      if r.Some? then
        var k :| 0 <= k < |checks| - 1 && StringCheckFails(checks[1..][k], s, isEmail)
                 && r.value == StringCheckMessage(checks[1..][k])
                 && forall j :: 0 <= j < k ==> !StringCheckFails(checks[1..][j], s, isEmail);
        assert forall j :: 0 <= j < k + 1 ==> !StringCheckFails(checks[j], s, isEmail) by {
          forall j | 0 <= j < k + 1 ensures !StringCheckFails(checks[j], s, isEmail) {
            if j > 0 { assert checks[j] == checks[1..][j - 1]; }
          }
        }
        r
      else r
  }

  predicate NumberCheckFails(c: NumberCheck, n: int) {
    match c
    case MinValue(b) => n < b.limit
    case MaxValue(b) => n > b.limit
  }

  function FirstNumberIssue(checks: seq<NumberCheck>, n: int): (r: Option<string>)
    ensures r.None? <==> forall k :: 0 <= k < |checks| ==> !NumberCheckFails(checks[k], n)
    ensures r.Some? ==> exists k :: 0 <= k < |checks| && NumberCheckFails(checks[k], n)
                                    && r.value == checks[k].bound.message
                                    && forall j :: 0 <= j < k ==> !NumberCheckFails(checks[j], n)
  {
    if |checks| == 0 then None
    else if NumberCheckFails(checks[0], n) then Some(checks[0].bound.message)
    else
      var r := FirstNumberIssue(checks[1..], n);
      if r.Some? then
        var k :| 0 <= k < |checks| - 1 && NumberCheckFails(checks[1..][k], n)
                 && r.value == checks[1..][k].bound.message
                 && forall j :: 0 <= j < k ==> !NumberCheckFails(checks[1..][j], n);
        assert forall j :: 0 <= j < k + 1 ==> !NumberCheckFails(checks[j], n) by {
          forall j | 0 <= j < k + 1 ensures !NumberCheckFails(checks[j], n) {
            if j > 0 { assert checks[j] == checks[1..][j - 1]; }
          }
        }
        r
      else r
  }

  function ParseScalar(sc: Scalar, v: Value, isEmail: string -> bool): Option<string> {
    match sc
    case StringSchema(optional, requiredError, checks) =>
      if v.Undefined? then (if optional then None else Some(requiredError.GetOr(REQUIRED)))
      else if !v.Str? then Some(InvalidTypeMessage("string", v))
      else FirstStringIssue(checks, v.s, isEmail)
    case NumberSchema(optional, requiredError, checks) =>
      if v.Undefined? then (if optional then None else Some(requiredError.GetOr(REQUIRED)))
      else if !v.Num? then Some(InvalidTypeMessage("number", v))
      else FirstNumberIssue(checks, v.n)
  }

  /** Elements are checked in order; the first issue is the first failing element's. */
  function FirstElementIssue(sc: Scalar, es: seq<Value>, isEmail: string -> bool): (r: Option<string>)
    ensures r.None? <==> forall k :: 0 <= k < |es| ==> ParseScalar(sc, es[k], isEmail).None?
    ensures r.Some? ==> exists k :: 0 <= k < |es| && r == ParseScalar(sc, es[k], isEmail)
                                    && forall j :: 0 <= j < k ==> ParseScalar(sc, es[j], isEmail).None?
  {
    if |es| == 0 then None
    else if ParseScalar(sc, es[0], isEmail).Some? then ParseScalar(sc, es[0], isEmail)
    else
      var r := FirstElementIssue(sc, es[1..], isEmail);
      if r.Some? then
        var k :| 0 <= k < |es| - 1 && r == ParseScalar(sc, es[1..][k], isEmail)
                 && forall j :: 0 <= j < k ==> ParseScalar(sc, es[1..][j], isEmail).None?;
        assert forall j :: 0 <= j < k + 1 ==> ParseScalar(sc, es[j], isEmail).None? by {
          forall j | 0 <= j < k + 1 ensures ParseScalar(sc, es[j], isEmail).None? {
            if j > 0 { assert es[j] == es[1..][j - 1]; }
          }
        }
        assert es[k + 1] == es[1..][k];
        r
      else r
  }

  /** The first issue a fragment reports for a value: array length checks precede element checks. */
  function Parse(schema: Schema, v: Value, isEmail: string -> bool): Option<string> {
    match schema
    case ScalarSchema(sc) => ParseScalar(sc, v, isEmail)
    case ArraySchema(sc, exact, min) =>
      if v.Undefined? then Some(REQUIRED)
      else if !v.Arr? then Some(InvalidTypeMessage("array", v))
      else if exact.Some? && |v.elems| != exact.value.limit then Some(exact.value.message)
      else if min.Some? && |v.elems| < min.value.limit then Some(min.value.message)
      else FirstElementIssue(sc, v.elems, isEmail)
  }

  // ---------------------------------------------------------------- messages

  function RequiredMessage(labelText: string): string { labelText + "は必須です。値を設定してください" }
  function TooShortMessage(labelText: string, min: int): string {
    labelText + "が短すぎます。 " + IntToString(min) + "文字より長い文字列を入力してください"
  }
  function TooLongMessage(labelText: string, max: int): string {
    labelText + "が長すぎます。 " + IntToString(max) + "文字より短い文字列を入力してください"
  }
  function EmailMessage(labelText: string): string { labelText + "は、正しいメールアドレスの形式で入力してください" }
  function TooSmallMessage(labelText: string, min: int): string {
    labelText + "が小さすぎます。 " + IntToString(min) + "より大きい数を入力してください"
  }
  function TooLargeMessage(labelText: string, max: int): string {
    labelText + "が大きすぎます。 " + IntToString(max) + "より小さい数を入力してください"
  }
  function NoSelectionMessage(labelText: string): string { labelText + "は必須です。1つ以上の値を入力してください" }
  function DateRangeRequiredMessage(labelText: string): string { labelText + "は必須です。" }

  /** The same wording the other backend produces for a too-short string. */
  lemma TooShortMessageMatchesOtherBackend()
    ensures TooShortMessage("Item 1", 8) == "Item 1が短すぎます。 8文字より長い文字列を入力してください"
  {
  }

  // ---------------------------------------------------------------- fragment builders

  /** The minimum length a string fragment enforces: the rule's, else 1 when required. */
  function EffectiveMinLength(rule: Rule): Option<int>
    requires rule.StringRule?
  {
    if rule.min.Some? then rule.min else if rule.required then Some(1) else None
  }

  /** `createStringConstraint`, for an Item whose rule is a string rule. */
  function CreateStringConstraint(labelText: string, rule: Rule): (f: Schema)
    requires rule.StringRule?
    ensures f.ScalarSchema? && f.scalar.StringSchema?
    ensures f.scalar.optional == !rule.required
  {
    var minCheck :=
      if rule.min.Some? then
        [MinLength(Bound(rule.min.value,
                         if rule.min.value == 1 && rule.required then RequiredMessage(labelText)
                         else TooShortMessage(labelText, rule.min.value)))]
      else if rule.required then [MinLength(Bound(1, RequiredMessage(labelText)))]
      else [];
    var maxCheck := if rule.max.Some? then [MaxLength(Bound(rule.max.value, TooLongMessage(labelText, rule.max.value)))] else [];
    var emailCheck := if rule.email then [EmailFormat(EmailMessage(labelText))] else [];
    ScalarSchema(StringSchema(!rule.required, if rule.required then Some(RequiredMessage(labelText)) else None,
                              minCheck + maxCheck + emailCheck))
  }

  /** The number element fragment; `truthyOnly` drops a bound of 0, as the array builder does. */
  function NumberScalar(labelText: string, rule: Rule, truthyOnly: bool): Scalar
    requires rule.NumberRule?
  {
    var useMin := rule.min.Some? && (!truthyOnly || rule.min.value != 0);
    var useMax := rule.max.Some? && (!truthyOnly || rule.max.value != 0);
    var minCheck := if useMin then [MinValue(Bound(rule.min.value, TooSmallMessage(labelText, rule.min.value)))] else [];
    var maxCheck := if useMax then [MaxValue(Bound(rule.max.value, TooLargeMessage(labelText, rule.max.value)))] else [];
    NumberSchema(!rule.required, if rule.required then Some(RequiredMessage(labelText)) else None, minCheck + maxCheck)
  }

  /** `createNumberConstraint`: bounds apply whenever they are defined, 0 included. */
  function CreateNumberConstraint(labelText: string, rule: Rule): (f: Schema)
    requires rule.NumberRule?
    ensures f.ScalarSchema? && f.scalar.NumberSchema? && f.scalar.optional == !rule.required
  {
    ScalarSchema(NumberScalar(labelText, rule, false))
  }

  /** `createNumberArrayConstraint`: an array of numbers whose bounds apply only when truthy. */
  function CreateNumberArrayConstraint(labelText: string, rule: Rule): (f: Schema)
    requires rule.NumberRule?
    ensures f.ArraySchema? && f.exactLength.None? && f.minLength.None?
  {
    ArraySchema(NumberScalar(labelText, rule, true), None, None)
  }

  /** `createStringArrayConstraint`: required means at least one string; optional admits missing elements. */
  function CreateStringArrayConstraint(labelText: string, rule: Rule): (f: Schema)
    requires rule.StringArrayRule?
    ensures f.ArraySchema? && f.exactLength.None?
  {
    if rule.required then ArraySchema(StringSchema(false, None, []), None, Some(Bound(1, NoSelectionMessage(labelText))))
    else ArraySchema(StringSchema(true, None, []), None, None)
  }

  /** `createDateRangeConstraint`: required means exactly two strings. */
  function CreateDateRangeConstraint(labelText: string, rule: Rule): (f: Schema)
    requires rule.StringArrayRule?
    ensures f.ArraySchema? && f.minLength.None?
  {
    if rule.required then
      ArraySchema(StringSchema(false, Some(DateRangeRequiredMessage(labelText)), []),
                  Some(Bound(2, DateRangeRequiredMessage(labelText))), None)
    else ArraySchema(StringSchema(true, None, []), None, None)
  }

  /**
   * The fragment `createValidationSchema` builds for one Item: chosen by the Item's class
   * and built only when the rule has the class the builder expects. Check boxes and plain
   * string ranges get no fragment.
   */
  function FragmentFor(item: Item): Option<Schema> {
    if item.rule.None? then None
    else
      var rule := item.rule.value;
      match item.kind
      case StringItem => if rule.StringRule? then Some(CreateStringConstraint(item.labelText, rule)) else None
      case StringOptionsItem => if rule.StringRule? then Some(CreateStringConstraint(item.labelText, rule)) else None
      case NumberItem => if rule.NumberRule? then Some(CreateNumberConstraint(item.labelText, rule)) else None
      case NumberOptionsItem => if rule.NumberRule? then Some(CreateNumberConstraint(item.labelText, rule)) else None
      case StringArrayItem => if rule.StringArrayRule? then Some(CreateStringArrayConstraint(item.labelText, rule)) else None
      case StringArrayOptionsItem =>
        if rule.StringArrayRule? then Some(CreateStringArrayConstraint(item.labelText, rule)) else None
      case NumberArrayItem => if rule.NumberRule? then Some(CreateNumberArrayConstraint(item.labelText, rule)) else None
      case NumberRangeItem => if rule.NumberRule? then Some(CreateNumberArrayConstraint(item.labelText, rule)) else None
      case DateRangeItem => if rule.StringArrayRule? then Some(CreateDateRangeConstraint(item.labelText, rule)) else None
      case BooleanItem => None
      case StringRangeItem => None
  }

  function BindingFragment(b: Binding): Option<Schema> {
    if b.entry.ItemEntry? then FragmentFor(b.entry.item) else None
  }

  /** `createValidationSchema`: one fragment per Item entry that has one, keyed by its definition key. */
  function CreateValidationSchema(defs: seq<Binding>): (m: map<string, Schema>)
    requires DistinctKeys(defs)
    ensures forall k :: k in m <==> exists i :: 0 <= i < |defs| && defs[i].key == k && BindingFragment(defs[i]).Some?
    ensures forall i :: 0 <= i < |defs| ==> (defs[i].key in m <==> BindingFragment(defs[i]).Some?)
    ensures forall i :: 0 <= i < |defs| && BindingFragment(defs[i]).Some? ==>
                         m[defs[i].key] == BindingFragment(defs[i]).value
    decreases |defs|
  {
    if |defs| == 0 then map[]
    else
      var init := defs[..|defs| - 1];
      assert DistinctKeys(init) by {
        forall i, j | 0 <= i < j < |init| ensures init[i].key != init[j].key {
          assert init[i] == defs[i] && init[j] == defs[j];
        }
      }
      var m := CreateValidationSchema(init);
      var last := defs[|defs| - 1];
      var frag := BindingFragment(last);
      assert forall i :: 0 <= i < |init| ==> init[i] == defs[i] && init[i].key != last.key;
      if frag.None? then m else m[last.key := frag.value]
  }

  // ---------------------------------------------------------------- the event

  /**
   * A Zod validation event: the custom rules it was given, the schema compiled at View
   * construction, and the library's e-mail format test (left uninterpreted).
   */
  datatype ZodEvent = ZodEvent(customRules: Option<map<string, CustomRule>>, schema: map<string, Schema>,
                               isEmail: string -> bool)

  /** `useCsZodValidationEvent`: compiles the View's definitions once. */
  function UseCsZodValidationEvent(defs: seq<Binding>, customRules: Option<map<string, CustomRule>>,
                                   isEmail: string -> bool): (ev: ZodEvent)
    requires DistinctKeys(defs)
    ensures ev.customRules == customRules
    ensures forall i :: 0 <= i < |defs| ==>
              (defs[i].key in ev.schema <==> BindingFragment(defs[i]).Some?)
    ensures forall i :: 0 <= i < |defs| && BindingFragment(defs[i]).Some? ==>
              ev.schema[defs[i].key] == BindingFragment(defs[i]).value
    ensures ev.isEmail == isEmail
  {
    ZodEvent(customRules, CreateValidationSchema(defs), isEmail)
  }

  datatype ParseOutcome = Passed | Failed(message: string) | Thrown

  /** The schema sees `undefined` where the Item holds the empty string. */
  function ZodInput(v: Value): (r: Value)
    ensures v == Str("") ==> r == Undefined
    ensures v != Str("") ==> r == v
  {
    if v == Str("") then Undefined else v
  }

  /**
   * Parsing one Item's single-field schema. An Item without a fragment makes the library
   * throw a non-schema error (`Thrown`); otherwise the fragment passes or fails with its
   * first issue, every issue lying under the Item's key.
   */
  function SchemaParse(ev: ZodEvent, item: Item, v: Value): (r: ParseOutcome)
    ensures (item.key.None? || item.key.value !in ev.schema) <==> r.Thrown?
    ensures r.Passed? ==> Parse(ev.schema[item.key.value], ZodInput(v), ev.isEmail).None?
    ensures r.Failed? ==> Parse(ev.schema[item.key.value], ZodInput(v), ev.isEmail) == Some(r.message)
  {
    if item.key.None? || item.key.value !in ev.schema then Thrown
    else match Parse(ev.schema[item.key.value], ZodInput(v), ev.isEmail)
      case None => Passed
      case Some(m) => Failed(m)
  }

  /** The custom step as it runs inside item validation: skipped when the required check fails. */
  function CustomStep(ev: ZodEvent, v: Value, item: Item): (r: Verdict)
    ensures RequiredCheckHasError(v, item) ==> r == Verdict(false, item.message)
    ensures !RequiredCheckHasError(v, item) ==> r == CustomValidateItemHasError(ev.customRules, v, item)
  {
    if RequiredCheckHasError(v, item) then Verdict(false, item.message)
    else CustomValidateItemHasError(ev.customRules, v, item)
  }

  /**
   * `onValidateItemHasError`: required check, then custom rule, then the fragment. A custom
   * failure ends validation; otherwise the fragment decides, a pass clears the message, an
   * issue sets it, and a non-schema error is swallowed (no error, message as the custom
   * step left it).
   */
  function OnValidateItemHasError(ev: ZodEvent, v: Value, item: Item): (r: Verdict)
    ensures r.hasError <==> CustomStep(ev, v, item).hasError || SchemaParse(ev, item, v).Failed?
    ensures CustomStep(ev, v, item).hasError ==> r == CustomStep(ev, v, item)
    ensures !CustomStep(ev, v, item).hasError ==>
              match SchemaParse(ev, item, v)
              case Passed => r == Verdict(false, "")
              case Failed(m) => r == Verdict(true, m)
              case Thrown => r == Verdict(false, CustomStep(ev, v, item).message)
  {
    var custom := CustomStep(ev, v, item);
    if custom.hasError then custom
    else match SchemaParse(ev, item, v)
      case Passed => Verdict(false, "")
      case Failed(m) => Verdict(true, m)
      case Thrown => Verdict(false, custom.message)
  }

  /** What validating one definition entry does to it: an Item gets its new message; events are untouched. */
  function Revalidate(ev: ZodEvent, b: Binding): (r: Binding)
    ensures r.key == b.key
    ensures !b.entry.ItemEntry? ==> r == b
    ensures b.entry.ItemEntry? ==>
              r.entry == ItemEntry(b.entry.item.(message := OnValidateItemHasError(ev, b.entry.item.value, b.entry.item).message))
  {
    match b.entry
    case ItemEntry(item) =>
      Binding(b.key, ItemEntry(item.(message := OnValidateItemHasError(ev, item.value, item).message)))
    case _ => b
  }

  predicate EntryHasError(ev: ZodEvent, b: Binding) {
    b.entry.ItemEntry? && OnValidateItemHasError(ev, b.entry.item.value, b.entry.item).hasError
  }

  /**
   * `onValidateHasError`: validates every Item entry with its current value, without
   * stopping at the first error, so every Item's message is refreshed; reports whether any
   * Item had an error.
   */
  method OnValidateHasError(ev: ZodEvent, entries: seq<Binding>) returns (hasError: bool, updated: seq<Binding>)
    ensures |updated| == |entries|
    ensures forall i :: 0 <= i < |entries| ==> updated[i] == Revalidate(ev, entries[i])
    ensures hasError <==> exists i :: 0 <= i < |entries| && EntryHasError(ev, entries[i])
  {
    hasError := false;
    updated := [];
    var i := 0;
    while i < |entries|
      invariant 0 <= i <= |entries|
      invariant |updated| == i
      invariant forall j :: 0 <= j < i ==> updated[j] == Revalidate(ev, entries[j])
      invariant hasError <==> exists j :: 0 <= j < i && EntryHasError(ev, entries[j])
    {
      var b := entries[i];
      if b.entry.ItemEntry? {
        var verdict := OnValidateItemHasError(ev, b.entry.item.value, b.entry.item);
        if verdict.hasError {
          hasError := true;
        }
      }
      updated := updated + [Revalidate(ev, b)];
      i := i + 1;
    }
  }

  /** Whether `resetError(name)` clears this entry's message. */
  predicate ResetTargets(b: Binding, name: Option<string>) {
    b.entry.ItemEntry? && (name.None? || Some(name.value) == b.entry.item.key)
  }

  /**
   * `resetError(name?)`: clears the message of the Item whose key is `name`, or of every
   * Item when no name is given; nothing else changes.
   */
  function ResetError(entries: seq<Binding>, name: Option<string>): (r: seq<Binding>)
    ensures |r| == |entries|
    ensures forall i :: 0 <= i < |entries| && ResetTargets(entries[i], name) ==>
              r[i] == Binding(entries[i].key, ItemEntry(entries[i].entry.item.(message := "")))
    ensures forall i :: 0 <= i < |entries| && !ResetTargets(entries[i], name) ==> r[i] == entries[i]
  {
    seq(|entries|, i requires 0 <= i < |entries| =>
      if ResetTargets(entries[i], name) then Binding(entries[i].key, ItemEntry(entries[i].entry.item.(message := "")))
      else entries[i])
  }

  /**
   * `validationErrorMessage`: reads a stored error that the class never assigns, so it is
   * always the empty string.
   */
  function ValidationErrorMessage(ev: ZodEvent, item: Item): (m: string)
    ensures |m| == 0
  {
    ""
  }
}
