# Input binding and validation engine — a Dafny model

This project models the logic layer of a React form framework. It leaves out the widgets.

- An **Item** binds a value cell to a label, a declarative **validation rule**, a readonly flag and a validation-message cell.
- A **View** is a keyed record of Items and **Events**. It has a readonly flag, a validation trigger and a **validation event**, which is the backend that validates its Items.
- The default backend compiles every Item into a schema fragment, using the Zod library.
- Validating one Item takes three steps in a fixed order:
  1. a required check;
  2. an application-supplied or built-in **custom rule**, found by name;
  3. the Item's schema fragment.
- Each step produces a verdict: whether there was an error, and the message the Item shows afterwards.

The model is purely functional. Values are a closed tagged union (`Values.Value`): undefined, null, string, number, boolean, array and "other object". This mirrors JavaScript's runtime shapes, because guards and schema checks look at the shape at run time. React state cells become record fields. Operations that set a message return a `Verdict`. The view-wide loops are methods with loop invariants.

Modules, in dependency order:

- `Wrappers`: `Option`.
- `Values`: values, truthiness, and JavaScript number printing for messages.
- `Rules`: validation rules and their builders.
- `Items`: Items, definition entries and the readonly override.
- `CustomRules`: custom rules, the shape guards and the regex validator.
- `ValidationEvent`: the backend-independent part, namely emptiness, the required check and the four-branch custom dispatch with its diagnostics.
- `ZodEvent`: the fragment language and its builders, schema compilation, item validation, the view-wide loop and reset.
- `ZodSemantics`: what each compiled fragment accepts, stated directly on the rule, and the precedence of the three steps.
- `RangeItems`: two-element range values, and date normalisation through a formatter passed in as a parameter.
- `ItemValidation`: `validate`, `validateAnytime`, `validateWhenErrorExists` and `validateDateRange`.
- `Views`: `useCsView` and `executeValidation`.
- `Hooks`: the rule builders, option mappers and Item factories.
- `Patterns` and `BuiltIns`: the built-in character-class rules and their registry.

CsItem.ts is not part of this model. The Item operations it defines (rule setters, guards, `validate*`, `init`) follow its test file, `__tests__/framework/logics/CsItem.test.tsx`.

## Model

| member | source | states |
|---|---|---|
| Values.NatToString | resource/zod/framework/logics/zod/CsZodValidationEvent.ts:97-100 | the decimal numeral of a natural number, as JavaScript prints it: digits only, no leading zero, and it denotes the number |
| Values.IntToString | resource/zod/framework/logics/zod/CsZodValidationEvent.ts:97-100 | the decimal text interpolated into messages denotes the integer: a leading '-' exactly for negatives, digits elsewhere |
| Values.IntToStringInjective | resource/zod/framework/logics/zod/CsZodValidationEvent.ts:97-100 | distinct bounds render to distinct texts, so a bound message names its bound |
| Rules.SetRequired | src/framework/logics/CsHooks.ts:44-45 | `setRequired` sets the flag and changes nothing else |
| Rules.SetCustomRuleName | src/framework/logics/CsHooks.ts:47 | `setCustomRuleName` sets the name and changes nothing else |
| Rules.SetLength | __tests__/framework/logics/CsItem.test.tsx:317-337 | a given bound is kept; a missing minimum becomes 0 and a missing maximum becomes MAX_SAFE_INTEGER; nothing else changes |
| Rules.SetRange | __tests__/framework/logics/CsItem.test.tsx:289-310 | a given bound is kept; either missing bound becomes MAX_SAFE_INTEGER; nothing else changes |
| Rules.SetRegExp | __tests__/framework/logics/CsItem.test.tsx:339-344 | stores the pattern and nothing else |
| Rules.SetEmail | __tests__/framework/logics/CsItem.test.tsx:346-350 | stores the e-mail flag and nothing else |
| Rules.MaxOnlySentinelsDiffer | __tests__/framework/logics/CsItem.test.tsx:303-337 | given only a maximum, the length rule gets minimum 0 while the number rule gets MAX_SAFE_INTEGER |
| Items.NewItem | src/framework/logics/CsHooks.ts:130 | a new Item has no key, View, rule or options, an undefined value and an empty message |
| Items.SetValue | __tests__/framework/logics/CsItem.test.tsx:484-498 | `setValue` replaces the value and nothing else |
| Items.Init | __tests__/framework/logics/CsItem.test.tsx:452-461 | `init(label, readonly)` replaces exactly the label and the readonly flag |
| Items.ReadonlyOverrideOneDirectional | __tests__/framework/logics/CsView.test.tsx:162-206 | a readonly View makes every Item readonly; an editable View leaves each Item's own flag in charge |
| CustomRules.GuardsAreShapeDisjoint | __tests__/framework/logics/CsItem.test.tsx:226-263 | every guard admits undefined; a defined value passes the guards of one scope only |
| CustomRules.FailureMessage | src/framework/logics/CsView.ts:101-110 | a failing rule reports its fixed text, or its message callback applied to label, value and Item |
| CustomRules.RegExpValidator | __tests__/framework/logics/CsItem.test.tsx:35-66 | undefined fails; a string passes exactly when the pattern matches it |
| CustomRules.StringCustomValidationRule | __tests__/framework/logics/CsItem.test.tsx:235-241 | the string guard admits undefined and strings and rejects numbers and booleans |
| CustomRules.NumberCustomValidationRule | __tests__/framework/logics/CsItem.test.tsx:227-233 | the number guard admits undefined and numbers and rejects strings |
| CustomRules.BooleanCustomValidationRule | __tests__/framework/logics/CsItem.test.tsx:243-249 | the boolean guard admits undefined and booleans and rejects strings |
| CustomRules.StringArrayCustomValidationRule | __tests__/framework/logics/CsItem.test.tsx:251-262 | the string-array guard admits undefined and exactly the arrays whose elements are all strings; it rejects numbers and objects |
| CustomRules.StringArrayGuardRejectsMixed | __tests__/framework/logics/CsItem.test.tsx:258-263 | `["test", 1, {}]` is rejected and `["sample"]` admitted |
| ValidationEvent.IsEmptyExactly | src/framework/logics/CsView.ts:45-52 | empty means undefined, null, a zero-length string or a zero-length array; 0 and false are not empty |
| ValidationEvent.RequiredCheckHasError | src/framework/logics/CsView.ts:53-58 | an error only for a required rule, and then exactly when the value is empty; an optional or rule-less Item never fails it |
| ValidationEvent.CustomValidateItemHasError | src/framework/logics/CsView.ts:60-112 | the four-branch dispatch: no name gives no error and leaves the message; no rule map, an unregistered name or a rejected shape gives an error with its diagnostic; otherwise the validator decides and a pass clears the message |
| ValidationEvent.MisconfigurationMessagesNameTheRule | src/framework/logics/CsView.ts:68-93 | every misconfiguration is an error whose message ends in `ルール：[name]` |
| ValidationEvent.InapplicableRuleIgnoresValidator | src/framework/logics/CsView.ts:86-93 | when the guard rejects the value, swapping the rule's validator and message changes nothing, so the validator is never consulted |
| ValidationEvent.CustomPassClearsOrKeeps | src/framework/logics/CsView.ts:64-67 | without an error the message is either cleared or left as it was |
| ZodEvent.FirstStringIssue | resource/zod/framework/logics/zod/CsZodValidationEvent.ts:93-116 | no issue exactly when every string check passes; otherwise the message of the first failing check, every earlier check passing |
| ZodEvent.FirstNumberIssue | resource/zod/framework/logics/zod/CsZodValidationEvent.ts:137-154 | no issue exactly when every bound holds; otherwise the message of the first violated bound, every earlier bound holding |
| ZodEvent.FirstElementIssue | resource/zod/framework/logics/zod/CsZodValidationEvent.ts:170-174 | an array's elements pass exactly when each element passes the element fragment; otherwise the issue is the first failing element's |
| ZodEvent.TooShortMessageMatchesOtherBackend | resource/zod/framework/logics/zod/CsZodValidationEvent.ts:96-100 | the too-short text for label "Item 1" and minimum 8 is the text the other backend's tests expect |
| ZodEvent.CreateStringConstraint | resource/zod/framework/logics/zod/CsZodValidationEvent.ts:80-123 | a string fragment, optional exactly when the rule is not required |
| ZodEvent.CreateNumberConstraint | resource/zod/framework/logics/zod/CsZodValidationEvent.ts:125-161 | a number fragment, optional exactly when the rule is not required |
| ZodEvent.CreateNumberArrayConstraint | resource/zod/framework/logics/zod/CsZodValidationEvent.ts:179-212 | an array of number elements with no length checks |
| ZodEvent.CreateStringArrayConstraint | resource/zod/framework/logics/zod/CsZodValidationEvent.ts:163-177 | an array fragment with no exact-length check |
| ZodEvent.CreateDateRangeConstraint | resource/zod/framework/logics/zod/CsZodValidationEvent.ts:214-228 | an array fragment with no minimum-length check |
| ZodEvent.CreateValidationSchema | resource/zod/framework/logics/zod/CsZodValidationEvent.ts:38-78 | the schema has a key exactly for the Item definitions that get a fragment, and maps each to its own fragment |
| ZodEvent.UseCsZodValidationEvent | resource/zod/framework/logics/zod/CsZodValidationEvent.ts:318-331 | the event keeps the custom rules and has a fragment for a definition exactly when the definition gets one, namely its own |
| ZodEvent.ZodInput | resource/zod/framework/logics/zod/CsZodValidationEvent.ts:277 | the schema sees undefined for "" and the value itself otherwise |
| ZodEvent.SchemaParse | resource/zod/framework/logics/zod/CsZodValidationEvent.ts:264-278 | parsing throws exactly when the Item has no key or no fragment; otherwise it passes or fails as the fragment does on the converted value |
| ZodEvent.CustomStep | resource/zod/framework/logics/zod/CsZodValidationEvent.ts:270-275 | the custom rule runs only when the required check passes |
| ZodEvent.OnValidateItemHasError | resource/zod/framework/logics/zod/CsZodValidationEvent.ts:263-296 | an error exactly when the custom step or the fragment fails; a custom error is final; a pass clears the message, an issue sets it, a thrown error leaves no error and the message as the custom step left it |
| ZodEvent.Revalidate | resource/zod/framework/logics/zod/CsZodValidationEvent.ts:252-258 | an Item entry gets its new message; other entries are untouched |
| ZodEvent.OnValidateHasError | resource/zod/framework/logics/zod/CsZodValidationEvent.ts:250-261 | every entry is revalidated, with no early exit; the result is the OR of the per-Item errors |
| ZodEvent.ResetError | resource/zod/framework/logics/zod/CsZodValidationEvent.ts:305-315 | clears the message of the named Item, or of every Item when no name is given; every other entry is unchanged |
| ZodEvent.ValidationErrorMessage | resource/zod/framework/logics/zod/CsZodValidationEvent.ts:298-303 | always the empty string, since the stored error it reads is never assigned |
| ZodSemantics.StringConstraintAdmits | resource/zod/framework/logics/zod/CsZodValidationEvent.ts:80-123 | a string fragment passes exactly undefined when optional, or strings meeting the effective minimum, the maximum and the e-mail test |
| ZodSemantics.EmptyStringOnStringFragment | resource/zod/framework/logics/zod/CsZodValidationEvent.ts:87-92 | "" fails with the required message when required and passes when optional |
| ZodSemantics.TooShortReported | resource/zod/framework/logics/zod/CsZodValidationEvent.ts:92-101 | any minimum other than a required 1 reports the too-short message naming that minimum |
| ZodSemantics.TooLongReported | resource/zod/framework/logics/zod/CsZodValidationEvent.ts:103-111 | once the minimum is met, an over-long string reports the too-long message naming the maximum |
| ZodSemantics.NumberConstraintAdmits | resource/zod/framework/logics/zod/CsZodValidationEvent.ts:125-161 | a number fragment passes exactly undefined when optional, or numbers within every defined bound, 0 included |
| ZodSemantics.TooSmallReported | resource/zod/framework/logics/zod/CsZodValidationEvent.ts:137-145 | below the minimum, the too-small message names the minimum |
| ZodSemantics.MaximumOnlyRangeRejectsSmallerNumbers | __tests__/framework/logics/CsItem.test.tsx:304-309 | a number rule given only a maximum rejects every number below MAX_SAFE_INTEGER as too small |
| ZodSemantics.NumberArrayConstraintAdmits | resource/zod/framework/logics/zod/CsZodValidationEvent.ts:179-212 | a number array passes exactly when every element is allowed, with only non-zero bounds applied |
| ZodSemantics.ZeroBoundIgnoredByArrays | resource/zod/framework/logics/zod/CsZodValidationEvent.ts:191-199 | with minimum 0, -1 is rejected alone but accepted inside an array |
| ZodSemantics.StringArrayConstraintAdmits | resource/zod/framework/logics/zod/CsZodValidationEvent.ts:163-177 | a string array passes exactly when it is an array, has at least one element when required, and holds strings (or missing elements when optional) |
| ZodSemantics.EmptySelectionReported | resource/zod/framework/logics/zod/CsZodValidationEvent.ts:170-173 | a required, empty selection reports the one-or-more message |
| ZodSemantics.DateRangeConstraintAdmits | resource/zod/framework/logics/zod/CsZodValidationEvent.ts:214-228 | a date range passes exactly when it is an array, has exactly two elements when required, and holds strings (or missing bounds when optional) |
| ZodSemantics.DateRangeMissingBoundReported | resource/zod/framework/logics/zod/CsZodValidationEvent.ts:221-224 | a required range with a missing bound, or of length one, reports the date-range required message |
| ZodSemantics.CompiledEventParsesOwnFragment | resource/zod/framework/logics/zod/CsZodValidationEvent.ts:263-264 | an Item carrying a definition's key is parsed against that definition's fragment, and throws when there is none |
| ZodSemantics.RequiredEmptyStringReportsRequiredMessage | resource/zod/framework/logics/zod/CsZodValidationEvent.ts:263-278 | a required string Item holding "" reports the required message, whatever the custom rules |
| ZodSemantics.RequiredFailureSkipsCustomRules | resource/zod/framework/logics/zod/CsZodValidationEvent.ts:270-276 | when the required check fails, the custom rules do not affect the verdict |
| ZodSemantics.CustomFailureSkipsSchema | resource/zod/framework/logics/zod/CsZodValidationEvent.ts:270-275 | a custom error is the verdict and the schema does not affect it |
| ZodSemantics.RevalidationIsStable | resource/zod/framework/logics/zod/CsZodValidationEvent.ts:263-296 | without a custom rule name, validating again with the message just produced gives the same verdict |
| ZodSemantics.ResetErrorIdempotent | resource/zod/framework/logics/zod/CsZodValidationEvent.ts:305-315 | resetting twice is resetting once |
| ZodSemantics.ResetAllClearsEveryItem | resource/zod/framework/logics/zod/CsZodValidationEvent.ts:305-315 | a reset without a name clears every Item's message and keeps every Event |
| ZodSemantics.ResetAfterValidationClearsMessages | resource/zod/framework/logics/zod/CsZodValidationEvent.ts:250-315 | after validating all entries, a full reset leaves no Item message |
| RangeItems.LowerValue | resource/common/framework/logics/CsItemAdvanced.ts:35-40 | the first element of a two-element array, undefined for every other value |
| RangeItems.UpperValue | resource/common/framework/logics/CsItemAdvanced.ts:48-53 | the second element of a two-element array, undefined for every other value |
| RangeItems.SetRangeValue | resource/common/framework/logics/CsItemAdvanced.ts:61-63 | always a two-element array |
| RangeItems.SetLowerValue | resource/common/framework/logics/CsItemAdvanced.ts:42-46 | throws exactly without a previous array; otherwise a pair with the new lower bound and the previous `prev[1]`, undefined when the array is shorter than two |
| RangeItems.SetUpperValue | resource/common/framework/logics/CsItemAdvanced.ts:55-59 | throws exactly without a previous array; otherwise a pair with the previous `prev[0]`, undefined for an empty array, and the new upper bound |
| RangeItems.RangeAccessorsRoundTrip | resource/common/framework/logics/CsItemAdvanced.ts:35-63 | after `setRangeValue(lo, hi)` the accessors read back `lo` and `hi` |
| RangeItems.SetOneBoundKeepsTheOther | resource/common/framework/logics/CsItemAdvanced.ts:35-59 | on a pair, setting one bound makes it readable and leaves the other bound unchanged |
| RangeItems.SequentialSettersMakeRange | resource/common/framework/logics/CsItemAdvanced.ts:42-63 | setting the lower then the upper bound is setting the range |
| RangeItems.IsYearMonth | resource/common/framework/logics/CsItemAdvanced.ts:121-123 | the display format is one of the two year-month formats, YYYYMM or YYYY/MM |
| RangeItems.GetValueFormat | resource/common/framework/logics/CsItemAdvanced.ts:121-129 | "YYYY-MM" exactly for the year-month display formats, the full timestamp format otherwise |
| RangeItems.NormalizeDate | resource/common/framework/logics/CsItemAdvanced.ts:91-94 | undefined and "" pass through; other input is formatted with the value format; the invalid-date text is never stored |
| RangeItems.PreviousBound | resource/common/framework/logics/CsItemAdvanced.ts:95 | a previous array's element, undefined past its end, and undefined without an array |
| RangeItems.SetLowerDate | resource/common/framework/logics/CsItemAdvanced.ts:90-98 | a pair whose lower bound is the normalised input and whose upper bound is the previous one |
| RangeItems.SetUpperDate | resource/common/framework/logics/CsItemAdvanced.ts:100-108 | a pair whose upper bound is the normalised input and whose lower bound is the previous one |
| RangeItems.SetDateRange | resource/common/framework/logics/CsItemAdvanced.ts:110-119 | both bounds normalised; the previous value is ignored |
| RangeItems.DateSettersNeverThrowNorStoreInvalid | resource/common/framework/logics/CsItemAdvanced.ts:90-98 | unlike the generic setter, the date setter works from an undefined value and never stores the invalid-date text |
| RangeItems.SequentialDateSettersMakeRange | resource/common/framework/logics/CsItemAdvanced.ts:90-119 | setting the lower then the upper date is setting the date range |
| ItemValidation.NothingEnteredVersusEmpty | __tests__/framework/logics/CsItem.test.tsx:360-382 | what `validate` skips is empty; null is empty but is still checked |
| ItemValidation.ValidateAnytime | __tests__/framework/logics/CsItem.test.tsx:422-450 | the View's event decides; without an event there is no error and no change |
| ItemValidation.Validate | __tests__/framework/logics/CsItem.test.tsx:360-399 | an optional Item holding undefined or "" (or `[]`, see Left out) has no error and keeps its message; otherwise the result is `validateAnytime`'s |
| ItemValidation.ValidateWhenErrorExists | __tests__/framework/logics/CsItem.test.tsx:402-420 | with no message showing there is no error and nothing is evaluated; otherwise the result is `validateAnytime`'s |
| ItemValidation.ValidateAnytimeIdempotent | __tests__/framework/logics/CsItem.test.tsx:422-435 | without a custom rule name, a second call with the same value gives the same verdict and message |
| ItemValidation.ValidateIdempotent | __tests__/framework/logics/CsItem.test.tsx:359-399 | the same holds for `validate` |
| ItemValidation.RequiredEmptyStringFailsValidate | __tests__/framework/logics/CsItem.test.tsx:422-435 | `validate("")` on a required string Item is an error with a non-empty required message |
| ItemValidation.WhenErrorExistsDebounces | __tests__/framework/logics/CsItem.test.tsx:402-420 | for a 1..5 character rule, "testete" passes while no message shows and is reported as too long once one does |
| ItemValidation.ValidateDateRange | resource/common/framework/logics/CsItemAdvanced.ts:131-140 | throws exactly without a rule; skipped exactly for an optional rule with a falsy value; otherwise the event's verdict, or false without an event |
| ItemValidation.EmptyDateRangeIsValidated | resource/common/framework/logics/CsItemAdvanced.ts:132 | an empty array is truthy, so it is validated even when optional |
| ItemValidation.DateRangeAgreesWithValidateAnytime | resource/common/framework/logics/CsItemAdvanced.ts:131-140 | whenever `validateDateRange` validates, its verdict is `validateAnytime`'s on the Item's value, and no event means no error; a pair value is never skipped and `validate` agrees |
| Views.Stamp | src/framework/logics/CsView.ts:168-173 | an Item learns its key and View and nothing else; an Event is untouched |
| Views.UseCsView | src/framework/logics/CsView.ts:129-175 | readonly only when the options say true; trigger "onSubmit" only without options; an event with the given custom rules; every entry stamped in order |
| Views.IsLoading | src/framework/logics/CsView.ts:152-162 | loading exactly when some load event is loading |
| Views.ViewLoadingFollowsDefinitions | src/framework/logics/CsView.ts:152-173 | stamping does not change whether the View is loading |
| Views.ReadonlyViewForcesItems | __tests__/framework/logics/CsView.test.tsx:162-183 | in a View built readonly, every Item reports readonly |
| Views.EditableViewKeepsItemFlags | __tests__/framework/logics/CsView.test.tsx:185-206 | in an editable View, every Item reports its own flag |
| Views.TriggerDefaultOnlyWithoutOptions | src/framework/logics/CsView.ts:138-151 | options without a trigger leave it unset; no options give "onSubmit"; options without readonly give an editable View |
| Views.StampedItemsUseOwnFragment | src/framework/logics/CsView.ts:164-173 | every stamped Item whose kind has a fragment is parsed against the fragment of its own definition |
| Views.StampedItemWithoutFragmentThrows | src/framework/logics/CsView.ts:164-173 | a stamped Item whose kind has no fragment makes the schema parse throw |
| Views.RevalidateView | resource/zod/framework/logics/zod/CsZodValidationEvent.ts:250-261 | a View with an event has every entry revalidated; a View without one is unchanged |
| Views.ExecuteValidation | src/framework/logics/CsView.ts:115-127 | succeeds exactly when no View with an event has an error; no list is a success; every View is validated, with no early exit |
| Hooks.WithCustomRuleName | src/framework/logics/CsHooks.ts:47 | a name is attached only when non-empty; nothing else changes |
| Hooks.MakeStringRule | src/framework/logics/CsHooks.ts:38-49 | `required` is always set; bounds only when a minimum or maximum is truthy, with setLength's defaults; the name only when non-empty |
| Hooks.MakeNumberRule | src/framework/logics/CsHooks.ts:51-62 | as for strings, with setRange's defaults |
| Hooks.MakeStringArrayRule | src/framework/logics/CsHooks.ts:64-69 | only the flag and a non-empty name |
| Hooks.MakeNumberArrayRule | src/framework/logics/CsHooks.ts:71-76 | only the flag and a non-empty name |
| Hooks.MakeBooleanRule | src/framework/logics/CsHooks.ts:78-83 | only the flag and a non-empty name |
| Hooks.ZeroBoundsAreNoBounds | src/framework/logics/CsHooks.ts:46 | zero bounds build the same rule as no bounds; the resulting required rule rejects "" with the required message |
| Hooks.MaximumOnlyNumberRuleRejectsSmallerNumbers | src/framework/logics/CsHooks.ts:59 | `numberRule(required, undefined, max)` rejects every number below MAX_SAFE_INTEGER |
| Hooks.MakeSelectOptions | src/framework/logics/CsHooks.ts:100-106 | the options are stored unchanged; the keys default to "value" and "label" |
| Hooks.SelectOptionStrings | src/framework/logics/CsHooks.ts:108-110 | one option per input, keyed "value"/"label" |
| Hooks.SelectOptionNumbers | src/framework/logics/CsHooks.ts:112-114 | one option per input, keyed "value"/"label" |
| Hooks.SelectOptionStringsRoundTrip | src/framework/logics/CsHooks.ts:108-110 | reading the value field, or the label field, of every option gives back the input in order |
| Hooks.SelectOptionNumbersRoundTrip | src/framework/logics/CsHooks.ts:112-114 | reading the value field, or the label field, of every option gives back the input in order |
| Hooks.UseCsItem | src/framework/logics/CsHooks.ts:121-148 | label, placeholder, value and an empty message; the rule when given; options exactly on option-bearing Items; readonly exactly for `RW.Readonly` |
| Hooks.UseRangeInit | src/framework/logics/CsHooksAdvanced.ts:10-16 | the initial range value reads back as the given lower and upper bounds |
| Hooks.UseCsInputDateItem | src/framework/logics/CsHooksAdvanced.ts:18-34 | a string Item with the rule, no options and readonly from `RW` |
| Hooks.UseCsInputNumberRangeItem | src/framework/logics/CsHooksAdvanced.ts:36-55 | a number-range Item storing both placeholders as given |
| Hooks.UseCsInputDateRangeItem | src/framework/logics/CsHooksAdvanced.ts:57-76 | a date-range Item storing both placeholders as given |
| Hooks.RangeItemFromInitReadsBack | src/framework/logics/CsHooksAdvanced.ts:10-55 | a range Item started from `useRangeInit(a, b)` has lower value `a` and upper value `b` |
| Hooks.OptionsOnlyOnOptionItems | src/framework/logics/CsHooks.ts:136-145 | options given to an Item without options are dropped |
| Patterns.PostalCodeIsUnion | resource/common/framework/validation-rules/buildInCustomValidationRules.ts:52-64 | the general postal code is exactly the union of the hyphenated and plain forms |
| Patterns.PhonePatternCharacterised | resource/common/framework/validation-rules/buildInCustomValidationRules.ts:65-68 | the telephone pattern accepts exactly the strings made of digits and separators that hold at least one digit |
| Patterns.HalfAlnumCoversDigitsAndLetters | resource/common/framework/validation-rules/buildInCustomValidationRules.ts:8-27 | strings of digits, and strings of letters, are accepted by the alphanumeric rule |
| Patterns.WidthClassesNest | resource/common/framework/validation-rules/buildInCustomValidationRules.ts:20-51 | half-width kana strings are half-width; hiragana, katakana and full-width alphanumerics are full-width |
| Patterns.HalfAndFullWidthDisjoint | resource/common/framework/validation-rules/buildInCustomValidationRules.ts:32-51 | only "" is both half-width and full-width |
| Patterns.AsteriskMissingFromSymbolsAsWritten | resource/common/framework/validation-rules/buildInCustomValidationRules.ts:16-31 | as written, "*" is an alphanumeric-or-symbol string but neither alphanumeric nor a symbol |
| Patterns.AlnumSymbolIsUnion | resource/common/framework/validation-rules/buildInCustomValidationRules.ts:16-31 | with the symbol class corrected, the alphanumeric-or-symbol rule is exactly the union of the two; the phone separators are the symbols plus space |
| BuiltIns.BuiltIn | resource/common/framework/validation-rules/buildInCustomValidationRules.ts:8-11 | a string-scoped rule whose message is label plus suffix, failing undefined and deciding strings by its pattern |
| BuiltIns.HalfSymbolRule | resource/common/framework/validation-rules/buildInCustomValidationRules.ts:16-19 | the corrected symbol rule accepts exactly the strings of ASCII symbols, "*" included; it is used only by the corrected registry |
| BuiltIns.BuiltInRules | resource/common/framework/validation-rules/buildInCustomValidationRules.ts:7-69 | the registry of the program: its 半角記号 entry is the rule as written |
| BuiltIns.CorrectedBuiltInRules | resource/common/framework/validation-rules/buildInCustomValidationRules.ts:7-69 | the registry with only the 半角記号 entry replaced by the corrected rule |
| BuiltIns.SymbolRuleOnAsterisk | resource/common/framework/validation-rules/buildInCustomValidationRules.ts:16-19 | through the dispatch, "*" fails 半角記号 with the rule's message under the program's registry and passes under the corrected one |
| BuiltIns.HalfSymbolRuleAsWritten | resource/common/framework/validation-rules/buildInCustomValidationRules.ts:16-19 | the symbol rule as written rejects "*" |
| BuiltIns.BuiltInsAreStringScoped | resource/common/framework/validation-rules/buildInCustomValidationRules.ts:7-69 | every built-in admits undefined and strings and rejects numbers |
| BuiltIns.BuiltInMessagesStartWithLabel | resource/common/framework/validation-rules/buildInCustomValidationRules.ts:8-69 | every built-in message starts with the label |
| BuiltIns.DigitsRuleThroughDispatch | resource/common/framework/validation-rules/buildInCustomValidationRules.ts:8-11 | through the dispatch, a string fails 半角数字 exactly when it is not all digits; "" passes; undefined fails with the rule's message |
| BuiltIns.PostalRulesAgree | resource/common/framework/validation-rules/buildInCustomValidationRules.ts:52-64 | through the registry, the general postal-code rule accepts exactly what one of the specific ones accepts |

## Left out

- The Yup backend. Its source is not part of this model; only the Zod backend is modelled. The agreement of message wording is shown only for the too-short message.
- React state, hooks and re-rendering. Value and message cells are record fields. A message set by a step is the message in the returned verdict.
- The schema library itself. Each fragment is a small declarative value, and `Parse` returns the first issue the library reports. The e-mail format test is a parameter (`isEmail`).
- The date library. Formatting is a parameter (`formatDate`) that returns the canonical text or "Invalid Date".
- Regular-expression engines. Each built-in pattern is a predicate on characters.
- String lengths. The library counts UTF-16 code units; the model counts characters. They differ only for characters outside the Basic Multilingual Plane.
- Non-integer numbers and NaN. Numbers are `int`. MAX_SAFE_INTEGER is a named constant.
- `validateFieldMap` in `createValidationSchema`. It is built but never read.
- The generic `customValidationRule` factory. Its guard lives in CsItem.ts, which is not part of this model, and its tests show only a few sample inputs.
- The per-widget factories of CsHooks.ts (`useCsInputTextItem`, `useCsSelectBox`, …). Each calls `useCsItem` with a fixed Item class, so `Hooks.UseCsItem` with the matching `Kind` covers them. The check-box text setting is not modelled either.
- Rendering components, their event handlers, the react-query and HTTP wrappers, and the installer. An event's loading state is an input.
- A definition key that collides with a View field (`readonly`, `validateTrigger`, `isLoading`, `validationEvent`). Such a key is overwritten by the spread in `useCsView`; the model keeps definition entries separate from View fields.
- A custom rule name that names an inherited object property (such as "constructor"). In the source this finds a non-rule, and the resulting exception is swallowed. The model treats every name outside the map as unregistered.
- An optional collection fragment is not itself optional, so an undefined collection reports the library's "Required" message. The model keeps this as written.
- Views.UseCsView: the View handle is a number (`id`) rather than an object reference.
- ItemValidation.ValidateAnytimeIdempotent: stated only for Items without a custom rule name, because a custom validator or message callback may read the Item's current message.
- ZodSemantics.RevalidationIsStable: stated only for Items without a custom rule name, for the same reason.
- ItemValidation.Validate: CsItem.ts is not part of this model. The tests pin the skip only for undefined and ""; treating `[]` as nothing entered, and null, 0 and false as entered, follows the repository's description of `validate`.
- RangeItems.SetLowerValue: a previous value that is neither an array nor nullish cannot occur for a typed range Item. It is treated like a missing value.

## Findings

| source | as written | input that shows it | evidently intended | confidence | as-written member | corrected member |
|---|---|---|---|---|---|---|
| resource/common/framework/validation-rules/buildInCustomValidationRules.ts:17 | the 半角記号 class `[!-)+-/…]` runs from '!' to ')' and resumes at '+', so it omits '*' | "*" is rejected by 半角記号 and by 半角英数字, yet accepted by 半角英数字記号; "1*" is a valid 電話番号 | 半角記号 accepts every ASCII symbol, as the symbol ranges of 半角英数字記号 and 電話番号 do (`!-/`) | medium; not executed | BuiltIns.HalfSymbolRuleAsWritten, Patterns.AsteriskMissingFromSymbolsAsWritten, BuiltIns.SymbolRuleOnAsterisk | Patterns.AlnumSymbolIsUnion, BuiltIns.HalfSymbolRule, BuiltIns.CorrectedBuiltInRules |

`BuiltIns.BuiltInRules` registers the 半角記号 rule as the program does. `BuiltIns.CorrectedBuiltInRules` is the registry with the evident intent, and differs from it only in that entry.
