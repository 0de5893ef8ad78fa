/**
 * What the compiled fragments mean, stated directly on the rules they are built from, and
 * how the three validation steps of an Item take precedence over each other.
 */
module ZodSemantics {
  import opened Wrappers
  import opened Values
  import opened Rules
  import opened Items
  import opened CustomRules
  import opened ValidationEvent
  import opened ZodEvent

  // ---------------------------------------------------------------- strings

  /** What a string rule admits: undefined when optional, or a string meeting every configured check. */
  predicate StringRuleAdmits(rule: Rule, v: Value, isEmail: string -> bool)
    requires rule.StringRule?
  {
    || (v.Undefined? && !rule.required)
    || (&& v.Str?
        && (EffectiveMinLength(rule).None? || |v.s| >= EffectiveMinLength(rule).value)
        && (rule.max.None? || |v.s| <= rule.max.value)
        && (!rule.email || isEmail(v.s)))
  }

  lemma StringConstraintAdmits(labelText: string, rule: Rule, v: Value, isEmail: string -> bool)
    requires rule.StringRule?
    ensures Parse(CreateStringConstraint(labelText, rule), v, isEmail).None? <==> StringRuleAdmits(rule, v, isEmail)
  {
    var checks := CreateStringConstraint(labelText, rule).scalar.stringChecks;
    if v.Str? {
      var s := v.s;
      var allPass := forall k :: 0 <= k < |checks| ==> !StringCheckFails(checks[k], s, isEmail);
      var minOk := EffectiveMinLength(rule).None? || |s| >= EffectiveMinLength(rule).value;
      var maxOk := rule.max.None? || |s| <= rule.max.value;
      var emailOk := !rule.email || isEmail(s);
      var nMin := if EffectiveMinLength(rule).Some? then 1 else 0;
      var nMax := if rule.max.Some? then 1 else 0;
      assert |checks| == nMin + nMax + (if rule.email then 1 else 0);
      assert nMin == 1 ==> checks[0] == MinLength(checks[0].bound) && checks[0].bound.limit == EffectiveMinLength(rule).value;
      assert nMax == 1 ==> checks[nMin] == MaxLength(checks[nMin].bound) && checks[nMin].bound.limit == rule.max.value;
      assert rule.email ==> checks[nMin + nMax].EmailFormat?;
      if allPass {
        if nMin == 1 { assert !StringCheckFails(checks[0], s, isEmail); }
        if nMax == 1 { assert !StringCheckFails(checks[nMin], s, isEmail); }
        if rule.email { assert !StringCheckFails(checks[nMin + nMax], s, isEmail); }
      }
      if minOk && maxOk && emailOk {
        forall k | 0 <= k < |checks| ensures !StringCheckFails(checks[k], s, isEmail) {
          if k < nMin {
          } else if k < nMin + nMax {
          } else {
          }
        }
      }
    }
  }

  /** The empty string reaches the fragment as undefined: the required message when required, a pass otherwise. */
  lemma EmptyStringOnStringFragment(labelText: string, rule: Rule, isEmail: string -> bool)
    requires rule.StringRule?
    ensures rule.required ==>
              Parse(CreateStringConstraint(labelText, rule), ZodInput(Str("")), isEmail) == Some(RequiredMessage(labelText))
    ensures !rule.required ==> Parse(CreateStringConstraint(labelText, rule), ZodInput(Str("")), isEmail).None?
  {
  }

  /** A configured minimum other than a required 1 reports the too-short message, naming the minimum. */
  lemma TooShortReported(labelText: string, rule: Rule, s: string, isEmail: string -> bool)
    requires rule.StringRule? && rule.min.Some?
    requires !(rule.min.value == 1 && rule.required)
    requires |s| < rule.min.value
    ensures Parse(CreateStringConstraint(labelText, rule), Str(s), isEmail) == Some(TooShortMessage(labelText, rule.min.value))
  {
  }

  /** With the minimum met, an over-long string reports the too-long message, naming the maximum. */
  lemma TooLongReported(labelText: string, rule: Rule, s: string, isEmail: string -> bool)
    requires rule.StringRule? && rule.max.Some?
    requires EffectiveMinLength(rule).None? || |s| >= EffectiveMinLength(rule).value
    requires |s| > rule.max.value
    ensures Parse(CreateStringConstraint(labelText, rule), Str(s), isEmail) == Some(TooLongMessage(labelText, rule.max.value))
  {
    var checks := CreateStringConstraint(labelText, rule).scalar.stringChecks;
    if EffectiveMinLength(rule).Some? {
      assert !StringCheckFails(checks[0], s, isEmail);
      var rest := checks[1..];
      assert rest[0] == MaxLength(Bound(rule.max.value, TooLongMessage(labelText, rule.max.value)));
      assert FirstStringIssue(checks, s, isEmail) == FirstStringIssue(rest, s, isEmail);
    } else {
      assert checks[0] == MaxLength(Bound(rule.max.value, TooLongMessage(labelText, rule.max.value)));
    }
  }

  // ---------------------------------------------------------------- numbers

  /** What a number rule admits on a single number: every defined bound, inclusive, 0 included. */
  predicate NumberRuleAdmits(rule: Rule, v: Value)
    requires rule.NumberRule?
  {
    || (v.Undefined? && !rule.required)
    || (v.Num? && (rule.min.None? || v.n >= rule.min.value) && (rule.max.None? || v.n <= rule.max.value))
  }

  lemma NumberConstraintAdmits(labelText: string, rule: Rule, v: Value, isEmail: string -> bool)
    requires rule.NumberRule?
    ensures Parse(CreateNumberConstraint(labelText, rule), v, isEmail).None? <==> NumberRuleAdmits(rule, v)
  {
    var checks := CreateNumberConstraint(labelText, rule).scalar.numberChecks;
    if v.Num? && rule.min.Some? && rule.max.Some? {
      assert checks[0].MinValue? && checks[1].MaxValue?;
    }
  }

  /** Below the minimum, the too-small message names the minimum. */
  lemma TooSmallReported(labelText: string, rule: Rule, n: int, isEmail: string -> bool)
    requires rule.NumberRule? && rule.min.Some? && n < rule.min.value
    ensures Parse(CreateNumberConstraint(labelText, rule), Num(n), isEmail) == Some(TooSmallMessage(labelText, rule.min.value))
  {
  }

  /**
   * A number rule given only a maximum through `setRange` gets MAX_SAFE_INTEGER as its
   * minimum, so every smaller number is rejected as too small.
   */
  lemma MaximumOnlyRangeRejectsSmallerNumbers(labelText: string, rule: Rule, max: int, n: int, isEmail: string -> bool)
    requires rule.NumberRule? && n < MAX_SAFE_INTEGER
    ensures var r := SetRange(rule, None, Some(max));
            Parse(CreateNumberConstraint(labelText, r), Num(n), isEmail) == Some(TooSmallMessage(labelText, MAX_SAFE_INTEGER))
  {
    TooSmallReported(labelText, SetRange(rule, None, Some(max)), n, isEmail);
  }

  // ---------------------------------------------------------------- number arrays and ranges

  /** A bound the array builder honours: defined and non-zero. */
  predicate TruthyBound(b: Option<int>) {
    b.Some? && b.value != 0
  }

  predicate NumberElementAdmits(rule: Rule, e: Value)
    requires rule.NumberRule?
  {
    || (e.Undefined? && !rule.required)
    || (e.Num? && (!TruthyBound(rule.min) || e.n >= rule.min.value) && (!TruthyBound(rule.max) || e.n <= rule.max.value))
  }

  lemma NumberArrayConstraintAdmits(labelText: string, rule: Rule, v: Value, isEmail: string -> bool)
    requires rule.NumberRule?
    ensures Parse(CreateNumberArrayConstraint(labelText, rule), v, isEmail).None? <==>
              v.Arr? && forall k :: 0 <= k < |v.elems| ==> NumberElementAdmits(rule, v.elems[k])
  {
    var sc := CreateNumberArrayConstraint(labelText, rule).element;
    if v.Arr? {
      forall k | 0 <= k < |v.elems|
        ensures ParseScalar(sc, v.elems[k], isEmail).None? <==> NumberElementAdmits(rule, v.elems[k])
      {
        var e := v.elems[k];
        if e.Num? && TruthyBound(rule.min) && TruthyBound(rule.max) {
          assert sc.numberChecks[0].MinValue? && sc.numberChecks[1].MaxValue?;
        }
      }
    }
  }

  /**
   * A bound of 0 is enforced on a single number but ignored on number arrays and ranges:
   * with minimum 0, -1 is rejected alone and accepted inside an array.
   */
  lemma ZeroBoundIgnoredByArrays(labelText: string, isEmail: string -> bool)
    ensures var rule := NumberRule(false, Some(0), None, None);
            && Parse(CreateNumberConstraint(labelText, rule), Num(-1), isEmail).Some?
            && Parse(CreateNumberArrayConstraint(labelText, rule), Arr([Num(-1)]), isEmail).None?
  {
    var rule := NumberRule(false, Some(0), None, None);
    NumberArrayConstraintAdmits(labelText, rule, Arr([Num(-1)]), isEmail);
  }

  // ---------------------------------------------------------------- string arrays and date ranges

  /** An element a collection fragment admits: a string, or a missing element when not required. */
  predicate CollectionElementAdmits(required: bool, e: Value) {
    e.Str? || (!required && e.Undefined?)
  }

  lemma StringArrayConstraintAdmits(labelText: string, rule: Rule, v: Value, isEmail: string -> bool)
    requires rule.StringArrayRule?
    ensures Parse(CreateStringArrayConstraint(labelText, rule), v, isEmail).None? <==>
              && v.Arr?
              && (rule.required ==> |v.elems| >= 1)
              && forall k :: 0 <= k < |v.elems| ==> CollectionElementAdmits(rule.required, v.elems[k])
  {
  }

  /** A required selection that is empty reports the selection message. */
  lemma EmptySelectionReported(labelText: string, rule: Rule, isEmail: string -> bool)
    requires rule.StringArrayRule? && rule.required
    ensures Parse(CreateStringArrayConstraint(labelText, rule), Arr([]), isEmail) == Some(NoSelectionMessage(labelText))
  {
  }

  lemma DateRangeConstraintAdmits(labelText: string, rule: Rule, v: Value, isEmail: string -> bool)
    requires rule.StringArrayRule?
    ensures Parse(CreateDateRangeConstraint(labelText, rule), v, isEmail).None? <==>
              && v.Arr?
              && (rule.required ==> |v.elems| == 2)
              && forall k :: 0 <= k < |v.elems| ==> CollectionElementAdmits(rule.required, v.elems[k])
  {
  }

  /** A required date range with a missing bound, or of the wrong length, reports the same message. */
  lemma DateRangeMissingBoundReported(labelText: string, rule: Rule, lower: string, isEmail: string -> bool)
    requires rule.StringArrayRule? && rule.required
    ensures Parse(CreateDateRangeConstraint(labelText, rule), Arr([Str(lower), Undefined]), isEmail)
            == Some(DateRangeRequiredMessage(labelText))
    ensures Parse(CreateDateRangeConstraint(labelText, rule), Arr([Str(lower)]), isEmail)
            == Some(DateRangeRequiredMessage(labelText))
  {
    var f := CreateDateRangeConstraint(labelText, rule);
    assert [Str(lower), Undefined][1..] == [Undefined];
    assert FirstElementIssue(f.element, [Undefined], isEmail) == Some(DateRangeRequiredMessage(labelText));
  }

  // ---------------------------------------------------------------- compiled events

  /**
   * After compilation, an Item stamped with its definition key is parsed against the
   * fragment built from that definition, and an Item without one makes parsing throw.
   */
  lemma CompiledEventParsesOwnFragment(defs: seq<Binding>, customRules: Option<map<string, CustomRule>>,
                                       isEmail: string -> bool, i: int, item: Item, v: Value)
    requires DistinctKeys(defs)
    requires 0 <= i < |defs| && item.key == Some(defs[i].key)
    ensures var ev := UseCsZodValidationEvent(defs, customRules, isEmail);
            && (BindingFragment(defs[i]).None? ==> SchemaParse(ev, item, v).Thrown?)
            && (BindingFragment(defs[i]).Some? ==>
                  SchemaParse(ev, item, v) ==
                    match Parse(BindingFragment(defs[i]).value, ZodInput(v), isEmail)
                    case None => Passed
                    case Some(m) => Failed(m))
  {
  }

  /**
   * End to end: a required string Item holding the empty string reports the required
   * message, custom rules notwithstanding, since the required check skips them.
   */
  lemma RequiredEmptyStringReportsRequiredMessage(ev: ZodEvent, item: Item)
    requires item.rule.Some? && item.rule.value.StringRule? && item.rule.value.required
    requires item.key.Some? && item.key.value in ev.schema
    requires ev.schema[item.key.value] == CreateStringConstraint(item.labelText, item.rule.value)
    ensures OnValidateItemHasError(ev, Str(""), item) == Verdict(true, RequiredMessage(item.labelText))
  {
    EmptyStringOnStringFragment(item.labelText, item.rule.value, ev.isEmail);
  }

  // ---------------------------------------------------------------- precedence

  /** A failing required check makes the custom rules irrelevant. */
  lemma RequiredFailureSkipsCustomRules(ev: ZodEvent, other: Option<map<string, CustomRule>>, v: Value, item: Item)
    requires RequiredCheckHasError(v, item)
    ensures OnValidateItemHasError(ev, v, item) == OnValidateItemHasError(ev.(customRules := other), v, item)
  {
  }

  /** A custom-rule error makes the schema irrelevant: it is the final verdict. */
  lemma CustomFailureSkipsSchema(ev: ZodEvent, other: map<string, Schema>, v: Value, item: Item)
    requires !RequiredCheckHasError(v, item)
    requires CustomValidateItemHasError(ev.customRules, v, item).hasError
    ensures OnValidateItemHasError(ev, v, item) == CustomValidateItemHasError(ev.customRules, v, item)
    ensures OnValidateItemHasError(ev.(schema := other), v, item) == OnValidateItemHasError(ev, v, item)
  {
  }

  /** Without a custom rule name, validating again with the message just produced gives the same verdict. */
  lemma RevalidationIsStable(ev: ZodEvent, v: Value, item: Item)
    requires !HasCustomRuleName(item)
    ensures var r := OnValidateItemHasError(ev, v, item);
            OnValidateItemHasError(ev, v, item.(message := r.message)) == r
  {
  }

  // ---------------------------------------------------------------- reset

  lemma ResetErrorIdempotent(entries: seq<Binding>, name: Option<string>)
    ensures ResetError(ResetError(entries, name), name) == ResetError(entries, name)
  {
    var once := ResetError(entries, name);
    var twice := ResetError(once, name);
    forall i | 0 <= i < |entries| ensures twice[i] == once[i] {
      assert ResetTargets(once[i], name) <==> ResetTargets(entries[i], name);
    }
  }

  /** Resetting without a name leaves no Item with a message; events are kept as they were. */
  lemma ResetAllClearsEveryItem(entries: seq<Binding>)
    ensures var r := ResetError(entries, None);
            forall i :: 0 <= i < |entries| ==>
              if entries[i].entry.ItemEntry? then r[i].entry.ItemEntry? && r[i].entry.item.message == ""
              else r[i] == entries[i]
  {
  }

  /** Validating and then resetting every message leaves every Item error-free as far as its message shows. */
  lemma ResetAfterValidationClearsMessages(ev: ZodEvent, entries: seq<Binding>)
    ensures var validated := seq(|entries|, i requires 0 <= i < |entries| => Revalidate(ev, entries[i]));
            var r := ResetError(validated, None);
            forall i :: 0 <= i < |entries| && entries[i].entry.ItemEntry? ==> r[i].entry.item.message == ""
  {
  }
}
