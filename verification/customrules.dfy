/**
 * Application-supplied custom validation rules: a validator, a message (a fixed string or a
 * function of label, value and item) and a guard, `canApplyValue`, fixed by the value shape
 * the rule is scoped to. The per-shape factories live in CsItem.ts, which is not part of
 * this model; the guards follow that file's tests.
 */
module CustomRules {
  import opened Values
  import opened Items

  /** The one value shape a custom rule is scoped to. */
  datatype Scope = StringScope | NumberScope | BooleanScope | StringArrayScope

  datatype Message =
    | StaticMessage(text: string)
    | MessageFn(make: (string, Value, Item) -> string)

  datatype CustomRule = CustomRule(scope: Scope, validator: (Value, Item) -> bool, message: Message)

  /**
   * `canApplyValue`: scalar guards accept `undefined` or their own runtime type; the
   * string-array guard accepts `undefined` or an array whose every element is a string.
   */
  predicate CanApplyValue(rule: CustomRule, v: Value)
  {
    match rule.scope
    case StringScope => v.Undefined? || v.Str?
    case NumberScope => v.Undefined? || v.Num?
    case BooleanScope => v.Undefined? || v.Bool?
    case StringArrayScope =>
      v.Undefined? || (v.Arr? && forall k :: 0 <= k < |v.elems| ==> v.elems[k].Str?)
  }

  /**
   * Each guard admits `undefined` and, of the defined values, only values of its own shape:
   * no defined value passes the guards of two different scopes.
   */
  lemma GuardsAreShapeDisjoint(r1: CustomRule, r2: CustomRule, v: Value)
    requires v != Undefined
    requires CanApplyValue(r1, v) && CanApplyValue(r2, v)
    ensures r1.scope == r2.scope
  {
  }

  /** The message a failing rule reports: the fixed text, or the callback's result. */
  function FailureMessage(rule: CustomRule, labelText: string, v: Value, item: Item): (m: string)
    ensures rule.message.StaticMessage? ==> m == rule.message.text
    ensures rule.message.MessageFn? ==> m == rule.message.make(labelText, v, item)
  {
    match rule.message
    case StaticMessage(text) => text
    case MessageFn(make) => make(labelText, v, item)
  }

  /** `createRegExpValidator(pattern)`: `undefined` fails; a string passes iff the pattern matches it. */
  function RegExpValidator(pattern: string -> bool): (validator: (Value, Item) -> bool)
    ensures forall item: Item :: !validator(Undefined, item)
    ensures forall s: string, item: Item :: validator(Str(s), item) == pattern(s)
  {
    (v: Value, item: Item) => v.Str? && pattern(v.s)
  }

  function StringCustomValidationRule(validator: (Value, Item) -> bool, message: Message): (r: CustomRule)
    ensures CanApplyValue(r, Undefined)
    ensures forall s :: CanApplyValue(r, Str(s))
    ensures forall n :: !CanApplyValue(r, Num(n))
    ensures forall b :: !CanApplyValue(r, Bool(b))
  {
    CustomRule(StringScope, validator, message)
  }

  function NumberCustomValidationRule(validator: (Value, Item) -> bool, message: Message): (r: CustomRule)
    ensures CanApplyValue(r, Undefined)
    ensures forall n :: CanApplyValue(r, Num(n))
    ensures forall s :: !CanApplyValue(r, Str(s))
  {
    CustomRule(NumberScope, validator, message)
  }

  function BooleanCustomValidationRule(validator: (Value, Item) -> bool, message: Message): (r: CustomRule)
    ensures CanApplyValue(r, Undefined)
    ensures forall b :: CanApplyValue(r, Bool(b))
    ensures forall s :: !CanApplyValue(r, Str(s))
  {
    CustomRule(BooleanScope, validator, message)
  }

  function StringArrayCustomValidationRule(validator: (Value, Item) -> bool, message: Message): (r: CustomRule)
    ensures CanApplyValue(r, Undefined)
    ensures forall n :: !CanApplyValue(r, Num(n))
    ensures !CanApplyValue(r, Obj)
    ensures forall es: seq<Value> :: CanApplyValue(r, Arr(es)) <==> (forall k :: 0 <= k < |es| ==> es[k].Str?)
  {
    CustomRule(StringArrayScope, validator, message)
  }

  /** The mixed array of the guard tests is rejected by the string-array guard. */
  lemma StringArrayGuardRejectsMixed(validator: (Value, Item) -> bool, message: Message)
    ensures !CanApplyValue(StringArrayCustomValidationRule(validator, message), Arr([Str("test"), Num(1), Obj]))
    ensures CanApplyValue(StringArrayCustomValidationRule(validator, message), Arr([Str("sample")]))
  {
    var r := StringArrayCustomValidationRule(validator, message);
    assert Arr([Str("test"), Num(1), Obj]).elems[1] == Num(1);
  }
}
