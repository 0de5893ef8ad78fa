/**
 * Items: a value cell bound to a label, a rule, a readonly flag and a validation-message
 * cell. The React state cells become plain fields; the back-reference to the owning View is
 * a View identifier (a non-owning handle). CsItem.ts is not part of this model; the Item
 * operations follow its tests.
 */
module Items {
  import opened Wrappers
  import opened Values
  import opened Rules

  /** The concrete Item classes, as far as the schema compiler and the option wiring distinguish them. */
  datatype Kind =
    | StringItem          // CsStringItem and its widgets (text, password, text area, date)
    | StringOptionsItem   // select box, radio box
    | NumberItem
    | NumberOptionsItem   // select-number box
    | BooleanItem         // check box
    | StringArrayItem
    | StringArrayOptionsItem  // multi check box
    | NumberArrayItem
    | NumberRangeItem
    | StringRangeItem
    | DateRangeItem

  /** An option object: a record of named fields. */
  datatype OptionRecord = OptionRecord(fields: map<string, Value>)

  datatype SelectOptions = SelectOptions(options: seq<OptionRecord>, valueKey: string, labelKey: string)

  datatype Item = Item(
    kind: Kind,
    key: Option<string>,            // stamped by the owning View
    labelText: string,          // `label` is a Dafny keyword
    value: Value,
    rule: Option<Rule>,
    readonly: bool,
    placeholder: Option<string>,
    message: string,                // the validation-message cell
    parent: Option<nat>,            // handle of the owning View, stamped by the View
    options: Option<SelectOptions>,
    lowerPlaceholder: Option<string>,
    upperPlaceholder: Option<string>,
    format: Option<string>          // date-range display format
  )

  /** What a View definition maps a key to: an Item or an Event. */
  datatype Entry =
    | ItemEntry(item: Item)
    | LoadEvent(isLoading: bool)        // query/mutate load events
    | ButtonEvent(busy: bool)           // button-click events: not load events

  datatype Binding = Binding(key: string, entry: Entry)

  /** Keys of a definition record are distinct, as the keys of a JavaScript object are. */
  ghost predicate DistinctKeys(defs: seq<Binding>) {
    forall i, j :: 0 <= i < j < |defs| ==> defs[i].key != defs[j].key
  }

  /** Items that carry select options (CsHasOptionsItem). */
  predicate HasOptions(kind: Kind) {
    kind.StringOptionsItem? || kind.NumberOptionsItem? || kind.StringArrayOptionsItem?
  }

  /** A freshly constructed Item (`new type()`), before any wiring. */
  function NewItem(kind: Kind): (r: Item)
    ensures r.kind == kind && r.message == "" && r.value == Undefined
    ensures r.key.None? && r.parent.None? && r.rule.None? && r.options.None? && !r.readonly
  {
    Item(kind, None, "", Undefined, None, false, None, "", None, None, None, None, None)
  }

  /** `setValue(v)`: commits a value; nothing else about the Item changes. */
  function SetValue(item: Item, v: Value): (r: Item)
    ensures r.value == v
    ensures r.(value := item.value) == item
  {
    item.(value := v)
  }

  /** `init(label, readonly)`: replaces the label and the readonly flag, and nothing else. */
  function Init(item: Item, labelText: string, readonly: bool): (r: Item)
    ensures r.labelText == labelText && r.readonly == readonly
    ensures r.(labelText := item.labelText, readonly := item.readonly) == item
  {
    item.(labelText := labelText, readonly := readonly)
  }

  /**
   * `isReadonly()`: a readonly View forces its Items readonly; an editable View leaves
   * each Item's own flag in charge.
   */
  predicate IsReadonly(item: Item, viewReadonly: bool)
  {
    viewReadonly || item.readonly
  }

  /** The readonly override is one-directional: it can only add readonly-ness. */
  lemma ReadonlyOverrideOneDirectional(item: Item)
    ensures IsReadonly(item, true)
    ensures IsReadonly(item, false) == item.readonly
    ensures item.readonly ==> IsReadonly(item, false)
  {
  }
}
