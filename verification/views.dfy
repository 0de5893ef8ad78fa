/**
 * Views (CsView): a keyed record of Items and Events plus a readonly flag, a validation
 * trigger and a validation event. A View is built by `useCsView`, which compiles the
 * validation event from the definitions and stamps every Item with its key and its View.
 */
module Views {
  import opened Wrappers
  import opened Values
  import opened Rules
  import opened Items
  import opened CustomRules
  import opened ValidationEvent
  import opened ZodEvent

  datatype Trigger = OnSubmit | OnBlur

  /** The options record of `useCsView`; each field may be left out. */
  datatype ViewOptions = ViewOptions(readonly: Option<bool>, customRules: Option<map<string, CustomRule>>,
                                     trigger: Option<Trigger>)

  /** The options used when none are passed at all. */
  const DEFAULT_OPTIONS: ViewOptions := ViewOptions(Some(false), None, Some(OnSubmit))

  /** A View; `id` is the handle its Items' `parent` refers to, and the event may be detached (None). */
  datatype View = View(id: nat, readonly: bool, trigger: Option<Trigger>, event: Option<ZodEvent>, entries: seq<Binding>)

  /** The stamping step: an Item learns its key and its owning View; Events are left alone. */
  function Stamp(id: nat, b: Binding): (r: Binding)
    ensures r.key == b.key
    ensures !b.entry.ItemEntry? ==> r == b
    ensures b.entry.ItemEntry? ==>
              && r.entry.ItemEntry?
              && r.entry.item.key == Some(b.key) && r.entry.item.parent == Some(id)
              && r.entry.item.(key := b.entry.item.key, parent := b.entry.item.parent) == b.entry.item
  {
    match b.entry
    case ItemEntry(item) => Binding(b.key, ItemEntry(item.(key := Some(b.key), parent := Some(id))))
    case _ => b
  }

  /**
   * `useCsView(definitions, options?)`. Without options the View is editable with trigger
   * "onSubmit"; with options, a missing readonly flag means editable but a missing trigger
   * stays missing. The event is compiled from the definitions before the Items are stamped;
   * the compiled schema does not depend on the stamps.
   */
  function UseCsView(id: nat, defs: seq<Binding>, options: Option<ViewOptions>, isEmail: string -> bool): (v: View)
    requires DistinctKeys(defs)
    ensures v.id == id
    ensures v.readonly <==> options.Some? && options.value.readonly == Some(true)
    ensures options.None? ==> v.trigger == Some(OnSubmit)
    ensures options.Some? ==> v.trigger == options.value.trigger
    ensures v.event.Some? && v.event.value.customRules == (if options.Some? then options.value.customRules else None)
    ensures |v.entries| == |defs|
    ensures forall i :: 0 <= i < |defs| ==> v.entries[i] == Stamp(id, defs[i])
  {
    var opts := options.GetOr(DEFAULT_OPTIONS);
    var event := UseCsZodValidationEvent(defs, opts.customRules, isEmail);
    View(id, opts.readonly.GetOr(false), opts.trigger, Some(event),
         seq(|defs|, i requires 0 <= i < |defs| => Stamp(id, defs[i])))
  }

  /** `isLoading`: some load event of the definitions is loading; button events never count. */
  function IsLoading(entries: seq<Binding>): (r: bool)
    ensures r <==> exists i :: 0 <= i < |entries| && entries[i].entry == LoadEvent(true)
  {
    if |entries| == 0 then false
    else entries[0].entry == LoadEvent(true) || IsLoading(entries[1..])
  }

  /** A View is loading exactly when its definitions were: stamping does not touch Events. */
  lemma ViewLoadingFollowsDefinitions(id: nat, defs: seq<Binding>, options: Option<ViewOptions>,
                                                         isEmail: string -> bool)
    requires DistinctKeys(defs)
    ensures IsLoading(UseCsView(id, defs, options, isEmail).entries) == IsLoading(defs)
  {
    var entries := UseCsView(id, defs, options, isEmail).entries;
    forall i | 0 <= i < |defs| ensures entries[i].entry == LoadEvent(true) <==> defs[i].entry == LoadEvent(true) {
    }
  }

  /** Every Item of a View built as readonly reports readonly, whatever its own flag. */
  lemma ReadonlyViewForcesItems(id: nat, defs: seq<Binding>, customRules: Option<map<string, CustomRule>>,
                                trigger: Option<Trigger>, isEmail: string -> bool)
    requires DistinctKeys(defs)
    ensures var v := UseCsView(id, defs, Some(ViewOptions(Some(true), customRules, trigger)), isEmail);
            forall i :: 0 <= i < |v.entries| && v.entries[i].entry.ItemEntry? ==>
              IsReadonly(v.entries[i].entry.item, v.readonly)
  {
  }

  /** In an editable View each Item keeps its own readonly flag. */
  lemma EditableViewKeepsItemFlags(id: nat, defs: seq<Binding>, isEmail: string -> bool)
    requires DistinctKeys(defs)
    ensures var v := UseCsView(id, defs, None, isEmail);
            forall i :: 0 <= i < |defs| && defs[i].entry.ItemEntry? ==>
              IsReadonly(v.entries[i].entry.item, v.readonly) == defs[i].entry.item.readonly
  {
  }

  /** Options given without a trigger leave the trigger unset, unlike giving no options at all. */
  lemma TriggerDefaultOnlyWithoutOptions(id: nat, defs: seq<Binding>, isEmail: string -> bool)
    requires DistinctKeys(defs)
    ensures UseCsView(id, defs, None, isEmail).trigger == Some(OnSubmit)
    ensures UseCsView(id, defs, Some(ViewOptions(None, None, None)), isEmail).trigger.None?
    ensures !UseCsView(id, defs, Some(ViewOptions(None, None, None)), isEmail).readonly
  {
  }

  /**
   * Every stamped Item of a View whose kind has a fragment is parsed against the fragment
   * compiled from its own definition.
   */
  lemma StampedItemsUseOwnFragment(id: nat, defs: seq<Binding>, options: Option<ViewOptions>,
                                   isEmail: string -> bool, i: int, v: Value)
    requires DistinctKeys(defs)
    requires 0 <= i < |defs| && defs[i].entry.ItemEntry?
    requires FragmentFor(defs[i].entry.item).Some?
    ensures var view := UseCsView(id, defs, options, isEmail);
            var item := view.entries[i].entry.item;
            SchemaParse(view.event.value, item, v) ==
              match Parse(FragmentFor(defs[i].entry.item).value, ZodInput(v), isEmail)
              case None => Passed
              case Some(m) => Failed(m)
  {
    var view := UseCsView(id, defs, options, isEmail);
    var ev := UseCsZodValidationEvent(defs, options.GetOr(DEFAULT_OPTIONS).customRules, isEmail);
    assert view.event == Some(ev);
    var item := view.entries[i].entry.item;
    assert item.key == Some(defs[i].key);
    assert defs[i].key in ev.schema && ev.schema[defs[i].key] == FragmentFor(defs[i].entry.item).value;
  }

  /** A stamped Item whose kind compiles to no fragment makes parsing throw. */
  lemma StampedItemWithoutFragmentThrows(id: nat, defs: seq<Binding>, options: Option<ViewOptions>,
                                         isEmail: string -> bool, i: int, v: Value)
    requires DistinctKeys(defs)
    requires 0 <= i < |defs| && defs[i].entry.ItemEntry?
    requires FragmentFor(defs[i].entry.item).None?
    ensures var view := UseCsView(id, defs, options, isEmail);
            SchemaParse(view.event.value, view.entries[i].entry.item, v).Thrown?
  {
    var view := UseCsView(id, defs, options, isEmail);
    var item := view.entries[i].entry.item;
    assert FragmentFor(item) == FragmentFor(defs[i].entry.item);
    assert defs[i].key in view.event.value.schema <==> BindingFragment(defs[i]).Some?;
  }

  // ---------------------------------------------------------------- executeValidation

  predicate ViewHasError(view: View) {
    view.event.Some? && exists j :: 0 <= j < |view.entries| && EntryHasError(view.event.value, view.entries[j])
  }

  /** A View after its event has re-validated every Item; a View without an event is untouched. */
  function RevalidateView(view: View): (r: View)
    ensures view.event.None? ==> r == view
    ensures r.(entries := view.entries) == view
    ensures |r.entries| == |view.entries|
    ensures view.event.Some? ==> forall j :: 0 <= j < |view.entries| ==> r.entries[j] == Revalidate(view.event.value, view.entries[j])
  {
    match view.event
    case None => view
    case Some(ev) =>
      view.(entries := seq(|view.entries|, j requires 0 <= j < |view.entries| => Revalidate(ev, view.entries[j])))
  }

  /**
   * `executeValidation(views?)`: runs every View's validation, without stopping at the
   * first failure, so every Item's message is refreshed; succeeds exactly when no View with
   * an event found an error. No list at all is a success.
   */
  method ExecuteValidation(views: Option<seq<View>>) returns (ok: bool, validated: seq<View>)
    ensures views.None? ==> ok && validated == []
    ensures views.Some? ==> |validated| == |views.value|
    ensures views.Some? ==> forall i :: 0 <= i < |views.value| ==> validated[i] == RevalidateView(views.value[i])
    ensures ok <==> views.None? || forall i :: 0 <= i < |views.value| ==> !ViewHasError(views.value[i])
  {
    ok := true;
    validated := [];
    if views.None? {
      return;
    }
    var vs := views.value;
    var i := 0;
    while i < |vs|
      invariant 0 <= i <= |vs|
      invariant |validated| == i
      invariant forall k :: 0 <= k < i ==> validated[k] == RevalidateView(vs[k])
      invariant ok <==> forall k :: 0 <= k < i ==> !ViewHasError(vs[k])
    {
      var view := vs[i];
      var next := view;
      if view.event.Some? {
        var hasError, updated := OnValidateHasError(view.event.value, view.entries);
        if hasError {
          ok := false;
        }
        next := view.(entries := updated);
      }
      validated := validated + [next];
      i := i + 1;
    }
  }
}
