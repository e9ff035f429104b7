/**
 * The `Select` component: the options a search leaves visible, which values
 * count as selected, the label on the trigger, and the value emitted when an
 * option is picked or the selection is cleared. The value is a prop, so the
 * picking and clearing operations return what `onChange` receives; the
 * component's own state is the open flag and the search text.
 */
module Select {
  import opened Wrappers
  import opened Seqs
  import opened Text

  /** `SelectOption<T>`; `caption` is its `label` (a reserved word here). */
  datatype SelectOption<T> = SelectOption(caption: string, value: T, disabled: bool)

  /** `SelectValue<T, Multiple>`: `undefined`, one value, or an array of values. */
  datatype SelectValue<T> = NoValue | One(v: T) | Many(vs: seq<T>)

  /** The value has the shape the `multiple` flag calls for. */
  predicate FitsMode<T>(multiple: bool, value: SelectValue<T>) {
    value.NoValue? || (multiple <==> value.Many?)
  }

  /** The option's lower-cased label or value text contains `term`. */
  predicate OptionMatches<T>(o: SelectOption<T>, term: string, text: T -> string) {
    Contains(Lower(o.caption), term) || Contains(Lower(text(o.value)), term)
  }

  /** `filteredOptions`; `text` is `String(value)`. */
  function FilteredOptions<T(!new)>(options: seq<SelectOption<T>>, searchable: bool, search: string, text: T -> string): (r: seq<SelectOption<T>>)
    ensures !searchable || search == "" ==> r == options
    ensures forall o :: o in r <==> o in options && (!searchable || search == "" || OptionMatches(o, Lower(search), text))
  {
    if !searchable || search == "" then options
    else Filter((o: SelectOption<T>) => OptionMatches(o, Lower(search), text), options)
  }

  /** The visible options keep the order of `options`. */
  lemma FilteredOptionsInOrder<T(!new)>(options: seq<SelectOption<T>>, searchable: bool, search: string, text: T -> string)
    ensures IsSubsequence(FilteredOptions(options, searchable, search, text), options)
  {
    if searchable && search != "" {
      FilterIsSubsequence((o: SelectOption<T>) => OptionMatches(o, Lower(search), text), options);
    } else {
      SubsequenceOfItself(options);
    }
  }

  lemma {:induction false} SubsequenceOfItself<T>(s: seq<T>)
    ensures IsSubsequence(s, s)
  {
    if s != [] {
      SubsequenceOfItself(s[1..]);
    }
  }

  /** `isSelected(val)`. */
  predicate IsSelected<T(==)>(multiple: bool, value: SelectValue<T>, val: T) {
    if multiple then value.Many? && val in value.vs else value == One(val)
  }

  /** `hasValue`. */
  predicate HasValue<T>(multiple: bool, value: SelectValue<T>) {
    if multiple then value.Many? && |value.vs| > 0 else !value.NoValue?
  }

  /** `options.find((o) => o.value === value)?.label ?? placeholder`. */
  function FindLabel<T(==)>(options: seq<SelectOption<T>>, v: T, placeholder: string): (r: string)
    ensures (exists i :: 0 <= i < |options| && options[i].value == v) ==>
      exists i :: 0 <= i < |options| && options[i].value == v && r == options[i].caption &&
        forall j :: 0 <= j < i ==> options[j].value != v
    ensures (forall i :: 0 <= i < |options| ==> options[i].value != v) ==> r == placeholder
  {
    if options == [] then placeholder
    else if options[0].value == v then options[0].caption
    else
      var r := FindLabel(options[1..], v, placeholder);
      assert forall i :: 1 <= i < |options| ==> options[i] == options[1..][i - 1];
      r
  }

  /** `selectedLabel`. */
  function SelectedLabel<T(==)>(multiple: bool, value: SelectValue<T>, options: seq<SelectOption<T>>, placeholder: string): (r: string)
    requires FitsMode(multiple, value)
    ensures value.NoValue? ==> r == placeholder
    ensures value.One? && (forall i :: 0 <= i < |options| ==> options[i].value != value.v) ==> r == placeholder
  {
    match value
    case NoValue => placeholder
    case Many(vs) =>
      var selected := Filter((o: SelectOption<T>) => o.value in vs, options);
      if |selected| == 0 then placeholder
      else if |selected| == 1 then selected[0].caption
      else NatToString(|selected|) + " selected"
    case One(v) => FindLabel(options, v, placeholder)
  }

  /**
   * In multiple mode the label is the placeholder when no option is
   * selected, the option's own label when one is, and "<n> selected" beyond.
   */
  lemma MultipleLabel<T>(vs: seq<T>, options: seq<SelectOption<T>>, placeholder: string)
    ensures var selected := Filter((o: SelectOption<T>) => o.value in vs, options);
      var r := SelectedLabel(true, Many(vs), options, placeholder);
      (|selected| == 0 <==> r == placeholder && forall o :: o in options ==> o.value !in vs) &&
      (|selected| == 1 ==> selected[0] in options && selected[0].value in vs && r == selected[0].caption) &&
      (|selected| >= 2 ==> r == NatToString(|selected|) + " selected")
  {
    var selected := Filter((o: SelectOption<T>) => o.value in vs, options);
    if |selected| > 0 {
      assert selected[0] in selected;
    }
  }

  /** The multiple-mode toggle: drop `v` when present, append it otherwise. */
  function ToggleValue<T(==,!new)>(arr: seq<T>, v: T): (r: seq<T>)
    ensures v in r <==> v !in arr
    ensures forall x :: x != v ==> (x in r <==> x in arr)
  {
    if v in arr then Filter((x: T) => x != v, arr) else arr + [v]
  }

  /** Toggling an absent value twice restores the array. */
  lemma ToggleTwiceAbsent<T(!new)>(arr: seq<T>, v: T)
    requires v !in arr
    ensures ToggleValue(ToggleValue(arr, v), v) == arr
  {
    var once := arr + [v];
    FilterAppend((x: T) => x != v, arr, [v]);
    FilterKeepsAll((x: T) => x != v, arr);
  }

  /** Toggling a present value twice keeps the same values but moves it to the end. */
  lemma ToggleTwicePresent<T(!new)>(arr: seq<T>, v: T)
    requires v in arr
    ensures ToggleValue(ToggleValue(arr, v), v) == Filter((x: T) => x != v, arr) + [v]
  {
  }

  /** `selectOption(option)`: what `onChange` receives, or `None` when it is not called. */
  function SelectOptionEmit<T(==,!new)>(multiple: bool, value: SelectValue<T>, option: SelectOption<T>): (r: Option<SelectValue<T>>)
    requires FitsMode(multiple, value)
    ensures option.disabled <==> r.None?
    ensures r.Some? ==> FitsMode(multiple, r.value)
  {
    if option.disabled then None
    else if multiple then Some(Many(ToggleValue(if value.Many? then value.vs else [], option.value)))
    else Some(One(option.value))
  }

  /**
   * Picking an enabled option selects it exactly when it was not selected
   * (multiple) or always (single); other values keep their state in
   * multiple mode and are deselected in single mode.
   */
  lemma SelectOptionEffect<T(!new)>(multiple: bool, value: SelectValue<T>, option: SelectOption<T>, x: T)
    requires FitsMode(multiple, value) && !option.disabled
    ensures var next := SelectOptionEmit(multiple, value, option).value;
      (multiple ==> (x == option.value ==> (IsSelected(multiple, next, x) <==> !IsSelected(multiple, value, x))) &&
                    (x != option.value ==> (IsSelected(multiple, next, x) <==> IsSelected(multiple, value, x)))) &&
      (!multiple ==> (IsSelected(multiple, next, x) <==> x == option.value))
  {
  }

  /** `clearValue`: `[]` in multiple mode, `undefined` otherwise. */
  function ClearValue<T>(multiple: bool): (r: SelectValue<T>)
    ensures FitsMode(multiple, r) && !HasValue(multiple, r)
  {
    if multiple then Many([]) else NoValue
  }

  /** After clearing, the trigger shows the placeholder. */
  lemma ClearShowsPlaceholder<T>(multiple: bool, options: seq<SelectOption<T>>, placeholder: string)
    ensures SelectedLabel(multiple, ClearValue<T>(multiple), options, placeholder) == placeholder
  {
    if multiple {
      FilterKeepsNone((o: SelectOption<T>) => o.value in [], options);
    }
  }

  /** The dropdown's own state. */
  class SelectState {
    var isOpen: bool
    var search: string

    constructor ()
      ensures !isOpen && search == ""
    {
      isOpen := false;
      search := "";
    }

    /** `toggle`: flips the open flag unless the select is disabled; returns what `onOpenChange` receives. */
    method Toggle(disabled: bool) returns (notified: Option<bool>)
      modifies this
      ensures disabled ==> isOpen == old(isOpen) && notified.None?
      ensures !disabled ==> isOpen == !old(isOpen) && notified == Some(isOpen)
      ensures search == old(search)
    {
      if disabled {
        return None;
      }
      isOpen := !isOpen;
      notified := Some(isOpen);
    }

    /** A pick emits `SelectOptionEmit`; in single mode an enabled pick also closes the list. */
    method Pick<T(==,!new)>(multiple: bool, value: SelectValue<T>, option: SelectOption<T>) returns (emitted: Option<SelectValue<T>>)
      requires FitsMode(multiple, value)
      modifies this
      ensures emitted == SelectOptionEmit(multiple, value, option)
      ensures isOpen == (if !option.disabled && !multiple then false else old(isOpen))
      ensures search == old(search)
    {
      emitted := SelectOptionEmit(multiple, value, option);
      if !option.disabled && !multiple {
        isOpen := false;
      }
    }

    /** Escape or a click outside closes the list. */
    method Close()
      modifies this
      ensures !isOpen && search == old(search)
    {
      isOpen := false;
    }

    method SetSearch(text: string)
      modifies this
      ensures search == text && isOpen == old(isOpen)
    {
      search := text;
    }
  }
}
