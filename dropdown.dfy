/**
 * The dropdown component: an index from item keys to items, rebuilt when the
 * component is created, the label/value projections of an item, the selected
 * label, the selection events and the badge classes.
 */
module Dropdown {
  import opened Wrappers

  /** A primitive JavaScript value as it can appear in a list or a record field. */
  datatype Scalar = Undefined | Null | Bool(b: bool) | Num(n: int) | Str(s: string)

  /**
   * A list item: a primitive, or a record of named fields. `Prim(Null)` is
   * JavaScript's `null`, whose `typeof` is 'object' although it has no fields.
   */
  datatype Item = Prim(value: Scalar) | Rec(fields: map<string, Scalar>)

  /** The events the component emits on a selection. */
  datatype DropdownEvent = UpdateModelValue(value: Scalar) | StatusChanged(value: Scalar)

  const DefaultLabelKey := "value"
  const DefaultValueKey := "id"
  const DefaultPlaceholder := "Select an option"

  /** JavaScript truthiness of a primitive (numbers are integers here, so NaN does not arise). */
  predicate Truthy(v: Scalar)
  {
    match v
    case Undefined => false
    case Null => false
    case Bool(b) => b
    case Num(n) => n != 0
    case Str(s) => s != ""
  }

  /** Truthiness of an item: every record is truthy. */
  predicate ItemTruthy(item: Item)
  {
    item.Rec? || Truthy(item.value)
  }

  /** `record[key]`: the field, or `undefined` when the record has none. */
  function Field(fields: map<string, Scalar>, key: string): Scalar
  {
    if key in fields then fields[key] else Undefined
  }

  /** The items on which `typeof item === 'object'` holds but reading a field throws. */
  predicate NonNull(item: Item) { item != Prim(Null) }

  predicate NoNullItems(list: seq<Item>)
  {
    forall i :: 0 <= i < |list| ==> NonNull(list[i])
  }

  /** The decimal digits of a natural number. */
  function Digits(n: nat): string
    decreases n
  {
    if n < 10 then ["0123456789"[n]] else Digits(n / 10) + ["0123456789"[n % 10]]
  }

  /** How a primitive reads when spliced into a template string. */
  function Text(v: Scalar): string
  {
    match v
    case Undefined => "undefined"
    case Null => "null"
    case Bool(b) => if b then "true" else "false"
    case Num(n) => if n < 0 then "-" + Digits(-n) else Digits(n)
    case Str(s) => s
  }

  /** The item's badge colour: the truthy `color` field of a record, if any. */
  function Color(item: Item): Option<Scalar>
  {
    if item.Rec? && Truthy(Field(item.fields, "color")) then Some(Field(item.fields, "color")) else None
  }

  /** The template shows the control only for a list of more than one item. */
  function ShowDropdown(list: seq<Item>): (r: bool)
    ensures r <==> list != [] && list[1..] != []
  {
    |list| > 1
  }

  /** No two items of the list share a key under `valueKey`. */
  predicate DistinctKeys(list: seq<Item>, valueKey: string)
    requires NoNullItems(list)
  {
    forall i, j :: 0 <= i < j < |list| ==> KeyOf(list[i], valueKey) != KeyOf(list[j], valueKey)
  }

  /** The key of an item under `valueKey`: its field for a record, itself for a primitive. */
  function KeyOf(item: Item, valueKey: string): Scalar
    requires NonNull(item)
  {
    if item.Rec? then Field(item.fields, valueKey) else item.value
  }

  /**
   * The index built from a list: each item filed under its key, a later item
   * replacing an earlier one with the same key.
   */
  function Index(list: seq<Item>, valueKey: string): map<Scalar, Item>
    requires NoNullItems(list)
  {
    if list == [] then map[]
    else Index(list[..|list| - 1], valueKey)[KeyOf(list[|list| - 1], valueKey) := list[|list| - 1]]
  }

  /** The keys of the index are exactly the keys of the list's items. */
  lemma {:induction false} IndexKeys(list: seq<Item>, valueKey: string, k: Scalar)
    requires NoNullItems(list)
    ensures k in Index(list, valueKey) <==> exists i :: 0 <= i < |list| && KeyOf(list[i], valueKey) == k
  {
    if list != [] {
      var init := list[..|list| - 1];
      IndexKeys(init, valueKey, k);
      if exists i :: 0 <= i < |init| && KeyOf(init[i], valueKey) == k {
        var i :| 0 <= i < |init| && KeyOf(init[i], valueKey) == k;
        assert list[i] == init[i];
      }
      if exists i :: 0 <= i < |list| && KeyOf(list[i], valueKey) == k {
        var i :| 0 <= i < |list| && KeyOf(list[i], valueKey) == k;
        if i < |init| {
          assert init[i] == list[i];
        }
      }
    }
  }

  /**
   * Last write wins: a key is mapped to the LAST item of the list that
   * carries it.
   */
  lemma {:induction false} IndexLastWriteWins(list: seq<Item>, valueKey: string, i: int)
    requires NoNullItems(list)
    requires 0 <= i < |list|
    requires forall j :: i < j < |list| ==> KeyOf(list[j], valueKey) != KeyOf(list[i], valueKey)
    ensures KeyOf(list[i], valueKey) in Index(list, valueKey)
    ensures Index(list, valueKey)[KeyOf(list[i], valueKey)] == list[i]
  {
    if i < |list| - 1 {
      var init := list[..|list| - 1];
      assert init[i] == list[i];
      forall j | i < j < |init|
        ensures KeyOf(init[j], valueKey) != KeyOf(init[i], valueKey)
      {
        assert init[j] == list[j];
      }
      IndexLastWriteWins(init, valueKey, i);
    }
  }

  /** Every entry of the index files an item of the list under that item's own key. */
  lemma {:induction false} IndexEntriesFromList(list: seq<Item>, valueKey: string, k: Scalar)
    requires NoNullItems(list)
    requires k in Index(list, valueKey)
    ensures Index(list, valueKey)[k] in list
    ensures KeyOf(Index(list, valueKey)[k], valueKey) == k
  {
    var init := list[..|list| - 1];
    if k != KeyOf(list[|list| - 1], valueKey) {
      IndexEntriesFromList(init, valueKey, k);
      assert Index(init, valueKey)[k] in init;
    }
  }

  /** For a list with distinct keys, looking an item's key up in the index gives the item back. */
  lemma {:induction false} IndexRoundTrip(list: seq<Item>, valueKey: string, i: int)
    requires NoNullItems(list) && DistinctKeys(list, valueKey)
    requires 0 <= i < |list|
    ensures KeyOf(list[i], valueKey) in Index(list, valueKey)
    ensures Index(list, valueKey)[KeyOf(list[i], valueKey)] == list[i]
  {
    IndexLastWriteWins(list, valueKey, i);
  }

  /** For a list with distinct keys, the index has one entry per item. */
  lemma {:induction false} IndexSize(list: seq<Item>, valueKey: string)
    requires NoNullItems(list) && DistinctKeys(list, valueKey)
    ensures |Index(list, valueKey)| == |list|
  {
    if list != [] {
      var init := list[..|list| - 1];
      var last := list[|list| - 1];
      assert DistinctKeys(init, valueKey) by {
        forall i, j | 0 <= i < j < |init|
          ensures KeyOf(init[i], valueKey) != KeyOf(init[j], valueKey)
        {
          assert init[i] == list[i] && init[j] == list[j];
        }
      }
      IndexSize(init, valueKey);
      assert KeyOf(last, valueKey) !in Index(init, valueKey) by {
        IndexKeys(init, valueKey, KeyOf(last, valueKey));
        forall i | 0 <= i < |init|
          ensures KeyOf(init[i], valueKey) != KeyOf(last, valueKey)
        {
          assert init[i] == list[i];
        }
      }
    }
  }

  /**
   * With distinct keys, the control is shown exactly when the index offers
   * more than one choice.
   */
  lemma ShownIffChoice(list: seq<Item>, valueKey: string)
    requires NoNullItems(list) && DistinctKeys(list, valueKey)
    ensures ShowDropdown(list) <==> |Index(list, valueKey)| > 1
  {
    IndexSize(list, valueKey);
  }

  /** The component's props and its `valueMap` data field. */
  class Dropdown {
    var list: seq<Item>
    var modelValue: Scalar
    var labelKey: string
    var valueKey: string
    var placeholder: string
    var usebadge: bool
    var valueMap: map<Scalar, Item>

    /** Creating the component indexes the list it is given (the `created` hook). */
    constructor (list: seq<Item>, modelValue: Scalar, labelKey: string, valueKey: string,
                 placeholder: string, usebadge: bool)
      requires NoNullItems(list)
      ensures this.list == list && this.modelValue == modelValue
      ensures this.labelKey == labelKey && this.valueKey == valueKey
      ensures this.placeholder == placeholder && this.usebadge == usebadge
      ensures valueMap == Index(list, valueKey)
    {
      this.list := list;
      this.modelValue := modelValue;
      this.labelKey := labelKey;
      this.valueKey := valueKey;
      this.placeholder := placeholder;
      this.usebadge := usebadge;
      valueMap := map[];
      new;
      IndexList();
    }

    /** Creating the component with every prop but the list left at its default. */
    constructor WithDefaults(list: seq<Item>)
      requires NoNullItems(list)
      ensures this.list == list && modelValue == Null
      ensures labelKey == DefaultLabelKey && valueKey == DefaultValueKey
      ensures placeholder == DefaultPlaceholder && !usebadge
      ensures valueMap == Index(list, DefaultValueKey)
    {
      this.list := list;
      modelValue := Null;
      labelKey := DefaultLabelKey;
      valueKey := DefaultValueKey;
      placeholder := DefaultPlaceholder;
      usebadge := false;
      valueMap := map[];
      new;
      IndexList();
    }

    /**
     * `indexList`: reset the map, then file every item under its key in list
     * order. The result does not depend on the map before the call, so a
     * second call on the same list changes nothing.
     */
    method IndexList()
      requires NoNullItems(list)
      modifies this`valueMap
      ensures valueMap == Index(list, valueKey)
      ensures old(valueMap) == Index(list, valueKey) ==> valueMap == old(valueMap)
    {
      valueMap := map[];
      for i := 0 to |list|
        invariant valueMap == Index(list[..i], valueKey)
      {
        var item := list[i];
        var key := GetItemValue(item);
        assert list[..i + 1][..i] == list[..i];
        valueMap := valueMap[key := item];
      }
      assert list[..|list|] == list;
    }

    /**
     * The parent passes new props. Nothing watches them, so the index keeps
     * describing the list and the `valueKey` the component was created with.
     */
    method SetProps(list: seq<Item>, modelValue: Scalar, labelKey: string, valueKey: string,
                    placeholder: string, usebadge: bool)
      modifies this`list, this`modelValue, this`labelKey, this`valueKey, this`placeholder, this`usebadge
      ensures this.list == list && this.modelValue == modelValue
      ensures this.labelKey == labelKey && this.valueKey == valueKey
      ensures this.placeholder == placeholder && this.usebadge == usebadge
      ensures valueMap == old(valueMap)
    {
      this.list := list;
      this.modelValue := modelValue;
      this.labelKey := labelKey;
      this.valueKey := valueKey;
      this.placeholder := placeholder;
      this.usebadge := usebadge;
    }

    /** `getItemLabel`: the `labelKey` field of a record, the item itself otherwise. */
    function GetItemLabel(item: Item): (r: Scalar)
      requires NonNull(item)
      reads this
      ensures item.Prim? ==> r == item.value
      ensures item.Rec? ==> r == Field(item.fields, labelKey)
    {
      if item.Rec? then Field(item.fields, labelKey) else item.value
    }

    /** `getItemValue`: the `valueKey` field of a record, the item itself otherwise. */
    function GetItemValue(item: Item): (r: Scalar)
      requires NonNull(item)
      reads this
      ensures item.Prim? ==> r == item.value
      ensures item.Rec? ==> r == Field(item.fields, valueKey)
    {
      KeyOf(item, valueKey)
    }

    /** `getItemKey`: the key the template gives an item's row, its value. */
    function GetItemKey(item: Item): (r: Scalar)
      requires NonNull(item)
      reads this
      ensures r == GetItemValue(item)
    {
      GetItemValue(item)
    }

    /**
     * `selectedLabel`: the label of the item filed under `modelValue`, or
     * `null` (`None`) when there is none or it is a falsy primitive.
     */
    function SelectedLabel(): (r: Option<Scalar>)
      reads this
      ensures r.None? <==> modelValue !in valueMap || !ItemTruthy(valueMap[modelValue])
      ensures r.Some? ==> r.value == GetItemLabel(valueMap[modelValue])
    {
      if modelValue in valueMap && ItemTruthy(valueMap[modelValue])
      then Some(GetItemLabel(valueMap[modelValue]))
      else None
    }

    /** `selectItem`: emit the item's value as the new model value, then as a status change. */
    function SelectItem(item: Item): (events: seq<DropdownEvent>)
      requires NonNull(item)
      reads this
      ensures |events| == 2
      ensures events[0] == UpdateModelValue(KeyOf(item, valueKey))
      ensures events[1] == StatusChanged(KeyOf(item, valueKey))
    {
      var v := GetItemValue(item);
      [UpdateModelValue(v), StatusChanged(v)]
    }

    /** `getColor`: a badge class for a record with a truthy colour, '' otherwise. */
    function GetColor(item: Item): (r: string)
      ensures r == "" <==> Color(item).None?
      ensures Color(item).Some? ==> r == "badge me-2 bg-" + Text(Color(item).value)
    {
      if item.Rec? && Truthy(Field(item.fields, "color"))
      then "badge me-2 bg-" + Text(Field(item.fields, "color"))
      else ""
    }

    /**
     * `getButtonClass`: nothing without badges; otherwise the selected item's
     * colour badge, or the primary badge when it has no colour.
     */
    function GetButtonClass(): (r: Option<string>)
      reads this
      ensures r.None? <==> !usebadge
    {
      if !usebadge then None
      else if modelValue in valueMap && Color(valueMap[modelValue]).Some?
      then Some("badge bg-" + Text(Color(valueMap[modelValue]).value))
      else Some("badge bg-primary")
    }

    /**
     * The button's badge agrees with the selected item's badge in the menu:
     * the same colour when the item has one, the primary badge when it has
     * none or nothing is selected.
     */
    lemma ButtonMatchesMenuBadge(c: string)
      requires usebadge
      ensures modelValue in valueMap && GetColor(valueMap[modelValue]) == "badge me-2 bg-" + c ==>
                GetButtonClass() == Some("badge bg-" + c)
      ensures modelValue !in valueMap || GetColor(valueMap[modelValue]) == "" ==>
                GetButtonClass() == Some("badge bg-primary")
    {
      if modelValue in valueMap && GetColor(valueMap[modelValue]) == "badge me-2 bg-" + c {
        var t := Text(Color(valueMap[modelValue]).value);
        assert "badge me-2 bg-" + t == "badge me-2 bg-" + c;
        assert t == ("badge me-2 bg-" + t)[14..];
        assert c == ("badge me-2 bg-" + c)[14..];
      }
    }

    /**
     * Select then display: once the component was created from a list with
     * distinct keys and the parent feeds the emitted value back as
     * `modelValue`, the button shows the selected item's label (for a truthy
     * item; a falsy primitive shows the placeholder).
     */
    lemma SelectThenDisplay(item: Item)
      requires NoNullItems(list) && DistinctKeys(list, valueKey)
      requires valueMap == Index(list, valueKey)
      requires item in list
      requires modelValue == SelectItem(item)[0].value
      ensures SelectedLabel() == if ItemTruthy(item) then Some(GetItemLabel(item)) else None
    {
      var i :| 0 <= i < |list| && list[i] == item;
      IndexRoundTrip(list, valueKey, i);
    }
  }
}
