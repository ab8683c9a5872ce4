/**
 * The data table's selection state and column rules: the module-wide map of
 * checked rows, re-initialised whenever the rows change and toggled by a
 * row's checkbox, and the checkbox column kept at the head of the columns.
 */
module DataTable {
  import opened Seqs
  import opened JsObjects

  /**
   * The string-named properties a built-in function object such as
   * `Object.prototype.hasOwnProperty` carries, own or inherited, all with
   * truthy values. Indexing the function (rather than calling it) with any
   * other string gives `undefined`.
   */
  const FunctionPropertyNames: set<string> := PrototypeNames + {"length", "name", "apply", "bind", "call"}

  /** The intended result of `initializeCheckedList(items)`: every item, unchecked. */
  function InitialChecked(items: seq<string>): (checked: map<string, bool>)
    ensures forall u :: u in checked <==> u in items
    ensures forall u :: u in checked ==> !checked[u]
  {
    map u | u in items :: false
  }

  /**
   * `initializeCheckedList(items)` as written: the guard indexes the function
   * `hasOwnProperty` instead of calling it, so an item named like one of the
   * function's properties is skipped and stays out of the map.
   */
  function InitialCheckedAsWritten(items: seq<string>): (checked: map<string, bool>)
    ensures forall u :: u in checked <==> u in items && u !in FunctionPropertyNames
    ensures forall u :: u in checked ==> !checked[u]
  {
    map u | u in items && u !in FunctionPropertyNames :: false
  }

  /** The two agree on every list of rows none of which is named like a function property. */
  lemma AsWrittenAgrees(items: seq<string>)
    requires forall i :: 0 <= i < |items| ==> items[i] !in FunctionPropertyNames
    ensures InitialCheckedAsWritten(items) == InitialChecked(items)
  {
    var a := InitialCheckedAsWritten(items);
    var b := InitialChecked(items);
    assert a.Keys == b.Keys;
  }

  /** A row named `name` is not reset by the code as written. */
  lemma AsWrittenSkipsName()
    ensures "name" !in InitialCheckedAsWritten(["name"])
    ensures InitialChecked(["name"]) == map["name" := false]
  {
    assert "name" in FunctionPropertyNames;
  }

  /** Adding one more row adds it unchecked. */
  lemma InitialCheckedSnoc(items: seq<string>, u: string)
    ensures InitialChecked(items + [u]) == InitialChecked(items)[u := false]
  {
    var a := InitialChecked(items + [u]);
    var b := InitialChecked(items)[u := false];
    assert a.Keys == b.Keys;
  }

  /**
   * Whether `checkedList[uuid]` is truthy: an own entry gives its flag, and a
   * name the object inherits from `Object.prototype` gives a function.
   */
  predicate IsChecked(checked: map<string, bool>, uuid: string)
  {
    ReadTruthy(checked, uuid, (b: bool) => b)
  }

  /**
   * `handleResourceSelect(uuid)`: a row that reads as unchecked becomes
   * checked and one that reads as checked becomes unchecked; no other row
   * changes.
   */
  function Toggle(checked: map<string, bool>, uuid: string): (after: map<string, bool>)
    ensures uuid in after && (after[uuid] <==> !IsChecked(checked, uuid))
    ensures uuid !in checked ==> (after[uuid] <==> uuid !in PrototypeNames)
    ensures uuid in checked ==> after[uuid] == !checked[uuid]
    ensures forall u :: u != uuid ==> (u in after <==> u in checked) && (u in checked ==> after[u] == checked[u])
  {
    checked[uuid := !IsChecked(checked, uuid)]
  }

  /**
   * Toggling a row twice restores it. A row that was absent comes back
   * unchecked, unless it is named like a member of `Object.prototype`: that
   * one reads as checked at first, so it ends checked.
   */
  lemma ToggleTwice(checked: map<string, bool>, uuid: string)
    ensures Toggle(Toggle(checked, uuid), uuid)
         == if uuid in checked then checked else checked[uuid := uuid in PrototypeNames]
  {
    var twice := Toggle(Toggle(checked, uuid), uuid);
    var expected := if uuid in checked then checked else checked[uuid := uuid in PrototypeNames];
    assert twice.Keys == expected.Keys;
  }

  /** Selecting a row named `toString` for the first time leaves it unchecked. */
  lemma ToggleInheritedName()
    ensures Toggle(map[], "toString") == map["toString" := false]
  {
    assert "toString" in PrototypeNames;
  }

  /** The module-wide map of checked rows. */
  class CheckedList {
    var checked: map<string, bool>

    constructor()
      ensures checked == map[]
    {
      checked := map[];
    }

    /**
     * `initializeCheckedList(items)` with the guard as intended: deletes
     * every entry, then adds each row unchecked.
     */
    method Initialize(items: seq<string>)
      modifies this
      ensures checked == InitialChecked(items)
    {
      Clear();
      var i := 0;
      while i < |items|
        invariant 0 <= i <= |items|
        invariant checked == InitialChecked(items[..i])
      {
        InitialCheckedSnoc(items[..i], items[i]);
        assert items[..i + 1] == items[..i] + [items[i]];
        if items[i] !in checked {
          checked := checked[items[i] := false];
        } else {
          assert checked == checked[items[i] := false];
        }
        i := i + 1;
      }
      assert items[..|items|] == items;
    }

    /** Deletes every entry of the map, one at a time. */
    method Clear()
      modifies this
      ensures checked == map[]
    {
      while checked != map[]
        decreases |checked.Keys|
      {
        var uuid :| uuid in checked;
        checked := checked - {uuid};
      }
    }

    /** `handleResourceSelect(uuid)`. */
    method HandleResourceSelect(uuid: string)
      modifies this
      ensures checked == Toggle(old(checked), uuid)
    {
      if !IsChecked(checked, uuid) {
        checked := checked[uuid := true];
      } else {
        checked := checked[uuid := false];
      }
    }
  }

  /** A column of the table: the shared checkbox column or a data column. */
  datatype Column = CheckBoxColumn | DataColumn(name: string, selected: bool)

  /** The checkbox column is always selected. */
  predicate Selected(c: Column)
  {
    c.CheckBoxColumn? || c.selected
  }

  /** The columns after `render`: the checkbox column put in front unless it is already first. */
  function WithCheckBox(columns: seq<Column>): (r: seq<Column>)
    ensures |r| >= 1 && r[0] == CheckBoxColumn
    ensures columns != [] && columns[0] == CheckBoxColumn ==> r == columns
    ensures !(columns != [] && columns[0] == CheckBoxColumn) ==> r[1..] == columns
  {
    if columns != [] && columns[0] == CheckBoxColumn then columns else [CheckBoxColumn] + columns
  }

  /** Rendering again changes nothing, so repeated renders keep one leading checkbox column. */
  lemma WithCheckBoxIdempotent(columns: seq<Column>)
    ensures WithCheckBox(WithCheckBox(columns)) == WithCheckBox(columns)
    ensures multiset(WithCheckBox(columns))[CheckBoxColumn] == multiset(columns)[CheckBoxColumn] + (if columns != [] && columns[0] == CheckBoxColumn then 0 else 1)
  {
    if !(columns != [] && columns[0] == CheckBoxColumn) {
      assert WithCheckBox(columns) == [CheckBoxColumn] + columns;
    }
  }

  /** `mapVisibleColumns`: the selected columns, in order. */
  function VisibleColumns(columns: seq<Column>): (visible: seq<Column>)
    ensures forall i :: 0 <= i < |visible| ==> Selected(visible[i])
  {
    Filter(columns, Selected)
  }

  /**
   * The visible columns are exactly the selected ones, in their order and
   * multiplicity; after `render` the first of them is the checkbox column.
   */
  lemma VisibleColumnsExact(columns: seq<Column>, c: Column)
    ensures IsSubsequence(VisibleColumns(columns), columns)
    ensures c in VisibleColumns(columns) <==> c in columns && Selected(c)
    ensures multiset(VisibleColumns(columns))[c] == if Selected(c) then multiset(columns)[c] else 0
    ensures var v := VisibleColumns(WithCheckBox(columns)); |v| >= 1 && v[0] == CheckBoxColumn
  {
    FilterIsSubsequence(columns, Selected);
    FilterMembership(columns, Selected, c);
    FilterMultiset(columns, Selected, c);
    FilterFirst(WithCheckBox(columns), Selected);
  }
}
