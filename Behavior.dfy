/** The behaviour object attached to an owner record: its configuration, its
    three memoisation fields, and the methods that resolve names and run the
    save and load hooks in place on the owner. */
module Scalable {
  import opened PhpValue
  import opened Codec
  import opened Names
  import opened Hooks

  /** The owner record: its attribute values (real columns and virtual fields
      alike) and the column list its `attributes()` reports. */
  class Owner {
    var values: map<string, Value>
    var columns: seq<string>

    constructor (columns: seq<string>, values: map<string, Value>)
      ensures this.columns == columns && this.values == values
    {
      this.columns := columns;
      this.values := values;
    }
  }

  class ScalableBehavior {
    const owner: Owner
    /** The serializer and compressor the PHP runtime provides. */
    const lib: Library
    /** Configured storage columns; `None` when the configuration is not an array. */
    var scalableAttributes: Option<seq<string>>
    /** Configured virtual attribute names; `None` when not an array. */
    var virtualAttributes: Option<seq<string>>
    var compressionLevel: int
    /** `_scalableAttributes`, `_virtualAttributes` and `_objAttributes`:
        empty until a non-empty result is computed, then kept for good. */
    var cachedScalable: seq<string>
    var cachedVirtual: seq<string>
    var cachedColumns: seq<string>
    /** The column list `cachedVirtual` was filtered against. */
    ghost var virtualBasis: seq<string>

    ghost predicate Valid()
      reads this
    {
      NoDuplicates(cachedScalable) && NoDuplicates(cachedVirtual) &&
      (forall x :: x in cachedScalable ==> x in cachedColumns) &&
      (forall x :: x in cachedVirtual ==> x !in virtualBasis) &&
      (virtualBasis == [] || virtualBasis == cachedColumns)
    }

    /** The column list `objAttributesNames` answers with (an empty list for its null). */
    function Columns(): (r: seq<string>)
      reads this, owner`columns
    {
      if cachedColumns != [] then cachedColumns else owner.columns
    }

    /** What `scalableAttributesNames` returns in the current state. */
    function ScalableNames(): (r: Option<seq<string>>)
      reads this, owner`columns
    {
      Memoized(cachedScalable, scalableAttributes, Columns(), true)
    }

    /** What `virtualAttributesNames` returns in the current state. */
    function VirtualNames(): (r: Option<seq<string>>)
      reads this, owner`columns
    {
      Memoized(cachedVirtual, virtualAttributes, Columns(), false)
    }

    /** The virtual cache is empty, or it was filtered against the column
        list now cached. It fails only when the virtual names were cached
        while the owner reported no columns. */
    ghost predicate VirtualCacheChecked()
      reads this
    {
      virtualBasis != [] || cachedVirtual == []
    }

    /** Under the cache invariant, and with the virtual cache checked against
        the columns, the two accessors never resolve a common name. */
    lemma ResolvedNamesDisjoint()
      requires Valid() && VirtualCacheChecked()
      ensures ScalableNames().Some? && VirtualNames().Some? ==>
        forall a :: a in ScalableNames().value ==> a !in VirtualNames().value
    {
      if scalableAttributes.Some? {
        ReconcileCharacterised(scalableAttributes.value, Columns(), true);
      }
      if virtualAttributes.Some? {
        ReconcileCharacterised(virtualAttributes.value, Columns(), false);
      }
    }

    /** What the save hook computes from `values` in the current state: with
        the virtual cache checked against the columns, every resolved storage
        column receives one and the same blob. */
    lemma SaveWritesOneBlob(values: map<string, Value>)
      requires Valid() && VirtualCacheChecked() && ScalableNames().Some?
      ensures PackInto(lib, compressionLevel, values, ScalableNames().value, VirtualNames().GetOr([])) ==
        WithOneBlob(lib, compressionLevel, values, ScalableNames().value, VirtualNames().GetOr([]))
    {
      ResolvedNamesDisjoint();
      PackSameBlob(lib, compressionLevel, values, ScalableNames().value, VirtualNames().GetOr([]));
    }

    constructor (owner: Owner, lib: Library, scalableAttributes: Option<seq<string>>,
                 virtualAttributes: Option<seq<string>>, compressionLevel: int)
      ensures Valid()
      ensures this.owner == owner && this.lib == lib && this.compressionLevel == compressionLevel
      ensures this.scalableAttributes == scalableAttributes && this.virtualAttributes == virtualAttributes
      ensures cachedScalable == [] && cachedVirtual == [] && cachedColumns == []
    {
      this.owner := owner;
      this.lib := lib;
      this.scalableAttributes := scalableAttributes;
      this.virtualAttributes := virtualAttributes;
      this.compressionLevel := compressionLevel;
      cachedScalable, cachedVirtual, cachedColumns := [], [], [];
      virtualBasis := [];
    }

    /** `objAttributesNames()`: the owner's columns, fetched once and then cached. */
    method ObjAttributesNames() returns (r: Option<seq<string>>)
      requires Valid()
      modifies this`cachedColumns
      ensures Valid()
      ensures r == if old(Columns()) != [] then Some(old(Columns())) else None
      ensures cachedColumns == if old(cachedColumns) != [] then old(cachedColumns) else owner.columns
      ensures Columns() == old(Columns())
    {
      if cachedColumns != [] {
        return Some(cachedColumns);
      }
      var attributes := owner.columns;
      if attributes != [] {
        cachedColumns := attributes;
        r := Some(attributes);
      } else {
        r := None;
      }
    }

    /** `scalableAttributesNames()`: the configured storage names that are
        columns of the owner, memoised once non-empty. */
    method ScalableAttributesNames() returns (r: Option<seq<string>>)
      requires Valid()
      modifies this`cachedScalable, this`cachedColumns
      ensures Valid()
      ensures r == old(ScalableNames())
      ensures ScalableNames() == r
      ensures cachedScalable == if r.Some? then r.value else []
      ensures Columns() == old(Columns())
      ensures cachedColumns ==
        if RunsLoop(old(cachedScalable), scalableAttributes) && old(cachedColumns) == [] then owner.columns
        else old(cachedColumns)
    {
      if cachedScalable != [] {
        return Some(cachedScalable);
      }
      if scalableAttributes.None? || scalableAttributes.value == [] {
        return None;
      }
      var names := scalableAttributes.value;
      var attributes := [];
      var i := 0;
      while i < |names|
        invariant 0 <= i <= |names|
        invariant Valid() && cachedScalable == []
        invariant Columns() == old(Columns())
        invariant cachedColumns == if i > 0 && old(cachedColumns) == [] then owner.columns else old(cachedColumns)
        invariant i > 0 ==> cachedColumns == Columns()
        invariant attributes == Reconcile(names[..i], Columns(), true)
      {
        var columns := ObjAttributesNames();
        var a := names[i];
        if a in columns.GetOr([]) && a !in attributes {
          attributes := attributes + [a];
        }
        assert names[..i + 1][..i] == names[..i];
        i := i + 1;
      }
      assert names[..i] == names;
      if attributes != [] {
        ReconcileCharacterised(names, Columns(), true);
        cachedScalable := attributes;
        r := Some(attributes);
      } else {
        r := None;
      }
    }

    /** `virtualAttributesNames()`: the configured virtual names that are not
        columns of the owner, memoised once non-empty. */
    method VirtualAttributesNames() returns (r: Option<seq<string>>)
      requires Valid()
      modifies this`cachedVirtual, this`cachedColumns, this`virtualBasis
      ensures Valid()
      ensures r == old(VirtualNames())
      ensures VirtualNames() == r
      ensures cachedVirtual == if r.Some? then r.value else []
      ensures Columns() == old(Columns())
      // a virtual cache filled while the owner reports columns is filtered against them
      ensures old(VirtualCacheChecked()) && Columns() != [] ==> VirtualCacheChecked()
      ensures cachedColumns ==
        if RunsLoop(old(cachedVirtual), virtualAttributes) && old(cachedColumns) == [] then owner.columns
        else old(cachedColumns)
    {
      if cachedVirtual != [] {
        return Some(cachedVirtual);
      }
      if virtualAttributes.None? || virtualAttributes.value == [] {
        return None;
      }
      var names := virtualAttributes.value;
      var attributes := [];
      var i := 0;
      while i < |names|
        invariant 0 <= i <= |names|
        invariant Valid() && cachedVirtual == []
        invariant Columns() == old(Columns())
        invariant cachedColumns == if i > 0 && old(cachedColumns) == [] then owner.columns else old(cachedColumns)
        invariant i > 0 ==> cachedColumns == Columns() || Columns() == []
        invariant attributes == Reconcile(names[..i], Columns(), false)
      {
        var columns := ObjAttributesNames();
        var a := names[i];
        if a !in columns.GetOr([]) && a !in attributes {
          attributes := attributes + [a];
        }
        assert names[..i + 1][..i] == names[..i];
        i := i + 1;
      }
      assert names[..i] == names;
      if attributes != [] {
        ReconcileCharacterised(names, Columns(), false);
        cachedVirtual := attributes;
        virtualBasis := cachedColumns;
        r := Some(attributes);
      } else {
        r := None;
      }
    }

    /** The `virtualToScalable` hook: pack the virtual values and write the
        blob into every resolved storage column. `false` is its early return. */
    method VirtualToScalable() returns (ran: bool)
      requires Valid()
      modifies this`cachedScalable, this`cachedVirtual, this`cachedColumns, this`virtualBasis, owner`values
      ensures Valid()
      ensures ran == old(ScalableNames()).Some?
      ensures !ran ==> owner.values == old(owner.values)
      ensures ran ==>
        owner.values == PackInto(lib, compressionLevel, old(owner.values), old(ScalableNames()).value, old(VirtualNames()).GetOr([]))
      ensures ScalableNames() == old(ScalableNames()) && VirtualNames() == old(VirtualNames())
      ensures cachedScalable == if ran then old(ScalableNames()).value else []
      ensures cachedVirtual == if ran then old(VirtualNames()).GetOr([]) else old(cachedVirtual)
      ensures Columns() == old(Columns())
      // a virtual cache filled while the owner reports columns is filtered against them
      ensures old(VirtualCacheChecked()) && Columns() != [] ==> VirtualCacheChecked()
      ensures cachedColumns ==
        if old(cachedColumns) == [] &&
           (RunsLoop(old(cachedScalable), scalableAttributes) || (ran && RunsLoop(old(cachedVirtual), virtualAttributes)))
        then owner.columns
        else old(cachedColumns)
    {
      var stores := ScalableAttributesNames();
      if stores.None? {
        return false;
      }
      ran := true;
      PackColumns(stores.value);
    }

    /** The outer `foreach` of `virtualToScalable`: for each storage column,
        collect the virtual values afresh, convert them, and write a
        successful result into that column. */
    method PackColumns(stores: seq<string>)
      requires Valid()
      modifies this`cachedVirtual, this`cachedColumns, this`virtualBasis, owner`values
      ensures Valid()
      ensures owner.values == PackInto(lib, compressionLevel, old(owner.values), stores, old(VirtualNames()).GetOr([]))
      ensures VirtualNames() == old(VirtualNames()) && Columns() == old(Columns())
      // a virtual cache filled while the owner reports columns is filtered against them
      ensures old(VirtualCacheChecked()) && Columns() != [] ==> VirtualCacheChecked()
      ensures cachedVirtual == if stores != [] then old(VirtualNames()).GetOr([]) else old(cachedVirtual)
      ensures cachedColumns ==
        if stores != [] && RunsLoop(old(cachedVirtual), virtualAttributes) && old(cachedColumns) == [] then owner.columns
        else old(cachedColumns)
    {
      ghost var V := VirtualNames();
      ghost var C := if stores != [] && RunsLoop(cachedVirtual, virtualAttributes) && cachedColumns == [] then owner.columns
                     else cachedColumns;
      ghost var values0 := owner.values;
      var i := 0;
      while i < |stores|
        invariant 0 <= i <= |stores|
        invariant Valid()
        invariant VirtualNames() == V && Columns() == old(Columns())
        invariant old(VirtualCacheChecked()) && Columns() != [] ==> VirtualCacheChecked()
        invariant i == 0 ==> cachedVirtual == old(cachedVirtual)
        invariant i > 0 ==> cachedVirtual == V.GetOr([])
        invariant cachedColumns == if i > 0 then C else old(cachedColumns)
        // once the first lookup ran, a further lookup leaves the column cache as it is
        invariant i > 0 ==> (RunsLoop(cachedVirtual, virtualAttributes) && cachedColumns == [] ==> owner.columns == [])
        invariant owner.values == PackInto(lib, compressionLevel, values0, stores[..i], V.GetOr([]))
      {
        var vnames := VirtualAttributesNames();
        ghost var prev := owner.values;
        var scalableValue := PackColumn(stores[i], vnames.GetOr([]));
        PackStep(lib, compressionLevel, values0, stores, vnames.GetOr([]), i, prev, scalableValue);
        i := i + 1;
      }
      assert stores[..i] == stores;
    }

    /** One pass of the outer `foreach` of `virtualToScalable` after the
        virtual names are resolved: collect, convert, and write a successful
        blob into the storage column `a`. */
    method PackColumn(a: string, names: seq<string>) returns (scalableValue: Option<string>)
      modifies owner`values
      ensures scalableValue == Convert(lib, compressionLevel, Arr(Collect(old(owner.values), names)))
      ensures owner.values == if scalableValue.Some? then old(owner.values)[a := Str(scalableValue.value)] else old(owner.values)
    {
      var virtualAttributesArray := CollectVirtual(names);
      scalableValue := Convert(lib, compressionLevel, Arr(virtualAttributesArray));
      if scalableValue.Some? {
        owner.values := owner.values[a := Str(scalableValue.value)];
      }
    }

    /** The inner loop of `virtualToScalable`: read each virtual attribute of
        the owner into the array that is to be converted. */
    method CollectVirtual(names: seq<string>) returns (virtualAttributesArray: map<string, Value>)
      ensures virtualAttributesArray == Collect(owner.values, names)
    {
      virtualAttributesArray := map[];
      var j := 0;
      while j < |names|
        invariant 0 <= j <= |names|
        invariant virtualAttributesArray == Collect(owner.values, names[..j])
      {
        CollectStep(owner.values, names, j);
        virtualAttributesArray := virtualAttributesArray[names[j] := Get(owner.values, names[j])];
        j := j + 1;
      }
      assert names[..j] == names;
    }

    /** The `scalableToVirtual` hook: unconvert every resolved storage column
        and write every key of each resulting array onto the owner. */
    method ScalableToVirtual() returns (ran: bool)
      requires Valid()
      modifies this`cachedScalable, this`cachedColumns, owner`values
      ensures Valid()
      ensures ran == old(ScalableNames()).Some?
      ensures !ran ==> owner.values == old(owner.values)
      ensures ran ==> owner.values == UnpackInto(lib, compressionLevel, old(owner.values), old(ScalableNames()).value)
      ensures ScalableNames() == old(ScalableNames())
      ensures cachedScalable == if ran then old(ScalableNames()).value else []
      ensures Columns() == old(Columns())
      ensures cachedColumns ==
        if RunsLoop(old(cachedScalable), scalableAttributes) && old(cachedColumns) == [] then owner.columns
        else old(cachedColumns)
    {
      var stores := ScalableAttributesNames();
      if stores.None? {
        return false;
      }
      ran := true;
      UnpackColumns(stores.value);
    }

    /** The outer `foreach` of `scalableToVirtual`: unconvert each storage
        column's current value and assign a resulting array onto the owner. */
    method UnpackColumns(stores: seq<string>)
      modifies owner`values
      ensures owner.values == UnpackInto(lib, compressionLevel, old(owner.values), stores)
    {
      ghost var values0 := owner.values;
      var i := 0;
      while i < |stores|
        invariant 0 <= i <= |stores|
        invariant owner.values == UnpackInto(lib, compressionLevel, values0, stores[..i])
      {
        var a := stores[i];
        var virtualAttributesArray := UnConvert(lib, compressionLevel, Get(owner.values, a));
        UnpackStep(lib, compressionLevel, values0, stores, i, owner.values, virtualAttributesArray);
        if virtualAttributesArray.Some? {
          AssignAll(virtualAttributesArray.value);
        }
        i := i + 1;
      }
      assert stores[..i] == stores;
    }

    /** The inner loop of `scalableToVirtual`: every key of an unconverted
        array is assigned onto the owner, whether or not it is a virtual name. */
    method AssignAll(m: map<string, Value>)
      modifies owner`values
      ensures owner.values == old(owner.values) + m
    {
      var keys := m.Keys;
      assert Written(m, keys) == map[];
      while keys != {}
        invariant keys <= m.Keys
        invariant owner.values == old(owner.values) + Written(m, keys)
        decreases keys
      {
        var key :| key in keys;
        WriteOneKey(old(owner.values), m, keys, key);
        owner.values := owner.values[key := m[key]];
        keys := keys - {key};
      }
      WrittenAll(m);
    }

    /** The membership test of `canSetProperty`: is `name` a resolved virtual attribute? */
    method CanSetProperty(name: string) returns (b: bool)
      requires Valid()
      modifies this`cachedVirtual, this`cachedColumns, this`virtualBasis
      ensures Valid()
      ensures b <==> old(VirtualNames()).Some? && name in old(VirtualNames()).value
      ensures VirtualNames() == old(VirtualNames()) && Columns() == old(Columns())
      // a virtual cache filled while the owner reports columns is filtered against them
      ensures old(VirtualCacheChecked()) && Columns() != [] ==> VirtualCacheChecked()
      ensures cachedVirtual == if VirtualNames().Some? then VirtualNames().value else []
      ensures cachedColumns ==
        if RunsLoop(old(cachedVirtual), virtualAttributes) && old(cachedColumns) == [] then owner.columns
        else old(cachedColumns)
    {
      var names := VirtualAttributesNames();
      b := names.Some? && name in names.value;
    }

    /** `__set` for a resolved virtual attribute: the value goes to the owner.
        Any other name is handed to the host framework (not modelled), which
        `handled == false` reports. */
    method SetProperty(name: string, value: Value) returns (handled: bool)
      requires Valid()
      modifies this`cachedVirtual, this`cachedColumns, this`virtualBasis, owner`values
      ensures Valid()
      ensures handled <==> old(VirtualNames()).Some? && name in old(VirtualNames()).value
      ensures owner.values == if handled then old(owner.values)[name := value] else old(owner.values)
      ensures VirtualNames() == old(VirtualNames()) && Columns() == old(Columns())
      // a virtual cache filled while the owner reports columns is filtered against them
      ensures old(VirtualCacheChecked()) && Columns() != [] ==> VirtualCacheChecked()
      ensures cachedVirtual == if VirtualNames().Some? then VirtualNames().value else []
      ensures cachedColumns ==
        if RunsLoop(old(cachedVirtual), virtualAttributes) && old(cachedColumns) == [] then owner.columns
        else old(cachedColumns)
    {
      var names := VirtualAttributesNames();
      handled := names.Some? && name in names.value;
      if handled {
        owner.values := owner.values[name := value];
      }
    }
  }

  /** The stale cache: once `scalableAttributesNames` has answered with a list,
      it answers with the same list after the configuration and the owner's
      columns have changed. */
  method StaleStorageNames(b: ScalableBehavior, config: Option<seq<string>>, columns: seq<string>)
    returns (first: Option<seq<string>>, second: Option<seq<string>>)
    requires b.Valid()
    modifies b`cachedScalable, b`cachedColumns, b`scalableAttributes, b.owner`columns
    ensures first == old(b.ScalableNames())
    ensures first.Some? ==> second == first
  {
    first := b.ScalableAttributesNames();
    b.scalableAttributes := config;
    b.owner.columns := columns;
    second := b.ScalableAttributesNames();
  }

  /** The save hook run with the virtual cache checked against the columns:
      every resolved storage column receives one and the same blob, packed from
      the owner's values before the hook. */
  method SaveWithCheckedCache(b: ScalableBehavior) returns (ran: bool)
    requires b.Valid() && b.VirtualCacheChecked()
    modifies b`cachedScalable, b`cachedVirtual, b`cachedColumns, b`virtualBasis, b.owner`values
    ensures ran == old(b.ScalableNames()).Some?
    ensures !ran ==> b.owner.values == old(b.owner.values)
    ensures ran ==>
      b.owner.values ==
        WithOneBlob(b.lib, b.compressionLevel, old(b.owner.values), old(b.ScalableNames()).value, old(b.VirtualNames()).GetOr([]))
    // the behaviour stays valid, and checked for the next save while the owner reports columns
    ensures b.Valid() && (b.Columns() != [] ==> b.VirtualCacheChecked())
  {
    if b.ScalableNames().Some? {
      b.SaveWritesOneBlob(b.owner.values);
    }
    ran := b.VirtualToScalable();
  }

  /** `__set` of a virtual attribute followed by the save hook, on a behaviour
      whose owner reports columns: the assignment is packed together with the
      other virtual values into one blob in every resolved storage column. */
  method SetThenSave(b: ScalableBehavior, name: string, value: Value) returns (handled: bool, ran: bool)
    requires b.Valid() && b.VirtualCacheChecked() && b.Columns() != []
    modifies b`cachedScalable, b`cachedVirtual, b`cachedColumns, b`virtualBasis, b.owner`values
    ensures handled <==> old(b.VirtualNames()).Some? && name in old(b.VirtualNames()).value
    ensures ran == old(b.ScalableNames()).Some?
    ensures ran ==>
      b.owner.values ==
        WithOneBlob(b.lib, b.compressionLevel, if handled then old(b.owner.values)[name := value] else old(b.owner.values),
                    old(b.ScalableNames()).value, old(b.VirtualNames()).GetOr([]))
  {
    handled := b.SetProperty(name, value);
    ran := SaveWithCheckedCache(b);
  }
}
