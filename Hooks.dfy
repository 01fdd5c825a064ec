/** What the two lifecycle hooks do to the owner's attribute values, as
    functions of the values before the hook, the resolved storage columns and
    the resolved virtual names. `virtualToScalable` packs, `scalableToVirtual`
    unpacks; both walk the storage columns in order, so each is a fold over the
    prefixes of that list, as the loops see it. */
module Hooks {
  import opened PhpValue
  import opened Codec

  /** The array `$virtualAttributesArray` built by the inner loop of
      `virtualToScalable`: each virtual name mapped to the owner's value. */
  function Collect(values: map<string, Value>, names: seq<string>): (r: map<string, Value>)
    // one entry per virtual name, holding what the owner reads for it
    ensures forall v :: v in r <==> v in names
    ensures forall v :: v in names ==> r[v] == Get(values, v)
  {
    map v | v in names :: Get(values, v)
  }

  /** One more step of the inner loop adds one more virtual name to the array. */
  lemma CollectStep(values: map<string, Value>, names: seq<string>, j: nat)
    requires j < |names|
    ensures Collect(values, names[..j + 1]) == Collect(values, names[..j])[names[j] := Get(values, names[j])]
  {
    assert names[..j + 1] == names[..j] + [names[j]];
  }

  /** The owner's values after `virtualToScalable` visited the storage columns
      `stores`: for each column, the virtual values are collected afresh,
      converted, and a successful blob is written into that column. */
  function PackInto(lib: Library, level: int, values: map<string, Value>, stores: seq<string>, names: seq<string>)
    : (r: map<string, Value>)
    // packing removes no attribute and adds none but storage columns
    ensures values.Keys <= r.Keys
    ensures forall k :: k in r && k !in values ==> k in stores
  {
    if stores == [] then values
    else
      var prev := PackInto(lib, level, values, stores[..|stores| - 1], names);
      match Convert(lib, level, Arr(Collect(prev, names)))
      case Some(blob) => prev[stores[|stores| - 1] := Str(blob)]
      case None => prev
  }

  /** The entries of `m` whose keys are not in `pending`. */
  function Written(m: map<string, Value>, pending: set<string>): (r: map<string, Value>) {
    map k | k in m.Keys - pending :: m[k]
  }

  /** Writing one more pending key of `m` onto the owner. */
  lemma WriteOneKey(before: map<string, Value>, m: map<string, Value>, pending: set<string>, key: string)
    requires key in pending && pending <= m.Keys
    ensures (before + Written(m, pending))[key := m[key]] == before + Written(m, pending - {key})
  {
  }

  /** With nothing pending, all of `m` is written. */
  lemma WrittenAll(m: map<string, Value>)
    ensures Written(m, {}) == m
  {
  }

  /** One more storage column visited by the packing loop. */
  lemma PackStep(lib: Library, level: int, values: map<string, Value>, stores: seq<string>, names: seq<string>, i: nat,
                  prev: map<string, Value>, blob: Option<string>)
    requires i < |stores|
    requires prev == PackInto(lib, level, values, stores[..i], names)
    requires blob == Convert(lib, level, Arr(Collect(prev, names)))
    ensures PackInto(lib, level, values, stores[..i + 1], names) ==
      if blob.Some? then prev[stores[i] := Str(blob.value)] else prev
  {
    assert stores[..i + 1][..i] == stores[..i];
  }

  /** One more storage column visited by the unpacking loop. */
  lemma UnpackStep(lib: Library, level: int, values: map<string, Value>, stores: seq<string>, i: nat,
                    prev: map<string, Value>, m: Option<map<string, Value>>)
    requires i < |stores|
    requires prev == UnpackInto(lib, level, values, stores[..i])
    requires m == UnConvert(lib, level, Get(prev, stores[i]))
    ensures UnpackInto(lib, level, values, stores[..i + 1]) == if m.Some? then prev + m.value else prev
  {
    assert stores[..i + 1][..i] == stores[..i];
  }

  /** The owner's values after `scalableToVirtual` visited the storage columns
      `stores`: each column's current value is unconverted and every key of a
      resulting array is written onto the owner. */
  function UnpackInto(lib: Library, level: int, values: map<string, Value>, stores: seq<string>)
    : (r: map<string, Value>)
    // unpacking removes no attribute
    ensures values.Keys <= r.Keys
  {
    if stores == [] then values
    else
      var prev := UnpackInto(lib, level, values, stores[..|stores| - 1]);
      match UnConvert(lib, level, Get(prev, stores[|stores| - 1]))
      case Some(m) => prev + m
      case None => prev
  }

  /** The keys of the arrays that `scalableToVirtual` unconverted successfully. */
  ghost function UnpackedKeys(lib: Library, level: int, values: map<string, Value>, stores: seq<string>): (r: set<string>)
  {
    if stores == [] then {}
    else
      var prev := UnpackInto(lib, level, values, stores[..|stores| - 1]);
      UnpackedKeys(lib, level, values, stores[..|stores| - 1]) +
      match UnConvert(lib, level, Get(prev, stores[|stores| - 1]))
      case Some(m) => m.Keys
      case None => {}
  }

  /** Packing writes to storage columns only, and adds no other attribute. */
  lemma {:induction false} PackFrame(lib: Library, level: int, values: map<string, Value>, stores: seq<string>, names: seq<string>)
    ensures values.Keys <= PackInto(lib, level, values, stores, names).Keys
    ensures forall k :: k in PackInto(lib, level, values, stores, names) && k !in values ==> k in stores
    ensures forall k :: k in values && k !in stores ==> PackInto(lib, level, values, stores, names)[k] == values[k]
  {
    if stores != [] {
      PackFrame(lib, level, values, stores[..|stores| - 1], names);
    }
  }

  /** When no storage column is also a virtual name, every storage column
      receives the same blob: the conversion of the virtual values as they were
      before the hook. If that conversion fails, nothing changes. */
  lemma {:induction false} PackSameBlob(lib: Library, level: int, values: map<string, Value>, stores: seq<string>, names: seq<string>)
    requires forall a :: a in stores ==> a !in names
    ensures PackInto(lib, level, values, stores, names) == WithOneBlob(lib, level, values, stores, names)
  {
    if stores != [] {
      var init := stores[..|stores| - 1];
      var last := stores[|stores| - 1];
      var blob := Convert(lib, level, Arr(Collect(values, names)));
      PackSameBlob(lib, level, values, init, names);
      var prev := PackInto(lib, level, values, init, names);
      PackFrame(lib, level, values, init, names);
      CollectAgrees(prev, values, names, init);
      assert PackInto(lib, level, values, stores, names) ==
        if blob.Some? then prev[last := Str(blob.value)] else prev;
      if blob.Some? {
        assert prev == values + map a | a in init :: Str(blob.value);
        OverwriteExtend(values, init, last, Str(blob.value));
        assert init + [last] == stores;
      }
    }
  }

  /** `values` with one blob, the conversion of the virtual values, written
      into every storage column; `values` itself when the conversion fails. */
  function WithOneBlob(lib: Library, level: int, values: map<string, Value>, stores: seq<string>, names: seq<string>)
    : (r: map<string, Value>)
  {
    var blob := Convert(lib, level, Arr(Collect(values, names)));
    if blob.Some? then values + map a | a in stores :: Str(blob.value) else values
  }

  /** The collected array only looks at the virtual names. */
  lemma CollectAgrees(prev: map<string, Value>, values: map<string, Value>, names: seq<string>, stores: seq<string>)
    requires forall a :: a in stores ==> a !in names
    requires forall k :: k in values && k !in stores ==> k in prev && prev[k] == values[k]
    requires forall k :: k in prev && k !in values ==> k in stores
    ensures Collect(prev, names) == Collect(values, names)
  {
    forall v | v in names ensures Get(prev, v) == Get(values, v) {
      assert v !in stores;
    }
  }

  /** Writing one more column with the blob extends the overwrite by that column. */
  lemma OverwriteExtend(values: map<string, Value>, init: seq<string>, last: string, b: Value)
    ensures (values + map a | a in init :: b)[last := b] == values + map a | a in init + [last] :: b
  {
  }

  /** Unpacking writes only keys of arrays it unconverted successfully, and
      removes no attribute. */
  lemma {:induction false} UnpackFrame(lib: Library, level: int, values: map<string, Value>, stores: seq<string>)
    ensures values.Keys <= UnpackInto(lib, level, values, stores).Keys
    ensures UnpackedKeys(lib, level, values, stores) <= UnpackInto(lib, level, values, stores).Keys
    ensures forall k :: k in UnpackInto(lib, level, values, stores) && k !in values ==>
      k in UnpackedKeys(lib, level, values, stores)
    ensures forall k :: k in values && k !in UnpackedKeys(lib, level, values, stores) ==>
      UnpackInto(lib, level, values, stores)[k] == values[k]
  {
    if stores != [] {
      UnpackFrame(lib, level, values, stores[..|stores| - 1]);
    }
  }

  /** When no storage column holds a value that unconverts, the owner is left as it was. */
  lemma {:induction false} UnpackNothingDecodes(lib: Library, level: int, values: map<string, Value>, stores: seq<string>)
    requires forall a :: a in stores ==> UnConvert(lib, level, Get(values, a)).None?
    ensures UnpackInto(lib, level, values, stores) == values
  {
    if stores != [] {
      UnpackNothingDecodes(lib, level, values, stores[..|stores| - 1]);
    }
  }

  /** Unpacking columns that all hold one blob, which unconverts to `m` and
      whose keys are none of those columns, adds `m` to the owner. */
  lemma {:induction false} UnpackSameBlob(lib: Library, level: int, values: map<string, Value>, stores: seq<string>,
                                          blob: string, m: map<string, Value>)
    requires forall a :: a in stores ==> a in values && values[a] == Str(blob) && a !in m
    requires UnConvert(lib, level, Str(blob)) == Some(m)
    ensures UnpackInto(lib, level, values, stores) == if stores == [] then values else values + m
  {
    if stores != [] {
      var init := stores[..|stores| - 1];
      UnpackSameBlob(lib, level, values, init, blob, m);
      var prev := UnpackInto(lib, level, values, init);
      var last := stores[|stores| - 1];
      assert Get(prev, last) == Str(blob);
      if init != [] {
        assert prev + m == values + m;
      }
    }
  }

  /** The save-then-load cycle at compression level 0: packing the virtual
      values into storage columns that are no virtual names, then unpacking
      those columns, restores every virtual value and keeps the blob in every
      storage column. */
  lemma {:induction false} PackThenUnpack(lib: Library, values: map<string, Value>, stores: seq<string>, names: seq<string>)
    requires Lawful(lib)
    requires stores != [] && names != []
    requires forall a :: a in stores ==> a !in names
    requires lib.serialize(Arr(Collect(values, names))).Some?
    ensures var packed := PackInto(lib, 0, values, stores, names);
            var restored := UnpackInto(lib, 0, packed, stores);
            (forall v :: v in names ==> v in restored && restored[v] == Get(values, v)) &&
            (forall a :: a in stores ==> Get(restored, a) == Get(packed, a)) &&
            (forall k :: k !in stores && k !in names ==> Get(restored, k) == Get(values, k))
  {
    var m := Collect(values, names);
    assert names[0] in m;
    var blob := Convert(lib, 0, Arr(m)).value;
    RoundTripUncompressed(lib, 0, m);
    PackSameBlob(lib, 0, values, stores, names);
    var packed := PackInto(lib, 0, values, stores, names);
    assert packed == values + map a | a in stores :: Str(blob);
    forall a | a in stores ensures a in packed && packed[a] == Str(blob) && a !in m {
      assert a !in names;
    }
    UnpackSameBlob(lib, 0, packed, stores, blob, m);
    var restored := UnpackInto(lib, 0, packed, stores);
    assert restored == packed + m;
    forall k | k !in stores && k !in names ensures Get(restored, k) == Get(values, k) {
      assert k !in m && (k in packed <==> k in values);
    }
  }

  /** The save-then-reload cycle at compression level 0: a record reloaded
      with only the storage columns the save hook wrote gets every virtual
      value back from them, and each storage column keeps its blob. */
  lemma {:induction false} ReloadRestores(lib: Library, values: map<string, Value>, stores: seq<string>, names: seq<string>)
    requires Lawful(lib)
    requires stores != [] && names != []
    requires forall a :: a in stores ==> a !in names
    requires lib.serialize(Arr(Collect(values, names))).Some?
    ensures var packed := PackInto(lib, 0, values, stores, names);
            var loaded := map k | k in packed && k in stores :: packed[k];
            var restored := UnpackInto(lib, 0, loaded, stores);
            (forall v :: v in names ==> v in restored && restored[v] == Get(values, v)) &&
            (forall a :: a in stores ==> Get(restored, a) == Get(packed, a))
  {
    var m := Collect(values, names);
    assert names[0] in m;
    var blob := Convert(lib, 0, Arr(m)).value;
    RoundTripUncompressed(lib, 0, m);
    PackSameBlob(lib, 0, values, stores, names);
    var packed := PackInto(lib, 0, values, stores, names);
    assert packed == values + map a | a in stores :: Str(blob);
    var loaded := map k | k in packed && k in stores :: packed[k];
    forall a | a in stores ensures a in loaded && loaded[a] == Str(blob) && a !in m {
      assert a !in names;
    }
    UnpackSameBlob(lib, 0, loaded, stores, blob, m);
    var restored := UnpackInto(lib, 0, loaded, stores);
    assert restored == loaded + m;
  }
}
