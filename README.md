# ScalableBehavior, modelled in Dafny

`ScalableBehavior` is a Yii 2 behaviour. It lets an ActiveRecord model carry
"virtual" attributes that have no column of their own. On save, the values of
the virtual attributes are collected into an array. The array is serialized,
optionally compressed with zlib, and the resulting blob is written into one or
more real "scalable" (storage) columns. On load, each storage column is
unserialized and every key of the resulting array is written back onto the
record. Both the configured storage names and the configured virtual names are
reconciled against the record's real column list. The reconciled lists are
filtered, deduplicated and memoised in the behaviour's protected fields.

The model has five modules:

- `PhpValue`: PHP values (`Value`), PHP's `empty()` (`Empty`, characterised
  by `EmptyExactly`) and reads of a missing attribute (`Get`, which gives null).
- `Codec`: `convert` and `unConvert` as the functions `Convert` and
  `UnConvert`. They work over a `Library` of foreign functions: `serialize`,
  `unserialize`, `gzcompress`, `gzuncompress`, and the two `function_exists`
  tests. Nothing is assumed about them, except in lemmas that require the
  serializer law `Lawful` or the PHP 5/7 zlib law `ZlibOfPhp7`.
- `Names`: the filter-and-deduplicate loop of the two reconciling accessors
  (`Reconcile`) and the memoisation around it (`Memoized`).
- `Hooks`: what the two lifecycle hooks do to the owner's attribute map, as
  folds over the storage columns (`Collect`, `PackInto`, `UnpackInto`).
- `Scalable`: the behaviour as a class. It holds the configuration, the three
  cache fields `_scalableAttributes`, `_virtualAttributes` and
  `_objAttributes`, and an `Owner` object with an attribute map and a column
  list. Its methods update those fields in place, and each method is proved
  against the functions above.

The model follows the code as written, including these points:

- `unConvert` unserializes first and only then calls `gzuncompress`, passing
  the compression level as that call's maximum-length argument. This is not
  the inverse of `convert`, which would decompress and then deserialize.
  Because of the code's order, the round trip is proved only where zlib is
  used on neither side (level 0, or neither `gzcompress` nor `gzuncompress`
  present). `NonZeroLevelRejectsCompressedBlob` shows how it breaks at a
  non-zero level where `gzcompress` succeeds. With PHP 5/7's zlib, `NonZeroLevelRejectsEverything` shows that at a
  non-zero level `unConvert` rejects every input, so the load hook restores
  nothing at all.
- `scalableToVirtual` writes every key of each unconverted array onto the
  owner. It does not default missing virtual names to an empty value, and it
  does not filter out keys that are not virtual names.
- Each accessor fills `_objAttributes` only when it gets past its early
  returns (`RunsLoop`), because only its loop calls `objAttributesNames`.
- The two caches can overlap. If the virtual list was cached while the owner
  reported no columns, its names are never rechecked against the columns that
  appear later. The ghost field `virtualBasis` records which column list the
  virtual cache was filtered against. `Valid()` states that the virtual cache
  is disjoint from that list, and `VirtualCacheChecked()` that the list is the
  cached column list. Under both, `ResolvedNamesDisjoint` shows that the two
  accessors share no name. So the save hook then writes one and the same blob
  into every storage column (`SaveWritesOneBlob`, `SaveWithCheckedCache`).
  Every method that can fill the virtual cache keeps `VirtualCacheChecked()`
  while the owner reports columns, so on such an owner the property holds for
  every later save as well (`SetThenSave`).

## Model

| member | source | states |
|---|---|---|
| `PhpValue.EmptyExactly` | ScalableBehavior.php:115 | PHP `empty()`, as `Empty`, holds of exactly null, false, 0, "", "0" and the empty array. The same test is made at lines 136, 146, 163, 166, 176, 190, 193, 203 and 216-221. |
| `Codec.Convert` | ScalableBehavior.php:113-126 | Packing fails (PHP `false`) exactly for empty data or data the serializer refuses. Without compression (level 0, or no `gzcompress`) the blob is exactly the serialization. With compression it is the compressed serialization, and it falls back to the plain serialization when compression fails. |
| `Codec.UnConvert` | ScalableBehavior.php:134-150 | Every accepted result is a non-empty array. Empty input and a failed unserialize are rejected. Without decompression, the result is exactly the unserialized value, and it is accepted exactly when that value is a non-empty array. With decompression, the candidate is `gzuncompress` applied to the unserialized value, or the unserialized value itself when `gzuncompress` fails. The candidate is accepted exactly when it is a non-empty array. |
| `Codec.RoundTripUncompressed` | ScalableBehavior.php:113-150 | Under the serializer law, at any level where zlib is used on neither side (level 0, or neither `gzcompress` nor `gzuncompress` present), every successfully packed non-empty array unpacks to itself. |
| `Codec.NonZeroLevelRejectsCompressedBlob` | ScalableBehavior.php:139-144 | At a non-zero level, take a case where compression succeeds and the compressed bytes are not a serialization. Then unpacking rejects the very blob that packing produced, because unserialize runs before decompression. |
| `Codec.NonZeroLevelRejectsEverything` | ScalableBehavior.php:142-147 | With PHP 5/7's `gzuncompress` (it never yields an array, and yields null for an array argument), `unConvert` at a non-zero level with `gzuncompress` present rejects every input. |
| `Names.Reconcile` | ScalableBehavior.php:169-174 | The list the `foreach` builds, defined on prefixes of the configuration. It keeps only configured names and is never longer than the configuration. `ReconcileCharacterised` states exactly which names it holds and in what order. The virtual filter at lines 196-201 is the same function. |
| `Names.Memoized` | ScalableBehavior.php:161-177 | A non-empty cache is returned unchanged, whatever the configuration and columns (the stale cache). A non-array or empty configuration yields null. Otherwise the result is the reconciled list, or null when that list is empty, so the cache stays empty. No result is an empty list. The same function serves `virtualAttributesNames` (lines 188-204) with the opposite filter. |
| `Names.ReconcileCharacterised` | ScalableBehavior.php:169-174 | The reconciled list holds exactly the configured names whose column status is the wanted one. It holds each of them once, ordered by first occurrence in the configuration. This applies to both the storage filter (`in_array`) and the virtual filter (`!in_array`, lines 196-201). |
| `Names.ResolvedListsDisjoint` | ScalableBehavior.php:169-201 | Against one column list, the resolved storage names and the resolved virtual names share no name. |
| `Names.VirtualNameExamples` | ScalableBehavior.php:188-204 | Worked cases. `["a","b","a"]` against columns `["b","c"]` gives virtual names `["a"]`. A name that is a column, or an empty configuration, gives null. |
| `Names.StorageNameExamples` | ScalableBehavior.php:161-177 | Worked cases. `"value"` is a storage name of columns `["id","value"]`, while `"missing"` gives null. |
| `Hooks.Collect` | ScalableBehavior.php:77-80 | The array the inner loop of the save hook builds has exactly the virtual names as keys. It maps each of them to the owner's value, which is null for a missing attribute. |
| `Hooks.PackInto` | ScalableBehavior.php:76-84 | The owner's values after the save hook has visited a prefix of the storage columns. It removes no attribute and adds none but storage columns. `PackFrame` and `PackSameBlob` state the rest. |
| `Hooks.UnpackInto` | ScalableBehavior.php:98-104 | The owner's values after the load hook has visited a prefix of the storage columns. It removes no attribute. `UnpackFrame`, `UnpackNothingDecodes` and `UnpackSameBlob` state the rest. |
| `Hooks.PackFrame` | ScalableBehavior.php:76-84 | The save hook writes storage columns only. It removes no attribute, adds none other than a storage column, and leaves every other attribute's value unchanged. |
| `Hooks.PackSameBlob` | ScalableBehavior.php:76-84 | When no storage column is a virtual name, the save loop equals `WithOneBlob`: every storage column receives the same blob, the conversion of the virtual values as they were before the hook, and nothing changes if the conversion fails. |
| `Hooks.UnpackFrame` | ScalableBehavior.php:98-104 | The load hook removes no attribute. It changes or adds only keys of arrays it unconverted successfully, and all of those keys end up present. |
| `Hooks.UnpackNothingDecodes` | ScalableBehavior.php:98-104 | When no storage column holds a value that unconverts, the load hook leaves the owner unchanged. |
| `Hooks.UnpackSameBlob` | ScalableBehavior.php:98-104 | When every storage column holds one blob that unconverts to an array whose keys are none of those columns, the load hook adds that array to the owner. |
| `Hooks.PackThenUnpack` | ScalableBehavior.php:71-105 | Save then load at level 0, under the serializer law, with storage columns that are not virtual names. Every virtual value is restored, every storage column keeps its blob, and every other attribute is unchanged. |
| `Hooks.ReloadRestores` | ScalableBehavior.php:71-105 | Save at level 0, then reload a record holding only the storage columns the save wrote, under the serializer law and with storage columns that are not virtual names. The load hook gives every virtual value back, and every storage column keeps its blob. |
| `Scalable.ScalableBehavior.constructor` | ScalableBehavior.php:41-51 | A fresh behaviour has the given configuration and empty caches, and satisfies the cache invariant `Valid()`. |
| `Scalable.ScalableBehavior.ResolvedNamesDisjoint` | ScalableBehavior.php:161-204 | Under `Valid()`, and with the virtual cache filtered against the cached column list, the storage names and the virtual names the accessors answer with share no name, whether cached or computed. |
| `Scalable.ScalableBehavior.SaveWritesOneBlob` | ScalableBehavior.php:71-85 | In such a state, the save hook's effect on given values is to write one and the same blob, the conversion of the virtual values, into every resolved storage column. When the conversion fails the values are left unchanged. |
| `Scalable.ScalableBehavior.ObjAttributesNames` | ScalableBehavior.php:214-222 | Returns the cached column list when it is non-empty. Otherwise it returns the owner's columns and caches them, or returns null if there are none. |
| `Scalable.ScalableBehavior.ScalableAttributesNames` | ScalableBehavior.php:161-177 | Returns `Memoized` of the prior cache, configuration and columns. Afterwards the cache holds the result when there is one and stays empty otherwise. A second call gives the same answer, and the column list the owner reports is unchanged. `_objAttributes` is filled with the owner's columns exactly when the loop runs and it was empty; otherwise it is unchanged. |
| `Scalable.ScalableBehavior.VirtualAttributesNames` | ScalableBehavior.php:188-204 | The same as `ScalableAttributesNames`, with the opposite column filter, for `_virtualAttributes`, including the exact new `_objAttributes`. A virtual cache checked against the columns stays checked while the owner reports columns. |
| `Scalable.ScalableBehavior.VirtualToScalable` | ScalableBehavior.php:71-85 | Returns early, changing no attribute, when no storage column resolves. Otherwise the owner's attributes become `PackInto` of the attributes before the hook, the resolved storage columns and the resolved virtual names. The answers of both accessors are unchanged. `_objAttributes` is filled exactly when it was empty and one of the two accessors ran its loop. A virtual cache checked against the columns stays checked while the owner reports columns. |
| `Scalable.ScalableBehavior.PackColumns` | ScalableBehavior.php:76-84 | The outer loop of the save hook. It takes the owner's attributes to `PackInto` and leaves the virtual-name answer unchanged. `_objAttributes` is filled exactly when there is a storage column, the virtual accessor runs its loop, and it was empty. A virtual cache checked against the columns stays checked while the owner reports columns. |
| `Scalable.ScalableBehavior.PackColumn` | ScalableBehavior.php:77-83 | One pass of the outer loop: the result is the conversion of the collected virtual values, and it is written into the storage column exactly when the conversion succeeds. |
| `Scalable.ScalableBehavior.CollectVirtual` | ScalableBehavior.php:77-80 | The inner loop of the save hook builds exactly `Collect`: each virtual name mapped to the owner's value for it. |
| `Scalable.ScalableBehavior.ScalableToVirtual` | ScalableBehavior.php:93-105 | Returns early, changing no attribute, when no storage column resolves. Otherwise the owner's attributes become `UnpackInto` of the attributes before the hook and the resolved storage columns. `_objAttributes` changes exactly as in `ScalableAttributesNames`. |
| `Scalable.ScalableBehavior.UnpackColumns` | ScalableBehavior.php:98-104 | The outer loop of the load hook. It takes the owner's attributes to `UnpackInto`. |
| `Scalable.ScalableBehavior.AssignAll` | ScalableBehavior.php:100-102 | The inner loop of the load hook. Afterwards the owner's attributes are the previous ones overwritten with the whole unconverted array. |
| `Scalable.ScalableBehavior.CanSetProperty` | ScalableBehavior.php:239-242 | True exactly when the name is among the resolved virtual names. `_objAttributes` changes exactly as in `VirtualAttributesNames`. A virtual cache checked against the columns stays checked while the owner reports columns. |
| `Scalable.ScalableBehavior.SetProperty` | ScalableBehavior.php:227-234 | A resolved virtual name is assigned onto the owner. Any other name is reported as unhandled, and the owner is left unchanged. `_objAttributes` changes exactly as in `VirtualAttributesNames`. A virtual cache checked against the columns stays checked while the owner reports columns. |
| `Scalable.StaleStorageNames` | ScalableBehavior.php:163-164 | Once `scalableAttributesNames` has answered with a list, it answers with the same list after the configuration and the owner's columns have changed. |
| `Scalable.SaveWithCheckedCache` | ScalableBehavior.php:71-85 | The save hook run on a behaviour satisfying `Valid()` whose virtual cache was filtered against the cached columns. Every resolved storage column receives one and the same blob, packed from the owner's values before the hook. The behaviour stays valid, and stays checked while the owner reports columns. |
| `Scalable.SetThenSave` | ScalableBehavior.php:71-85 | `__set` followed by the save hook on a checked behaviour whose owner reports columns. The name is handled exactly when it is a resolved virtual name, and the save writes one blob, packed from the values with that assignment applied, into every resolved storage column. |

## Left out

- `events()` (lines 56-64) is framework wiring. The hooks are methods that the host calls, and the `$event` argument is dropped.
- The fallbacks `parent::__set` and `parent::canSetProperty` (lines 232, 241) are host magic-property behaviour. `SetProperty` reports `handled == false` instead, and `CanSetProperty` keeps only the membership test. How the owner's own magic setter dispatches back into the behaviour is not modelled: the owner is a plain attribute map.
- How `$this->owner->attributes()` is computed is an ORM schema lookup. The model takes the column list as the owner's `columns` field.
- The byte formats of PHP `serialize` and of zlib (RFC 1950 / RFC 1951) are foreign code, and so are the `function_exists` checks. They are the fields of `Codec.Library`. Only `Lawful` and `ZlibOfPhp7` are assumed, and only by the lemmas that require them.
- Codec.RoundTripUncompressed: the round trip is stated only where zlib is used on neither side. At a non-zero level with zlib present the code's unserialize-first order makes no such promise, and no size claim about compression is made.
- PHP 8 raises a TypeError when `gzuncompress` (line 143) is handed an unserialized array, which is what every uncompressed blob `convert` produced unserializes to (level 0, no `gzcompress`, or a failed compression). A compressed blob does not get that far: its unserialize fails and `unConvert` returns at lines 139-140. The model lets `gzuncompress` return a value instead. `ZlibOfPhp7` states what PHP 5 and 7 return (null, with a warning).
- PHP 8 raises a ValueError from `gzcompress` (line 122) for a level outside -1..9. The model treats `gzcompress` as a function that may fail with `None` and otherwise places no range on the level.
- `Value` has no float, object or resource case. Attribute values of those kinds are not modelled.
- PHP 8 TypeErrors and PHP 7 warnings from `foreach`/`in_array` over a null list are not modelled. A null column list is taken as an empty list, which is what `in_array` returning null gives under PHP 7. A null virtual-name list makes the save hook's inner loop collect nothing.
- `in_array` uses loose comparison. The model compares names as exact strings, so non-string configuration entries and numeric-string coincidences are not modelled.
- PHP arrays are ordered and may have integer keys. The model's arrays are maps with string keys, so insertion order, which feeds `serialize`, is invisible, and so is the order in which `foreach` assigns keys.
- `(int)` casts of a non-integer `compressionLevel` are not modelled: the level is an `int`.
- Reading an attribute the owner does not hold gives null in the model. The host would raise an error or consult other behaviours.
- The hooks' PHP return values are not modelled. The model returns `ran == false` for the early `return false`, and `true` where PHP returns null.
