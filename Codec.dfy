/** The pack/unpack routines `convert` and `unConvert` of ScalableBehavior.
    PHP's `serialize`, `unserialize`, `gzcompress` and `gzuncompress`, and the
    `function_exists` tests guarding the latter two, are foreign code: they are
    the fields of a `Library`, and only the law `Lawful` is assumed of them. */
module Codec {
  import opened PhpValue

  /** The foreign functions. A PHP `false` result of `serialize` or
      `gzcompress` is `None`; `unserialize` and `gzuncompress` return a PHP
      value, where `Bool(false)` is their failure result (PHP's `=== false`
      cannot tell a failed call from a serialized `false`). Both take any value
      because `unConvert` hands them whatever the owner or the previous step
      produced. */
  datatype Library = Library(
    serialize: Value -> Option<string>,
    unserialize: Value -> Value,
    hasGzcompress: bool,
    hasGzuncompress: bool,
    gzcompress: (string, int) -> Option<string>,
    gzuncompress: (Value, int) -> Value)

  /** What a PHP serializer guarantees: whatever `serialize` produces,
      `unserialize` maps back to the original value, and the produced string is
      never one that `empty()` rejects (every serialization starts with a type
      tag, so it is neither "" nor "0"). Nothing is assumed of the compressor. */
  ghost predicate Lawful(lib: Library) {
    forall v :: lib.serialize(v).Some? ==>
      lib.unserialize(Str(lib.serialize(v).value)) == v && !Empty(Str(lib.serialize(v).value))
  }

  /** How `gzuncompress` behaves under PHP 5 and 7: it never yields an array,
      and handed an array it warns and returns null (not `false`). */
  ghost predicate ZlibOfPhp7(lib: Library) {
    forall v, level :: !lib.gzuncompress(v, level).Arr? && (v.Arr? ==> lib.gzuncompress(v, level) == Null)
  }

  /** True when `(int)$this->compressionLevel != 0 && function_exists('gzcompress')`. */
  predicate Compresses(lib: Library, level: int) {
    level != 0 && lib.hasGzcompress
  }

  /** True when `(int)$this->compressionLevel != 0 && function_exists('gzuncompress')`. */
  predicate Uncompresses(lib: Library, level: int) {
    level != 0 && lib.hasGzuncompress
  }

  /** `convert($data)`: serialize, then compress when a level is set; `None` is PHP's `false`. */
  function Convert(lib: Library, level: int, data: Value): (r: Option<string>)
    // packing fails exactly for empty data or data the serializer refuses
    ensures r.None? <==> Empty(data) || lib.serialize(data).None?
    // without compression the blob is exactly the serialization
    ensures r.Some? && !Compresses(lib, level) ==> r == lib.serialize(data)
    // with compression the blob is the compressed serialization, and a failed
    // compression falls back to the uncompressed bytes instead of failing
    ensures r.Some? && Compresses(lib, level) ==>
      r == (var s := lib.serialize(data).value;
            if lib.gzcompress(s, level).Some? then lib.gzcompress(s, level) else Some(s))
  {
    if Empty(data) then None
    else match lib.serialize(data)
      case None => None
      case Some(s) =>
        if Compresses(lib, level) then
          match lib.gzcompress(s, level)
          case Some(z) => Some(z)
          case None => Some(s)
        else Some(s)
  }

  /** `unConvert($data)`: unserialize, then (as written) hand the unserialized
      value to `gzuncompress` with the compression level as its second argument,
      and accept only a non-empty array; `None` is PHP's `false`. */
  function UnConvert(lib: Library, level: int, data: Value): (r: Option<map<string, Value>>)
    // every accepted result is a non-empty array
    ensures r.Some? ==> r.value != map[]
    // empty input and a failed unserialize are rejected
    ensures Empty(data) || lib.unserialize(data) == Bool(false) ==> r.None?
    // without decompression the result is exactly the unserialized value, and
    // it is accepted exactly when that value is a non-empty array
    ensures !Empty(data) && !Uncompresses(lib, level) ==>
      (r.Some? <==> lib.unserialize(data).Arr? && lib.unserialize(data).entries != map[]) &&
      (r.Some? ==> Arr(r.value) == lib.unserialize(data))
    // with decompression the result is the decompressed value, or the
    // unserialized value when decompression fails
    ensures r.Some? && Uncompresses(lib, level) ==>
      var u := lib.unserialize(data);
      Arr(r.value) == (if lib.gzuncompress(u, level) != Bool(false) then lib.gzuncompress(u, level) else u)
    // and every decompressed (or fallen-back) non-empty array is accepted
    ensures !Empty(data) && lib.unserialize(data) != Bool(false) && Uncompresses(lib, level) ==>
      var u := lib.unserialize(data);
      var d := if lib.gzuncompress(u, level) != Bool(false) then lib.gzuncompress(u, level) else u;
      r == (if d.Arr? && d.entries != map[] then Some(d.entries) else None)
  {
    if Empty(data) then None
    else
      var u := lib.unserialize(data);
      if u == Bool(false) then None
      else
        var d := if Uncompresses(lib, level) then
                   (var x := lib.gzuncompress(u, level); if x != Bool(false) then x else u)
                 else u;
        if !d.Arr? || Empty(d) then None else Some(d.entries)
  }

  /** Without zlib on either side (level 0, or a non-zero level where neither
      `gzcompress` nor `gzuncompress` exists), unpacking a packed non-empty
      array gives the array back. */
  lemma RoundTripUncompressed(lib: Library, level: int, m: map<string, Value>)
    requires Lawful(lib)
    requires !Compresses(lib, level) && !Uncompresses(lib, level)
    requires m != map[]
    ensures Convert(lib, level, Arr(m)).Some? ==>
      UnConvert(lib, level, Str(Convert(lib, level, Arr(m)).value)) == Some(m)
  {
    if lib.serialize(Arr(m)).Some? {
      var s := lib.serialize(Arr(m)).value;
      assert lib.unserialize(Str(s)) == Arr(m) && !Empty(Str(s));
    }
  }

  /** At a non-zero level `unConvert` unserializes before it decompresses, the
      reverse of `convert`. So whenever compression succeeded and the compressed
      bytes are not themselves a serialization, the packed blob is rejected. */
  lemma NonZeroLevelRejectsCompressedBlob(lib: Library, level: int, m: map<string, Value>)
    requires m != map[]
    requires Compresses(lib, level)
    requires lib.serialize(Arr(m)).Some?
    requires lib.gzcompress(lib.serialize(Arr(m)).value, level).Some?
    requires lib.unserialize(Str(lib.gzcompress(lib.serialize(Arr(m)).value, level).value)) == Bool(false)
    ensures Convert(lib, level, Arr(m)) == lib.gzcompress(lib.serialize(Arr(m)).value, level)
    ensures UnConvert(lib, level, Str(Convert(lib, level, Arr(m)).value)).None?
  {
  }

  /** With a non-zero level and `gzuncompress` present, PHP 5/7's zlib makes
      `unConvert` reject every input: an unserialized array is handed to
      `gzuncompress` and comes back as null, and anything else is no array
      before or after decompression. So the load hook restores nothing then. */
  lemma NonZeroLevelRejectsEverything(lib: Library, level: int, data: Value)
    requires ZlibOfPhp7(lib)
    requires Uncompresses(lib, level)
    ensures UnConvert(lib, level, data).None?
  {
    var u := lib.unserialize(data);
    assert !lib.gzuncompress(u, level).Arr?;
    if u.Arr? {
      assert lib.gzuncompress(u, level) == Null;
    }
  }
}
