/** The name reconciliation behind `scalableAttributesNames` and
    `virtualAttributesNames`: keep the configured names whose column status is
    the wanted one (a real column for storage attributes, not a column for
    virtual attributes), drop repeats, keep the configured order, and memoise a
    non-empty result. */
module Names {
  import opened PhpValue

  predicate NoDuplicates(s: seq<string>) {
    forall i, j :: 0 <= i < j < |s| ==> s[i] != s[j]
  }

  /** The position of the first occurrence of `x` in `s`. */
  function IndexOf(s: seq<string>, x: string): (i: nat)
    requires x in s
    ensures i < |s| && s[i] == x && x !in s[..i]
  {
    if s[0] == x then 0 else 1 + IndexOf(s[1..], x)
  }

  /** The list the `foreach` loop builds from the configured names: a name
      is appended when `in_array($a, columns)` is `wantColumn` and it is not
      yet in the list. Defined on prefixes, as the loop sees them. */
  function Reconcile(names: seq<string>, columns: seq<string>, wantColumn: bool): (r: seq<string>)
    // the loop only keeps configured names, and never more of them than there are
    ensures |r| <= |names|
    ensures forall x :: x in r ==> x in names
  {
    if names == [] then []
    else
      var acc := Reconcile(names[..|names| - 1], columns, wantColumn);
      var a := names[|names| - 1];
      if (a in columns) == wantColumn && a !in acc then acc + [a] else acc
  }

  /** True when a reconciling accessor gets past its two early returns (a
      filled cache; a non-array or empty configuration) and runs its loop,
      which calls `objAttributesNames` once per configured name. */
  predicate RunsLoop(cache: seq<string>, config: Option<seq<string>>) {
    cache == [] && config.Some? && config.value != []
  }

  /** The result of a reconciling accessor, given its cache field, its
      configuration (`None` when the configuration is not an array) and the
      owner's column list. A non-empty cache is returned as it is; otherwise an
      unusable configuration or an empty filtered list gives `None` (PHP null). */
  function Memoized(cache: seq<string>, config: Option<seq<string>>, columns: seq<string>, wantColumn: bool)
    : (r: Option<seq<string>>)
    // stale cache: once filled, the cache wins whatever the configuration or columns
    ensures cache != [] ==> r == Some(cache)
    // a non-array or empty configuration yields null
    ensures cache == [] && (config.None? || config.value == []) ==> r.None?
    // a computed result is the reconciled list, and null exactly when that list is empty
    ensures cache == [] && config.Some? ==>
      r == (if Reconcile(config.value, columns, wantColumn) == [] then None
            else Some(Reconcile(config.value, columns, wantColumn)))
    // a result is never an empty list
    ensures r.Some? ==> r.value != []
  {
    if cache != [] then Some(cache)
    else if config.None? || config.value == [] then None
    else
      var attributes := Reconcile(config.value, columns, wantColumn);
      if attributes != [] then Some(attributes) else None
  }

  /** The reconciled list holds exactly the configured names with the wanted
      column status, each once, in the order of their first occurrence in the
      configuration. */
  lemma {:induction false} ReconcileCharacterised(names: seq<string>, columns: seq<string>, wantColumn: bool)
    ensures forall x :: x in Reconcile(names, columns, wantColumn) <==> x in names && (x in columns) == wantColumn
    ensures NoDuplicates(Reconcile(names, columns, wantColumn))
    ensures forall i, j :: 0 <= i < j < |Reconcile(names, columns, wantColumn)| ==>
      IndexOf(names, Reconcile(names, columns, wantColumn)[i]) < IndexOf(names, Reconcile(names, columns, wantColumn)[j])
  {
    if names != [] {
      var prefix := names[..|names| - 1];
      var a := names[|names| - 1];
      assert names == prefix + [a];
      ReconcileCharacterised(prefix, columns, wantColumn);
      var acc := Reconcile(prefix, columns, wantColumn);
      forall x | x in prefix ensures IndexOf(names, x) == IndexOf(prefix, x) {
        IndexOfPrefix(prefix, a, x);
      }
      if (a in columns) == wantColumn && a !in acc {
        assert a !in prefix;
        assert IndexOf(names, a) == |prefix| by { IndexOfLast(prefix, a); }
      }
    }
  }

  /** Extending a sequence leaves the first occurrence of a name already present where it was. */
  lemma IndexOfPrefix(prefix: seq<string>, a: string, x: string)
    requires x in prefix
    ensures IndexOf(prefix + [a], x) == IndexOf(prefix, x)
  {
    var j := IndexOf(prefix, x);
    assert (prefix + [a])[..j] == prefix[..j];
    IndexOfUnique(prefix + [a], x, j);
  }

  /** A name first occurring at the end of a sequence is found there. */
  lemma IndexOfLast(prefix: seq<string>, a: string)
    requires a !in prefix
    ensures IndexOf(prefix + [a], a) == |prefix|
  {
    assert (prefix + [a])[..|prefix|] == prefix;
    IndexOfUnique(prefix + [a], a, |prefix|);
  }

  /** The first occurrence is the only position holding `x` with no `x` before it. */
  lemma IndexOfUnique(s: seq<string>, x: string, k: nat)
    requires k < |s| && s[k] == x && x !in s[..k]
    ensures IndexOf(s, x) == k
  {
  }

  /** Storage names are filtered to real columns and virtual names away from
      them, so against one column list the two resolved lists never share a name. */
  lemma {:induction false} ResolvedListsDisjoint(storage: seq<string>, virtual: seq<string>, columns: seq<string>)
    ensures forall x :: x in Reconcile(storage, columns, true) ==> x !in Reconcile(virtual, columns, false)
  {
    ReconcileCharacterised(storage, columns, true);
    ReconcileCharacterised(virtual, columns, false);
  }

  /** Worked cases of the reconciliation for virtual names: ["a","b","a"]
      against columns ["b","c"] resolves to ["a"], a name that is a column is
      no virtual name at all, and an empty configuration gives null. */
  lemma {:induction false} VirtualNameExamples()
    ensures Memoized([], Some(["a", "b", "a"]), ["b", "c"], false) == Some(["a"])
    ensures Memoized([], Some(["x"]), ["x"], false).None?
    ensures Memoized([], Some([]), ["x"], false).None?
  {
    assert ["a", "b", "a"][..2] == ["a", "b"];
    assert ["a", "b"][..1] == ["a"];
    assert ["a"][..0] == [];
    assert Reconcile(["a"], ["b", "c"], false) == ["a"];
    assert Reconcile(["a", "b"], ["b", "c"], false) == ["a"];
    assert Reconcile(["a", "b", "a"], ["b", "c"], false) == ["a"];
    assert ["x"][..0] == [];
  }

  /** Worked cases for storage names: a configured name that is a column is
      kept, one that is not gives null. */
  lemma {:induction false} StorageNameExamples()
    ensures Memoized([], Some(["value"]), ["id", "value"], true) == Some(["value"])
    ensures Memoized([], Some(["missing"]), ["id", "value"], true).None?
  {
    assert ["value"][..0] == [];
    assert "value" in ["id", "value"];
    assert Reconcile(["value"], ["id", "value"], true) == ["value"];
    assert ["missing"][..0] == [];
  }
}
