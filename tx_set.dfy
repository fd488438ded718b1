/**
 * The transaction pool's set of transaction hashes: a Go map from hash to
 * `true`, held by reference. Two sets can end up sharing one map, and the
 * membership test answers the opposite of its name.
 */
module TxSet {
  import opened Common

  /** A Go `map[common.Hash]bool`: a reference, so two holders can share it. */
  class HashMap {
    var m: map<Hash, bool>

    constructor ()
      ensures m == map[]
    {
      m := map[];
    }
  }

  /** The hashes of a list. */
  function Members(xs: seq<Hash>): set<Hash>
  {
    set e | e in xs
  }

  /** The map after setting every key of `ks` to `true` (`insertList`, `merge`). */
  function InsertKeys(m: map<Hash, bool>, ks: set<Hash>): map<Hash, bool>
  {
    map k | k in m.Keys + ks :: if k in ks then true else m[k]
  }

  /** The map after `delete`: the key is removed only when `exist` says so. */
  function DeleteIfExists(m: map<Hash, bool>, elem: Hash): map<Hash, bool>
  {
    if elem !in m then m - {elem} else m
  }

  /** Inserting yields the union of the old keys and the new ones, each new one mapped to true. */
  lemma InsertKeysIsUnion(m: map<Hash, bool>, ks: set<Hash>)
    ensures InsertKeys(m, ks).Keys == m.Keys + ks
    ensures forall k | k in ks :: InsertKeys(m, ks)[k]
    ensures forall k | k in m.Keys && k !in ks :: InsertKeys(m, ks)[k] == m[k]
  {
  }

  /** Inserting the same keys twice is inserting them once. */
  lemma InsertKeysIdempotent(m: map<Hash, bool>, ks: set<Hash>)
    ensures InsertKeys(InsertKeys(m, ks), ks) == InsertKeys(m, ks)
  {
    var once := InsertKeys(m, ks);
    assert InsertKeys(once, ks).Keys == once.Keys;
  }

  /** Re-inserting a key that is present does not change the size. */
  lemma ReinsertKeepsSize(m: map<Hash, bool>, elem: Hash)
    requires elem in m
    ensures |InsertKeys(m, {elem})| == |m|
  {
    assert InsertKeys(m, {elem}).Keys == m.Keys;
  }

  /** Inserting one key after a set of them is inserting the set with that key. */
  lemma InsertKeysStep(m: map<Hash, bool>, ks: set<Hash>, elem: Hash)
    ensures InsertKeys(InsertKeys(m, ks), {elem}) == InsertKeys(m, ks + {elem})
  {
    var a, b := InsertKeys(InsertKeys(m, ks), {elem}), InsertKeys(m, ks + {elem});
    assert a.Keys == b.Keys;
  }

  /** `delete` never changes the map: it only tries to remove hashes that are absent. */
  lemma DeleteChangesNothing(m: map<Hash, bool>, elem: Hash)
    ensures DeleteIfExists(m, elem) == m
  {
    if elem !in m {
      assert (m - {elem}).Keys == m.Keys;
    }
  }

  /** `txHashSet`: a reference to a map. */
  class TxHashSet {
    var s: HashMap

    /** `newTxHashSet`: a set with a map of its own, empty. */
    constructor ()
      ensures fresh(s) && s.m == map[]
    {
      s := new HashMap();
    }

    /** `loop`: the map itself, not a copy. */
    method Loop() returns (r: HashMap)
      ensures r == s
    {
      return s;
    }

    /** `exist`: true exactly when the hash is NOT in the map. */
    method Exist(elem: Hash) returns (b: bool)
      ensures b <==> elem !in s.m
    {
      b := elem !in s.m;
    }

    /** `insert`: map the hash to true. */
    method Insert(elem: Hash)
      modifies s
      ensures s.m == InsertKeys(old(s.m), {elem})
    {
      s.m := s.m[elem := true];
      assert s.m == InsertKeys(old(s.m), {elem});
    }

    /** `insertList`: insert each hash of the list in turn. */
    method InsertList(elems: seq<Hash>)
      modifies s
      ensures s.m == InsertKeys(old(s.m), Members(elems))
    {
      var i := 0;
      while i < |elems|
        invariant 0 <= i <= |elems|
        invariant s.m == InsertKeys(old(s.m), Members(elems[..i]))
      {
        Insert(elems[i]);
        InsertKeysStep(old(s.m), Members(elems[..i]), elems[i]);
        assert elems[..i + 1] == elems[..i] + [elems[i]];
        assert Members(elems[..i + 1]) == Members(elems[..i]) + {elems[i]};
        i := i + 1;
      }
      assert elems[..i] == elems;
    }

    /** `size`: the number of hashes in the map. */
    method Size() returns (n: nat)
      ensures n == |s.m.Keys|
    {
      n := |s.m|;
    }

    /** `delete`: remove the hash if `exist` holds, which it does only for absent hashes. */
    method Delete(elem: Hash)
      modifies s
      ensures s.m == DeleteIfExists(old(s.m), elem) == old(s.m)
    {
      var e := Exist(elem);
      if e {
        s.m := s.m - {elem};
      }
      DeleteChangesNothing(old(s.m), elem);
    }

    /** `merge`: set every hash of the other set's map to true in this one. */
    method Merge(rset: TxHashSet)
      modifies s
      ensures s.m == InsertKeys(old(s.m), old(rset.s.m).Keys)
    {
      var todo := rset.s.m.Keys;
      ghost var all := todo;
      while todo != {}
        invariant todo <= all
        invariant s.m == InsertKeys(old(s.m), all - todo)
      {
        var re :| re in todo;
        s.m := s.m[re := true];
        todo := todo - {re};
      }
      assert all - todo == all;
    }

    /** `replaceBy`: take the other set's map, by reference. */
    method ReplaceBy(rset: TxHashSet)
      modifies this
      ensures s == rset.s == old(rset.s)
    {
      s := rset.s;
    }
  }

  /**
   * After `a.replaceBy(b)`, a hash inserted through `b` shows up in what
   * `a.loop()` returns: both sets hold one map.
   */
  method ReplaceByShares(a: TxHashSet, b: TxHashSet, elem: Hash) returns (seen: map<Hash, bool>)
    modifies a, b.s
    ensures a.s == b.s
    ensures seen == InsertKeys(old(b.s.m), {elem})
  {
    a.ReplaceBy(b);
    b.Insert(elem);
    var shared := a.Loop();
    seen := shared.m;
  }
}
