/** The embedded key-value store, reduced to what the index uses: keys kept in
    byte order, point writes and reads, a reverse seek, and write batches. */
module Store {
  import opened ByteStrings
  import opened IndexState

  ghost predicate Ascending(keys: seq<Bytes>) {
    forall i, j :: 0 <= i < j < |keys| ==> Leq(keys[i], keys[j]) && keys[i] != keys[j]
  }

  class KeyValueStore {
    var keys: seq<Bytes>
    var vals: Contents

    ghost predicate Valid()
      reads this
    {
      Ascending(keys) && forall k :: k in keys <==> k in vals
    }

    constructor ()
      ensures Valid() && vals == map[]
    {
      keys, vals := [], map[];
    }

    method Set(key: Bytes, val: Value)
      requires Valid()
      modifies this
      ensures Valid() && vals == old(vals)[key := val]
    {
      var i := 0;
      while i < |keys| && Leq(keys[i], key) && keys[i] != key
        invariant 0 <= i <= |keys|
        invariant forall j :: 0 <= j < i ==> Leq(keys[j], key) && keys[j] != key
      {
        i := i + 1;
      }
      if i == |keys| || keys[i] != key {
        InsertAscending(keys, i, key);
        assert forall k :: k in keys[..i] + [key] + keys[i..] <==> k in keys || k == key by {
          assert keys == keys[..i] + keys[i..];
        }
        keys := keys[..i] + [key] + keys[i..];
      }
      vals := vals[key := val];
    }

    /** Position of the greatest key not above the target, or -1. */
    method ReverseSeek(target: Bytes) returns (pos: int)
      requires Valid()
      ensures -1 <= pos < |keys|
      ensures IsFloor(vals.Keys, target, if pos < 0 then None else Some(keys[pos]))
    {
      pos := |keys| - 1;
      while pos >= 0 && !Leq(keys[pos], target)
        invariant -1 <= pos < |keys|
        invariant forall j :: pos < j < |keys| ==> !Leq(keys[j], target)
      {
        pos := pos - 1;
      }
      ghost var found := if pos < 0 then None else Some(keys[pos]);
      forall k | k in vals.Keys && Leq(k, target)
        ensures found.Some? && Leq(k, found.value)
      {
        var j :| 0 <= j < |keys| && keys[j] == k;
        LeqTotal(k, k);
      }
    }
  }

  lemma InsertAscending(keys: seq<Bytes>, i: nat, key: Bytes)
    requires Ascending(keys) && i <= |keys|
    requires forall j :: 0 <= j < i ==> Leq(keys[j], key) && keys[j] != key
    requires i < |keys| ==> !Leq(keys[i], key)
    ensures Ascending(keys[..i] + [key] + keys[i..])
  {
    var r := keys[..i] + [key] + keys[i..];
    forall j | i <= j < |keys| ensures Leq(key, keys[j]) && key != keys[j] {
      LeqTotal(key, keys[i]);
      if j > i {
        LeqTransitive(key, keys[i], keys[j]);
        if key == keys[j] {
          LeqAntisymmetric(keys[i], keys[j]);
        }
      }
    }
    assert forall j :: 0 <= j < |r| ==> r[j] == if j < i then keys[j] else if j == i then key else keys[j - 1];
  }

  lemma EncodesPut(db: Contents, s: State, key: Bytes, val: Value, p: Contents, e: State)
    requires Encodes(db, s) && p == map[key := val] && Encodes(p, e)
    ensures Encodes(db[key := val], Merge(s, e))
  {
    hide Encodes, Merge;
    EncodesMerge(db, s, p, e);
    assert db + p == db[key := val];
  }

  lemma ApplyOneMore(base: Contents, pending: Contents, rest: set<Bytes>, k: Bytes)
    requires k in rest && rest <= pending.Keys
    ensures (base + (pending - rest))[k := pending[k]] == base + (pending - (rest - {k}))
  {
  }

  /** Sets that stay invisible until the batch is flushed. */
  class WriteBatch {
    var pending: Contents
    ghost var effect: State

    ghost predicate Valid()
      reads this
    {
      Encodes(pending, effect)
    }

    constructor ()
      ensures Valid() && effect == EMPTY
    {
      pending, effect := map[], EMPTY;
    }

    method Set(key: Bytes, val: Value, ghost e: State)
      requires Valid() && Encodes(map[key := val], e)
      modifies this
      ensures Valid() && effect == Merge(old(effect), e)
    {
      EncodesPut(pending, effect, key, val, map[key := val], e);
      pending, effect := pending[key := val], Merge(effect, e);
    }

    method Flush(store: KeyValueStore)
      requires Valid() && store.Valid()
      modifies store
      ensures store.Valid() && store.vals == old(store.vals) + pending
    {
      var rest := pending.Keys;
      assert pending - rest == map[];
      while rest != {}
        invariant rest <= pending.Keys && store.Valid()
        invariant store.vals == old(store.vals) + (pending - rest)
        decreases rest
      {
        var k :| k in rest;
        store.Set(k, pending[k]);
        ApplyOneMore(old(store.vals), pending, rest, k);
        rest := rest - {k};
      }
      assert pending - {} == pending;
    }
  }
}
