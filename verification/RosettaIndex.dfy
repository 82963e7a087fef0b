/** deso/index.go: the balance index over the key-value store. Each twin pair of
    functions of the source (public-key maps and locked-stake maps) is one method
    here; lockedKeys tells which twin is meant. */
module RosettaIndex {
  import opened ByteStrings
  import opened Keys
  import opened IndexState
  import opened Store

  type BalanceMap = map<Holder, UInt64>

  ghost predicate Homogeneous(m: BalanceMap, lockedKeys: bool) {
    forall k :: k in m ==> k.LockedHolder? == lockedKeys
  }

  ghost function MapSnaps(t: BalanceType, height: UInt64, m: BalanceMap): set<Snap> {
    set k | k in m :: Snap(t, k, height, m[k])
  }

  ghost predicate HasEntry(s: State, t: BalanceType, holder: Holder, h: nat) {
    exists e :: e in s.snaps && About(e, t, holder, h)
  }

  /** What a batch holds when all but the rest of the map is written. */
  ghost function Written(base: State, t: BalanceType, height: UInt64, m: BalanceMap, rest: set<Holder>): State {
    Merge(base, State(MapSnaps(t, height, m - rest), map[]))
  }

  lemma MapSnapsNone(t: BalanceType, height: UInt64, m: BalanceMap, base: State)
    ensures Written(base, t, height, m, m.Keys) == base
  {
    assert MapSnaps(t, height, m - m.Keys) == {};
  }

  lemma MapSnapsOneMore(t: BalanceType, height: UInt64, m: BalanceMap, rest: set<Holder>, k: Holder, base: State)
    requires k in rest && rest <= m.Keys
    ensures Merge(Written(base, t, height, m, rest), State({Snap(t, k, height, m[k])}, map[]))
            == Written(base, t, height, m, rest - {k})
  {
    var before, after := MapSnaps(t, height, m - rest), MapSnaps(t, height, m - (rest - {k}));
    forall e | e in after ensures e in before + {Snap(t, k, height, m[k])} {
      assert e.holder in m - (rest - {k});
      assert e.holder != k ==> e.holder in m - rest;
    }
    forall e | e in before + {Snap(t, k, height, m[k])} ensures e in after {
      assert e.holder in m - (rest - {k});
    }
    assert after == before + {Snap(t, k, height, m[k])};
  }

  /** A block map read back: absent means empty. */
  function BlockMap(s: State, height: UInt64, t: BalanceType): BalanceMap {
    if BlockId(height, t) in s.blocks then s.blocks[BlockId(height, t)] else map[]
  }

  class Index {
    const db: KeyValueStore
    ghost var state: State

    ghost predicate Valid()
      reads this, db
    {
      db.Valid() && Encodes(db.vals, state)
    }

    constructor ()
      ensures Valid() && fresh(db) && state == EMPTY
    {
      db := new KeyValueStore();
      state := EMPTY;
    }

    method PutHypersyncBlockBalancesWithWB(wb: WriteBatch, height: UInt64, t: BalanceType, m: BalanceMap,
                                           lockedKeys: bool)
      requires wb.Valid() && Homogeneous(m, lockedKeys)
      modifies wb
      ensures wb.Valid()
      ensures wb.effect == if t.LockedStake? == lockedKeys
                           then Merge(old(wb.effect), State({}, map[BlockId(height, t) := m]))
                           else old(wb.effect)
    {
      if t.LockedStake? != lockedKeys {
        return;
      }
      EncodesBlock(BlockId(height, t), m);
      wb.Set(HypersyncHeightToBlockKey(height, t), Balances(m), State({}, map[BlockId(height, t) := m]));
    }

    method PutSingleBalanceSnapshotWithWB(wb: WriteBatch, height: UInt64, t: BalanceType, holder: Holder,
                                          balance: UInt64) returns (ok: bool)
      requires wb.Valid()
      modifies wb
      ensures wb.Valid() && ok == Fits(t, holder)
      ensures wb.effect == if ok then Merge(old(wb.effect), State({Snap(t, holder, height, balance)}, map[]))
                           else old(wb.effect)
    {
      if !Fits(t, holder) {
        return false;
      }
      var e := Snap(t, holder, height, balance);
      EncodesSnap(e);
      wb.Set(KeyOf(e), Marker, State({e}, map[]));
      return true;
    }

    method PutBalanceSnapshotWithWB(wb: WriteBatch, height: UInt64, t: BalanceType, m: BalanceMap, lockedKeys: bool)
      returns (ok: bool)
      requires wb.Valid() && Homogeneous(m, lockedKeys)
      modifies wb
      ensures wb.Valid() && ok == (t.LockedStake? == lockedKeys)
      ensures wb.effect == if ok then Merge(old(wb.effect), State(MapSnaps(t, height, m), map[]))
                           else old(wb.effect)
    {
      if t.LockedStake? != lockedKeys {
        return false;
      }
      var rest := m.Keys;
      ghost var start := wb.effect;
      MapSnapsNone(t, height, m, start);
      while rest != {}
        invariant rest <= m.Keys && wb.Valid()
        invariant wb.effect == Written(start, t, height, m, rest)
        decreases rest
      {
        hide Encodes, MapSnaps, Merge, Written;
        var k :| k in rest;
        var e := Snap(t, k, height, m[k]);
        EncodesSnap(e);
        wb.Set(KeyOf(e), Marker, State({e}, map[]));
        MapSnapsOneMore(t, height, m, rest, k, start);
        rest := rest - {k};
      }
      assert m - {} == m;
      return true;
    }

    /** Makes a batch visible. */
    method Commit(wb: WriteBatch)
      requires Valid() && wb.Valid()
      modifies this, db
      ensures Valid() && state == Merge(old(state), wb.effect)
    {
      EncodesMerge(db.vals, state, wb.pending, wb.effect);
      wb.Flush(db);
      state := Merge(state, wb.effect);
    }

    method GetBlockMap(height: UInt64, t: BalanceType) returns (m: BalanceMap)
      requires Valid()
      ensures m == BlockMap(state, height, t)
    {
      var key := HypersyncHeightToBlockKey(height, t);
      if key !in db.vals {
        return map[];
      }
      assert BlockId(height, t) in state.blocks by {
        BlockKeyOnlyFromBlock(db.vals, state, BlockId(height, t));
      }
      return db.vals[key].m;
    }

    method GetHypersyncBlockBalances(height: UInt64)
      returns (balances: BalanceMap, locked: BalanceMap, staked: BalanceMap, lockedStake: BalanceMap)
      requires Valid()
      ensures balances == BlockMap(state, height, DESOBalance)
      ensures locked == BlockMap(state, height, CreatorCoinLocked)
      ensures staked == BlockMap(state, height, ValidatorStaked)
      ensures lockedStake == BlockMap(state, height, LockedStake)
    {
      balances := GetBlockMap(height, DESOBalance);
      locked := GetBlockMap(height, CreatorCoinLocked);
      staked := GetBlockMap(height, ValidatorStaked);
      lockedStake := GetBlockMap(height, LockedStake);
    }

    /** One reverse seek, one prefix check, one decode. */
    method GetBalanceSnapshot(t: BalanceType, pk: PublicKey, height: UInt64) returns (balance: nat)
      requires Valid()
      ensures balance == if t == LockedStake then 0 else BalanceAt(state.snaps, t, KeyHolder(pk), height)
    {
      hide Encodes, BalanceAt, FromBigEndian;
      if t != DESOBalance && t != CreatorCoinLocked && t != ValidatorStaked {
        return 0;
      }
      var maxPrefix := BalanceSnapshotKey(t, pk, height, MAX_UINT64);
      var validForPrefix := maxPrefix[..34];
      assert validForPrefix == HolderPrefix(t, KeyHolder(pk));
      var keyFound: Option<Bytes> := None;
      var pos := db.ReverseSeek(maxPrefix);
      SeekRefinesTimeline(db.vals, state, t, pk, height, if pos < 0 then None else Some(db.keys[pos]));
      if pos >= 0 && validForPrefix <= db.keys[pos] {
        keyFound := Some(db.keys[pos]);
      }
      if keyFound == None {
        return 0;
      }
      return DecodeUint64(keyFound.value[42..]);
    }

    /** The locked-stake twin of the lookup, with its 34-byte prefix check and
        its decode at offset 42. */
    method GetLockedStakeBalanceSnapshot(t: BalanceType, staker: PublicKey, validator: PublicKey, epoch: UInt64,
                                         height: UInt64) returns (balance: nat)
      requires Valid()
      ensures t != LockedStake ==> balance == 0
      ensures t == LockedStake ==>
                LockedAnswer(state.snaps, staker, KeyOf(Snap(t, LockedHolder(staker, validator, epoch), height, MAX_UINT64)),
                             balance)
      ensures t == LockedStake && HasEntry(state, t, LockedHolder(staker, validator, epoch), height) ==>
                balance == FromBigEndian(validator[8..16])
    {
      hide Encodes, FromBigEndian, LockedAnswer, BalanceAt;
      if t != LockedStake {
        return 0;
      }
      var maxPrefix := LockedStakeBalanceSnapshotKey(t, staker, validator, epoch, height, MAX_UINT64);
      var validForPrefix := maxPrefix[..34];
      assert validForPrefix == [PREFIX_LOCKED_STAKE] + staker;
      var keyFound: Option<Bytes> := None;
      var pos := db.ReverseSeek(maxPrefix);
      ghost var found := if pos < 0 then None else Some(db.keys[pos]);
      LockedStakeAnswer(db.vals, state, staker, maxPrefix, found);
      if HasEntry(state, t, LockedHolder(staker, validator, epoch), height) {
        LockedStakeSeek(db.vals, state, staker, validator, epoch, height, found);
      }
      if pos >= 0 && validForPrefix <= db.keys[pos] {
        keyFound := Some(db.keys[pos]);
      }
      if keyFound == None {
        return 0;
      }
      LockedKeyLength(db.vals, state, keyFound.value);
      return DecodeUint64(keyFound.value[42..]);
    }
  }

  lemma LockedKeyLength(db: Contents, s: State, k: Bytes)
    requires Encodes(db, s) && k in db && k != [] && k[0] == PREFIX_LOCKED_STAKE
    ensures |k| == 91
  {
    assert k !in BlockKeys(s.blocks);
    var e :| e in s.snaps && KeyOf(e) == k;
    KeyShape(e);
  }
}
