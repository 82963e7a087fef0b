/** What the key-value store means: a set of balance snapshots and the
    hypersync block maps, and the lookup that the reverse seek speeds up. */
module IndexState {
  import opened ByteStrings
  import opened Keys

  /** Stored values: snapshots live in their keys alone, block maps are gob-encoded maps. */
  datatype Value = Marker | Balances(m: map<Holder, UInt64>)

  type Contents = map<Bytes, Value>

  datatype State = State(snaps: set<Snap>, blocks: map<BlockId, map<Holder, UInt64>>)

  const EMPTY := State({}, map[])

  /** The effect of a write batch e on a state s. */
  function Merge(s: State, e: State): State {
    State(s.snaps + e.snaps, s.blocks + e.blocks)
  }

  lemma MergeSnap(snaps: set<Snap>, blocks: map<BlockId, map<Holder, UInt64>>, e: Snap)
    ensures Merge(State(snaps, blocks), State({e}, map[])) == State(snaps + {e}, blocks)
  {
  }

  lemma MergeBlock(snaps: set<Snap>, blocks: map<BlockId, map<Holder, UInt64>>, id: BlockId, m: map<Holder, UInt64>)
    ensures Merge(State(snaps, blocks), State({}, map[id := m])) == State(snaps, blocks[id := m])
  {
  }

  // ---------------------------------------------------------------- the lookup

  predicate About(e: Snap, t: BalanceType, holder: Holder, h: nat) {
    e.t == t && e.holder == holder && e.height <= h
  }

  /** e is the entry of (t, holder) with the greatest (height, balance) at or below h. */
  ghost predicate Newest(snaps: set<Snap>, t: BalanceType, holder: Holder, h: nat, e: Snap) {
    && e in snaps && About(e, t, holder, h)
    && forall f :: f in snaps && About(f, t, holder, h) ==> NotNewer(f.height, f.balance, e.height, e.balance)
  }

  /** The abstract timeline: the balance of the newest entry at or below h, or zero. */
  ghost function BalanceAt(snaps: set<Snap>, t: BalanceType, holder: Holder, h: nat): nat {
    if exists e :: Newest(snaps, t, holder, h, e)
    then var e :| Newest(snaps, t, holder, h, e); e.balance
    else 0
  }

  lemma BalanceOfNewest(snaps: set<Snap>, t: BalanceType, holder: Holder, h: nat, e: Snap)
    requires Newest(snaps, t, holder, h, e)
    ensures BalanceAt(snaps, t, holder, h) == e.balance
  {
    forall f | Newest(snaps, t, holder, h, f) ensures f.balance == e.balance {
      assert NotNewer(f.height, f.balance, e.height, e.balance);
      assert NotNewer(e.height, e.balance, f.height, f.balance);
    }
  }

  /** A newest entry exists as soon as any entry is at or below h. */
  lemma {:induction false} NewestExists(snaps: set<Snap>, t: BalanceType, holder: Holder, h: nat, e: Snap)
    returns (n: Snap)
    requires e in snaps && About(e, t, holder, h)
    ensures Newest(snaps, t, holder, h, n)
  {
    var rest := snaps - {e};
    if f :| f in rest && About(f, t, holder, h) {
      var m := NewestExists(rest, t, holder, h, f);
      n := if NotNewer(m.height, m.balance, e.height, e.balance) then e else m;
    } else {
      n := e;
    }
    forall g | g in snaps && About(g, t, holder, h) ensures NotNewer(g.height, g.balance, n.height, n.balance) {
      assert g == e || g in rest;
    }
  }

  /** The lookup is zero exactly when nothing was written at or below h, or the
      newest thing written there is zero. */
  lemma ZeroExactlyWhen(snaps: set<Snap>, t: BalanceType, holder: Holder, h: nat)
    ensures BalanceAt(snaps, t, holder, h) == 0 <==>
            (forall e :: e in snaps ==> !About(e, t, holder, h)) ||
            (exists e :: Newest(snaps, t, holder, h, e) && e.balance == 0)
  {
    if e :| Newest(snaps, t, holder, h, e) {
      BalanceOfNewest(snaps, t, holder, h, e);
    }
    if e :| e in snaps && About(e, t, holder, h) {
      var n := NewestExists(snaps, t, holder, h, e);
      BalanceOfNewest(snaps, t, holder, h, n);
    }
  }

  /** The lookup depends only on the entries of its own holder up to h. */
  lemma BalanceLocal(a: set<Snap>, b: set<Snap>, t: BalanceType, holder: Holder, h: nat, h': nat)
    requires forall e :: About(e, t, holder, h) || About(e, t, holder, h') ==>
               (e in a && About(e, t, holder, h) <==> e in b && About(e, t, holder, h'))
    ensures BalanceAt(a, t, holder, h) == BalanceAt(b, t, holder, h')
  {
    if e :| Newest(a, t, holder, h, e) {
      assert Newest(b, t, holder, h', e);
      BalanceOfNewest(a, t, holder, h, e);
      BalanceOfNewest(b, t, holder, h', e);
    } else if e :| Newest(b, t, holder, h', e) {
      assert Newest(a, t, holder, h, e);
    }
  }

  // ---------------------------------------------------------------- the encoding

  ghost predicate WellTyped(s: State) {
    forall e :: e in s.snaps ==> Fits(e.t, e.holder)
  }

  ghost function SnapKeys(snaps: set<Snap>): set<Bytes> {
    set e | e in snaps :: KeyOf(e)
  }

  ghost function BlockKeys(blocks: map<BlockId, map<Holder, UInt64>>): set<Bytes> {
    set id | id in blocks :: BlockKey(id)
  }

  /** The store holds exactly the keys and values of s. */
  ghost predicate Encodes(db: Contents, s: State) {
    && WellTyped(s)
    && db.Keys == SnapKeys(s.snaps) + BlockKeys(s.blocks)
    && (forall e :: e in s.snaps ==> KeyOf(e) in db)
    && (forall id :: id in s.blocks ==> BlockKey(id) in db && db[BlockKey(id)] == Balances(s.blocks[id]))
  }

  lemma EncodesMerge(db: Contents, s: State, p: Contents, e: State)
    requires Encodes(db, s) && Encodes(p, e)
    ensures Encodes(db + p, Merge(s, e))
  {
    var m := Merge(s, e);
    MergedKeys(s, e);
    assert (db + p).Keys == db.Keys + p.Keys;
    forall id | id in m.blocks
      ensures BlockKey(id) in db + p && (db + p)[BlockKey(id)] == Balances(m.blocks[id])
    {
      MergedBlock(db, s, p, e, id);
    }
    forall f | f in m.snaps ensures KeyOf(f) in db + p && Fits(f.t, f.holder) {
      assert f in s.snaps || f in e.snaps;
    }
  }

  lemma MergedKeys(s: State, e: State)
    ensures SnapKeys(Merge(s, e).snaps) == SnapKeys(s.snaps) + SnapKeys(e.snaps)
    ensures BlockKeys(Merge(s, e).blocks) == BlockKeys(s.blocks) + BlockKeys(e.blocks)
  {
  }

  lemma MergedBlock(db: Contents, s: State, p: Contents, e: State, id: BlockId)
    requires Encodes(db, s) && Encodes(p, e) && id in Merge(s, e).blocks
    ensures BlockKey(id) in db + p && (db + p)[BlockKey(id)] == Balances(Merge(s, e).blocks[id])
  {
    if BlockKey(id) in p {
      BlockKeyOnlyFromBlock(p, e, id);
    }
  }

  /** A block key in the store is there because of its own block map. */
  lemma BlockKeyOnlyFromBlock(p: Contents, e: State, id: BlockId)
    requires Encodes(p, e) && BlockKey(id) in p
    ensures id in e.blocks
  {
    if BlockKey(id) in SnapKeys(e.snaps) {
      var f :| f in e.snaps && KeyOf(f) == BlockKey(id);
      BlockKeyApart(id, f);
    } else {
      var other :| other in e.blocks && BlockKey(other) == BlockKey(id);
      BlockKeyInjective(other, id);
    }
  }

  lemma EncodesSnap(e: Snap)
    requires Fits(e.t, e.holder)
    ensures Encodes(map[KeyOf(e) := Marker], State({e}, map[]))
  {
    assert SnapKeys({e}) == {KeyOf(e)};
  }

  lemma EncodesBlock(id: BlockId, m: map<Holder, UInt64>)
    ensures Encodes(map[BlockKey(id) := Balances(m)], State({}, map[id := m]))
  {
    assert BlockKeys(map[id := m]) == {BlockKey(id)};
  }

  // ---------------------------------------------------------------- the seek

  datatype Option<T> = None | Some(value: T)

  /** What a reverse iterator stops on: the greatest key not above the target. */
  ghost predicate IsFloor(keys: set<Bytes>, target: Bytes, found: Option<Bytes>) {
    match found
    case None => forall k :: k in keys ==> !Leq(k, target)
    case Some(f) => f in keys && Leq(f, target) && forall k :: k in keys && Leq(k, target) ==> Leq(k, f)
  }

  lemma BlockKeysOutside(blocks: map<BlockId, map<Holder, UInt64>>, t: BalanceType, holder: Holder)
    ensures forall k :: k in BlockKeys(blocks) ==> !(HolderPrefix(t, holder) <= k)
  {
    PrefixesDiffer(t, t);
    assert HolderPrefix(t, holder)[0] == BalanceTypePrefix(t);
    forall k | k in BlockKeys(blocks) ensures k != [] && k[0] == PREFIX_HYPERSYNC_BLOCK {
    }
  }

  /** A key that shares a snapshot namespace belongs to one entry of that holder. */
  lemma OwnerOfKey(db: Contents, s: State, t: BalanceType, holder: Holder, k: Bytes) returns (e: Snap)
    requires Encodes(db, s) && Fits(t, holder) && k in db && HolderPrefix(t, holder) <= k
    ensures e in s.snaps && KeyOf(e) == k && e.t == t && e.holder == holder
  {
    BlockKeysOutside(s.blocks, t, holder);
    e :| e in s.snaps && KeyOf(e) == k;
    PrefixNamesHolder(e, t, holder);
  }

  /** The reverse seek from (holder, h, max) lands on the newest entry at or
      below h; it stays inside the holder's namespace exactly when there is one. */
  lemma SeekLandsOnNewest(db: Contents, s: State, t: BalanceType, holder: Holder, h: UInt64, found: Option<Bytes>)
    requires Encodes(db, s) && Fits(t, holder)
    requires IsFloor(db.Keys, KeyOf(Snap(t, holder, h, MAX_UINT64)), found)
    ensures (found.Some? && HolderPrefix(t, holder) <= found.value) <==>
            (exists e :: e in s.snaps && About(e, t, holder, h))
    ensures found.Some? && HolderPrefix(t, holder) <= found.value ==>
              exists e :: Newest(s.snaps, t, holder, h, e) && found.value == KeyOf(e)
  {
    var target := Snap(t, holder, h, MAX_UINT64);
    var p := HolderPrefix(t, holder);
    KeyShape(target);
    if found.Some? && p <= found.value {
      var e := OwnerOfKey(db, s, t, holder, found.value);
      KeyOrder(t, holder, e.height, e.balance, h, MAX_UINT64);
      assert About(e, t, holder, h);
      forall f | f in s.snaps && About(f, t, holder, h)
        ensures NotNewer(f.height, f.balance, e.height, e.balance)
      {
        assert KeyOf(f) in db.Keys;
        KeyOrder(t, holder, f.height, f.balance, h, MAX_UINT64);
        KeyOrder(t, holder, f.height, f.balance, e.height, e.balance);
      }
      assert Newest(s.snaps, t, holder, h, e);
    }
    if f :| f in s.snaps && About(f, t, holder, h) {
      assert KeyOf(f) in db.Keys;
      KeyOrder(t, holder, f.height, f.balance, h, MAX_UINT64);
      KeyShape(f);
      BetweenSharesPrefix(p, KeyOf(f), found.value, KeyOf(target));
    }
  }

  /** What the getter decodes from the key it found: eight bytes at offset 42. */
  function DecodeFound(prefix: Bytes, found: Option<Bytes>): nat {
    if found.Some? && prefix <= found.value && |found.value| >= 50 then DecodeUint64(found.value[42..]) else 0
  }

  /** The reverse-seek lookup is the abstract timeline. */
  lemma SeekRefinesTimeline(db: Contents, s: State, t: BalanceType, pk: PublicKey, h: UInt64, found: Option<Bytes>)
    requires Encodes(db, s) && t != LockedStake
    requires IsFloor(db.Keys, BalanceSnapshotKey(t, pk, h, MAX_UINT64), found)
    ensures found.Some? && HolderPrefix(t, KeyHolder(pk)) <= found.value ==> |found.value| == 50
    ensures DecodeFound(HolderPrefix(t, KeyHolder(pk)), found) == BalanceAt(s.snaps, t, KeyHolder(pk), h)
  {
    var holder := KeyHolder(pk);
    SeekLandsOnNewest(db, s, t, holder, h, found);
    if found.Some? && HolderPrefix(t, holder) <= found.value {
      var e :| Newest(s.snaps, t, holder, h, e) && found.value == KeyOf(e);
      BalanceOfNewest(s.snaps, t, holder, h, e);
      BalanceAtOffset42(t, pk, e.height, e.balance);
    }
  }

  /** One lookup in the store, given where the seek stops. */
  ghost predicate LooksUp(db: Contents, t: BalanceType, pk: PublicKey, h: UInt64, r: nat) {
    exists found :: IsFloor(db.Keys, BalanceSnapshotKey(t, pk, h, MAX_UINT64), found)
                    && r == DecodeFound(HolderPrefix(t, KeyHolder(pk)), found)
  }

  /** Writing a snapshot of another type or holder, or any block map, leaves a lookup alone. */
  lemma LookupFrame(db: Contents, s: State, p: Contents, e: State, t: BalanceType, pk: PublicKey, h: UInt64,
                    before: nat, after: nat)
    requires Encodes(db, s) && Encodes(p, e) && t != LockedStake
    requires forall f :: f in e.snaps ==> f.t != t || f.holder != KeyHolder(pk)
    requires LooksUp(db, t, pk, h, before) && LooksUp(db + p, t, pk, h, after)
    ensures before == after
  {
    var target := BalanceSnapshotKey(t, pk, h, MAX_UINT64);
    var prefix := HolderPrefix(t, KeyHolder(pk));
    EncodesMerge(db, s, p, e);
    var f0 :| IsFloor(db.Keys, target, f0) && before == DecodeFound(prefix, f0);
    var f1 :| IsFloor((db + p).Keys, target, f1) && after == DecodeFound(prefix, f1);
    SeekRefinesTimeline(db, s, t, pk, h, f0);
    SeekRefinesTimeline(db + p, Merge(s, e), t, pk, h, f1);
    BalanceLocal(s.snaps, Merge(s, e).snaps, t, KeyHolder(pk), h, h);
  }

  // ---------------------------------------------------------------- locked stake

  /** The locked-stake getter checks only prefix byte and staker, then decodes at
      the same offset 42. */
  function DecodeLockedFound(staker: PublicKey, found: Option<Bytes>): nat {
    DecodeFound([PREFIX_LOCKED_STAKE] + staker, found)
  }

  /** Whenever the exact triple has an entry at or below h, the seek stops on its
      newest one, but the eight bytes decoded are bytes 8..16 of the validator's
      PKID: the answer does not depend on any balance in the index. */
  lemma LockedStakeSeek(db: Contents, s: State, staker: PublicKey, validator: PublicKey, epoch: UInt64, h: UInt64,
                        found: Option<Bytes>)
    requires Encodes(db, s)
    requires IsFloor(db.Keys, LockedStakeBalanceSnapshotKey(LockedStake, staker, validator, epoch, h, MAX_UINT64), found)
    requires exists e :: e in s.snaps && About(e, LockedStake, LockedHolder(staker, validator, epoch), h)
    ensures exists e :: Newest(s.snaps, LockedStake, LockedHolder(staker, validator, epoch), h, e)
                        && found == Some(KeyOf(e))
    ensures DecodeLockedFound(staker, found) == FromBigEndian(validator[8..16])
  {
    hide Encodes, IsFloor, FromBigEndian;
    var holder := LockedHolder(staker, validator, epoch);
    SeekLandsOnNewest(db, s, LockedStake, holder, h, found);
    assert LockedStakeBalanceSnapshotKey(LockedStake, staker, validator, epoch, h, MAX_UINT64)
           == KeyOf(Snap(LockedStake, holder, h, MAX_UINT64));
    var e :| Newest(s.snaps, LockedStake, holder, h, e) && found.value == KeyOf(e);
    LockedKeyDecode(staker, validator, epoch, e.height, e.balance);
  }

  lemma LockedKeyDecode(staker: PublicKey, validator: PublicKey, epoch: UInt64, h: UInt64, b: UInt64)
    ensures var k := LockedStakeBalanceSnapshotKey(LockedStake, staker, validator, epoch, h, b);
            && |k| == 91 && [PREFIX_LOCKED_STAKE] + staker <= k
            && DecodeUint64(k[42..]) == FromBigEndian(validator[8..16])
  {
    hide FromBigEndian;
    var k := LockedStakeBalanceSnapshotKey(LockedStake, staker, validator, epoch, h, b);
    assert k[42..][..8] == k[42..50] == validator[8..16];
  }

  /** The locked-stake entry the seek stops on: of all entries of the staker,
      whoever the validator, the one with the greatest key up to the target. */
  ghost predicate LastOfStaker(snaps: set<Snap>, staker: PublicKey, target: Bytes, e: Snap) {
    && OfStaker(snaps, staker, target, e)
    && forall f :: OfStaker(snaps, staker, target, f) ==> Leq(KeyOf(f), KeyOf(e))
  }

  ghost predicate OfStaker(snaps: set<Snap>, staker: PublicKey, target: Bytes, e: Snap) {
    e in snaps && e.t == LockedStake && e.holder.LockedHolder? && e.holder.staker == staker && Leq(KeyOf(e), target)
  }

  /** A stored key with the staker's prefix belongs to a locked-stake entry of the staker. */
  lemma StakerOfKey(db: Contents, s: State, staker: PublicKey, k: Bytes) returns (e: Snap)
    requires Encodes(db, s) && k in db && [PREFIX_LOCKED_STAKE] + staker <= k
    ensures e in s.snaps && KeyOf(e) == k && e.t == LockedStake && e.holder.LockedHolder? && e.holder.staker == staker
  {
    hide KeyOf;
    assert k[0] == ([PREFIX_LOCKED_STAKE] + staker)[0] == PREFIX_LOCKED_STAKE;
    assert k !in BlockKeys(s.blocks) by {
      hide Encodes;
      PrefixesDiffer(LockedStake, LockedStake);
    }
    e :| e in s.snaps && KeyOf(e) == k;
    hide Encodes;
    StakerInKey(e, staker);
  }

  lemma StakerInKey(e: Snap, staker: PublicKey)
    requires Fits(e.t, e.holder) && [PREFIX_LOCKED_STAKE] + staker <= KeyOf(e)
    ensures e.t == LockedStake && e.holder.staker == staker
  {
    var k := KeyOf(e);
    assert k[0] == ([PREFIX_LOCKED_STAKE] + staker)[0] == PREFIX_LOCKED_STAKE;
    PrefixesDiffer(e.t, LockedStake);
    assert k[0] == BalanceTypePrefix(e.t);
    assert staker == ([PREFIX_LOCKED_STAKE] + staker)[1..34] == k[1..34] == e.holder.staker;
  }

  /** All that the locked-stake lookup ever answers: zero when no entry of the
      staker sorts up to the target, else eight bytes of the PKID of the validator
      on the last such entry. */
  ghost predicate LockedAnswer(snaps: set<Snap>, staker: PublicKey, target: Bytes, r: nat) {
    || (r == 0 && forall e :: !OfStaker(snaps, staker, target, e))
    || (exists e :: LastOfStaker(snaps, staker, target, e) && r == FromBigEndian(e.holder.validator[8..16]))
  }

  lemma LockedStakeAnswer(db: Contents, s: State, staker: PublicKey, target: Bytes, found: Option<Bytes>)
    requires Encodes(db, s) && IsFloor(db.Keys, target, found) && [PREFIX_LOCKED_STAKE] + staker <= target
    ensures LockedAnswer(s.snaps, staker, target, DecodeLockedFound(staker, found))
  {
    var p := [PREFIX_LOCKED_STAKE] + staker;
    hide FromBigEndian, Encodes;
    if found.Some? && p <= found.value {
      var e := StakerOfKey(db, s, staker, found.value);
      LastFound(db, s, staker, target, e);
      LockedKeyDecode(e.holder.staker, e.holder.validator, e.holder.epoch, e.height, e.balance);
    } else {
      forall f ensures !OfStaker(s.snaps, staker, target, f) {
        if OfStaker(s.snaps, staker, target, f) {
          Stored(db, s, f);
          BetweenSharesPrefix(p, KeyOf(f), found.value, target);
        }
      }
    }
  }

  /** There is only one such answer. */
  lemma LockedAnswerUnique(s: State, staker: PublicKey, target: Bytes, r: nat, r': nat)
    requires WellTyped(s) && LockedAnswer(s.snaps, staker, target, r) && LockedAnswer(s.snaps, staker, target, r')
    ensures r == r'
  {
    hide FromBigEndian;
    if e, f :| LastOfStaker(s.snaps, staker, target, e) && r == FromBigEndian(e.holder.validator[8..16])
               && LastOfStaker(s.snaps, staker, target, f) && r' == FromBigEndian(f.holder.validator[8..16]) {
      LeqAntisymmetric(KeyOf(e), KeyOf(f));
      KeyInjective(e, f);
    }
  }

  lemma LastFound(db: Contents, s: State, staker: PublicKey, target: Bytes, e: Snap)
    requires Encodes(db, s) && IsFloor(db.Keys, target, Some(KeyOf(e)))
    requires e in s.snaps && e.t == LockedStake && e.holder.LockedHolder? && e.holder.staker == staker
    ensures LastOfStaker(s.snaps, staker, target, e)
  {
    forall f | OfStaker(s.snaps, staker, target, f) ensures Leq(KeyOf(f), KeyOf(e)) {
      Stored(db, s, f);
    }
  }

  lemma Stored(db: Contents, s: State, e: Snap)
    requires Encodes(db, s) && e in s.snaps
    ensures KeyOf(e) in db.Keys
  {
  }

  /** Writing entries of other types or other stakers, or any block map, leaves a
      locked-stake lookup alone. */
  lemma LockedLookupFrame(s: State, e: State, staker: PublicKey, target: Bytes, before: nat, after: nat)
    requires WellTyped(s) && WellTyped(e)
    requires forall f :: f in e.snaps && f.t == LockedStake ==> f.holder.staker != staker
    requires LockedAnswer(s.snaps, staker, target, before) && LockedAnswer(Merge(s, e).snaps, staker, target, after)
    ensures before == after
  {
    hide FromBigEndian, KeyOf, Leq;
    var merged := Merge(s, e).snaps;
    forall f ensures OfStaker(merged, staker, target, f) <==> OfStaker(s.snaps, staker, target, f) {
    }
    assert forall f :: LastOfStaker(merged, staker, target, f) <==> LastOfStaker(s.snaps, staker, target, f);
    hide OfStaker, LastOfStaker;
    LockedAnswerUnique(s, staker, target, before, after);
  }

  /** The answer is the recorded balance exactly when eight bytes of a PKID spell
      it: those of the queried validator if its entry exists, else (where zero is
      due) those of the validator on the staker's last entry before it, if any. */
  lemma LockedStakeRightExactlyWhen(s: State, staker: PublicKey, validator: PublicKey, epoch: UInt64, h: UInt64, r: nat)
    requires WellTyped(s)
    requires LockedAnswer(s.snaps, staker, KeyOf(Snap(LockedStake, LockedHolder(staker, validator, epoch), h, MAX_UINT64)), r)
    ensures var holder := LockedHolder(staker, validator, epoch);
            var target, due := KeyOf(Snap(LockedStake, holder, h, MAX_UINT64)), BalanceAt(s.snaps, LockedStake, holder, h);
            r == due <==>
            if exists e :: e in s.snaps && About(e, LockedStake, holder, h)
            then FromBigEndian(validator[8..16]) == due
            else forall e :: LastOfStaker(s.snaps, staker, target, e) ==> FromBigEndian(e.holder.validator[8..16]) == 0
  {
    hide FromBigEndian, Leq;
    var holder := LockedHolder(staker, validator, epoch);
    var target := KeyOf(Snap(LockedStake, holder, h, MAX_UINT64));
    if e :| e in s.snaps && About(e, LockedStake, holder, h) {
      OwnEntryIsLast(s, staker, validator, epoch, h, e);
    } else {
      hide KeyOf;
      if l :| LastOfStaker(s.snaps, staker, target, l) {
        OnlyLast(s, staker, target, l);
      }
    }
  }

  lemma OnlyLast(s: State, staker: PublicKey, target: Bytes, l: Snap)
    requires WellTyped(s) && LastOfStaker(s.snaps, staker, target, l)
    ensures forall e :: LastOfStaker(s.snaps, staker, target, e) ==> e == l
  {
    forall e | LastOfStaker(s.snaps, staker, target, e) ensures e == l {
      LeqAntisymmetric(KeyOf(e), KeyOf(l));
      KeyInjective(e, l);
    }
  }

  /** With an entry of the queried holder, the staker's last entry up to the
      target is one of that holder. */
  lemma OwnEntryIsLast(s: State, staker: PublicKey, validator: PublicKey, epoch: UInt64, h: UInt64, e: Snap)
    requires WellTyped(s) && e in s.snaps && About(e, LockedStake, LockedHolder(staker, validator, epoch), h)
    ensures var target := KeyOf(Snap(LockedStake, LockedHolder(staker, validator, epoch), h, MAX_UINT64));
            OfStaker(s.snaps, staker, target, e)
            && forall l :: LastOfStaker(s.snaps, staker, target, l) ==> l.holder == e.holder
  {
    hide Leq;
    var holder := LockedHolder(staker, validator, epoch);
    var top := Snap(LockedStake, holder, h, MAX_UINT64);
    KeyOrder(LockedStake, holder, e.height, e.balance, h, MAX_UINT64);
    KeyShape(e);
    KeyShape(top);
    hide KeyOf, HolderPrefix;
    forall l | LastOfStaker(s.snaps, staker, KeyOf(top), l) ensures l.holder == holder {
      BetweenSharesPrefix(HolderPrefix(LockedStake, holder), KeyOf(e), KeyOf(l), KeyOf(top));
      PrefixNamesHolder(l, LockedStake, holder);
    }
  }
}
