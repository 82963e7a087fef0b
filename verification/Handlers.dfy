/** deso/events.go: the two event handlers as methods of a node, each run as one
    atomic step under the index mutex. */
module Handlers {
  import opened ByteStrings
  import opened Keys
  import opened IndexState
  import opened Store
  import opened RosettaIndex
  import opened Partition
  import opened Events

  // ---------------------------------------------------------------- steps of the partition loop

  /** Where the loop is: the next entry is i, the current block is cur, and the
      counter has run since the current block began. */
  ghost predicate LoopAt(i: nat, cur: nat, counter: nat, n: nat, s: nat) {
    && s > 0 && 1 <= cur <= s && counter <= i <= n
    && i - counter == Before(cur, n, s)
    && (cur < s ==> counter < PerBlock(n, s))
  }

  /** The number of entries that blocks 1..cur-1 have taken. */
  function Before(cur: nat, n: nat, s: nat): nat
    requires 1 <= cur && s > 0
  {
    (cur - 1) * PerBlock(n, s)
  }

  lemma SlotIsCurrent(i: nat, cur: nat, counter: nat, n: nat, s: nat)
    requires LoopAt(i, cur, counter, n, s)
    ensures Slot(i, n, s) == cur
    ensures Lo(cur, n, s) == Before(cur, n, s)
  {
    DivBounds(i, PerBlock(n, s), cur - 1);
    LoNext(cur, PerBlock(n, s));
  }

  lemma SnapsOneMore(t: BalanceType, es: seq<Entry>, s: UInt64, i: nat)
    requires s > 0 && i < |es|
    ensures BootSnaps(t, es, s, i + 1)
            == BootSnaps(t, es, s, i) + {Snap(t, es[i].holder, Slot(i, |es|, s), es[i].balance)}
  {
    var a, e := BootSnaps(t, es, s, i), Snap(t, es[i].holder, Slot(i, |es|, s), es[i].balance);
    forall f | f in BootSnaps(t, es, s, i + 1) ensures f in a + {e} {
      var x :| 0 <= x < i + 1 && f == Snap(t, es[x].holder, Slot(x, |es|, s), es[x].balance);
      assert x < i || x == i;
    }
  }

  /** The current block is full: its chunk is what the running map collected. */
  lemma BlockFull(i: nat, cur: nat, counter: nat, n: nat, s: nat)
    requires LoopAt(i, cur, counter, n, s) && i < n && cur < s && counter + 1 == PerBlock(n, s)
    ensures Lo(cur, n, s) == Before(cur, n, s) && Hi(cur, n, s) == i + 1
    ensures LoopAt(i + 1, cur + 1, 0, n, s)
  {
    LoNext(cur, PerBlock(n, s));
    SlotIsCurrent(i, cur, counter, n, s);
  }

  /** At the end the current chunk runs to the last entry and later chunks are empty. */
  lemma LoopDone(cur: nat, counter: nat, n: nat, s: nat)
    requires LoopAt(n, cur, counter, n, s)
    ensures Lo(cur, n, s) == Before(cur, n, s) && Hi(cur, n, s) == n
    ensures forall j :: cur < j <= s ==> Lo(j, n, s) == n
    ensures counter == 0 ==> Lo(cur, n, s) == n
  {
    var per := PerBlock(n, s);
    LoNext(cur, per);
    forall j | cur < j <= s ensures Lo(j, n, s) == n {
      MulMono(cur, j - 1, per);
    }
  }

  lemma BlocksOneMore(t: BalanceType, es: seq<Entry>, s: UInt64, cur: UInt64)
    requires 1 <= cur <= s && Lo(cur, |es|, s) < Hi(cur, |es|, s)
    ensures BootBlocks(t, es, s, cur + 1) == BootBlocks(t, es, s, cur)[BlockId(cur, t) := MapOf(Chunk(es, cur, s))]
  {
    hide MapOf, Lo, Hi, PerBlock;
    assert BootIds(t, |es|, s, cur + 1) == BootIds(t, |es|, s, cur) + {BlockId(cur, t)};
  }

  lemma BlocksComplete(t: BalanceType, es: seq<Entry>, s: UInt64, below: nat)
    requires s > 0 && below <= s + 1
    requires forall j :: below <= j <= s && 1 <= j ==> Lo(j, |es|, s) == Hi(j, |es|, s)
    ensures BootBlocks(t, es, s, s + 1) == BootBlocks(t, es, s, below)
  {
    assert BootIds(t, |es|, s, s + 1) == BootIds(t, |es|, s, below);
  }

  lemma MapOfOneMore(es: seq<Entry>, lo: nat, i: nat)
    requires lo <= i < |es|
    ensures MapOf(es[lo..i + 1]) == MapOf(es[lo..i])[es[i].holder := es[i].balance]
  {
    assert es[lo..i + 1][..|es[lo..i + 1]| - 1] == es[lo..i];
  }

  lemma PrefixFits(t: BalanceType, rs: seq<Record>, lo: nat, i: nat)
    requires RecordsFit(t, rs) && lo <= i <= |rs|
    requires forall x :: 0 <= x < i ==> rs[x].Good?
    ensures Homogeneous(MapOf(EntriesOf(rs)[lo..i]), t.LockedStake?)
  {
    var c := EntriesOf(rs)[lo..i];
    forall x | 0 <= x < |c| ensures Fits(t, c[x].holder) {
      assert rs[lo + x].Good? && c[x] == rs[lo + x].entry;
    }
    MapOfFits(c, t);
  }

  /** What the loop has written after i records, with m the running map. */
  ghost predicate Progress(effect: State, m: BalanceMap, t: BalanceType, rs: seq<Record>, s: UInt64,
                           i: nat, cur: nat, counter: nat)
  {
    && LoopAt(i, cur, counter, |rs|, s)
    && (forall x :: 0 <= x < i ==> rs[x].Good?)
    && m == MapOf(EntriesOf(rs)[i - counter..i])
    && effect == State(BootSnaps(t, EntriesOf(rs), s, i), BootBlocks(t, EntriesOf(rs), s, cur))
  }

  lemma ProgressStart(t: BalanceType, rs: seq<Record>, s: UInt64)
    requires s > 0
    ensures Progress(EMPTY, map[], t, rs, s, 0, 1, 0)
  {
    var es := EntriesOf(rs);
    assert BootSnaps(t, es, s, 0) == {};
    assert BootIds(t, |es|, s, 1) == {};
    assert BootBlocks(t, es, s, 1) == map[];
    assert es[0..0] == [];
  }

  /** One record: a snapshot at the current height and an entry in the running map. */
  lemma ProgressRecord(effect: State, m: BalanceMap, t: BalanceType, rs: seq<Record>, s: UInt64,
                       i: nat, cur: UInt64, counter: nat)
    requires Progress(effect, m, t, rs, s, i, cur, counter) && i < |rs| && rs[i].Good?
    ensures var e := rs[i].entry;
            var effect' := Merge(effect, State({Snap(t, e.holder, cur, e.balance)}, map[]));
            var es := EntriesOf(rs);
            && m[e.holder := e.balance] == MapOf(es[i - counter..i + 1])
            && effect' == State(BootSnaps(t, es, s, i + 1), BootBlocks(t, es, s, cur))
  {
    var es := EntriesOf(rs);
    assert es[i] == rs[i].entry;
    hide EntriesOf, MapOf, BootSnaps, BootBlocks, PerBlock, Before, Slot, Lo, Merge;
    MapOfOneMore(es, i - counter, i);
    SlotIsCurrent(i, cur, counter, |rs|, s);
    SnapsOneMore(t, es, s, i);
    MergeSnap(BootSnaps(t, es, s, i), BootBlocks(t, es, s, cur), Snap(t, es[i].holder, cur, es[i].balance));
  }

  /** What the running map collected is the chunk of the block that is full. */
  lemma FullChunk(es: seq<Entry>, i: nat, cur: nat, counter: nat, s: nat)
    requires LoopAt(i, cur, counter, |es|, s) && i < |es| && cur < s && counter + 1 == PerBlock(|es|, s)
    ensures Chunk(es, cur, s) == es[i - counter..i + 1] != []
    ensures LoopAt(i + 1, cur + 1, 0, |es|, s)
  {
    hide PerBlock, Before, Lo, Hi;
    BlockFull(i, cur, counter, |es|, s);
  }

  /** Closing the current block opens the next one. */
  lemma ProgressFlush(t: BalanceType, rs: seq<Record>, s: UInt64, i: nat, cur: UInt64, counter: nat,
                      effect: State, m: BalanceMap)
    requires LoopAt(i, cur, counter, |rs|, s) && i < |rs| && cur < s && counter + 1 == PerBlock(|rs|, s)
    requires forall x :: 0 <= x < i + 1 ==> rs[x].Good?
    requires m == MapOf(EntriesOf(rs)[i - counter..i + 1])
    requires effect == State(BootSnaps(t, EntriesOf(rs), s, i + 1), BootBlocks(t, EntriesOf(rs), s, cur))
    ensures Progress(Merge(effect, State({}, map[BlockId(cur, t) := m])), map[], t, rs, s, i + 1, cur + 1, 0)
  {
    var es := EntriesOf(rs);
    FullChunk(es, i, cur, counter, s);
    hide LoopAt, BootSnaps, BootBlocks, PerBlock, EntriesOf, Before, Merge;
    BlocksOneMore(t, es, s, cur);
    hide Chunk, Lo, Hi;
    MergeBlock(BootSnaps(t, es, s, i + 1), BootBlocks(t, es, s, cur), BlockId(cur, t), m);
    assert es[i + 1..i + 1] == [] && MapOf([]) == map[];
  }

  /** After the last record the leftover block, if any, completes the bootstrap. */
  lemma ProgressDone(effect: State, m: BalanceMap, t: BalanceType, rs: seq<Record>, s: UInt64, cur: UInt64, counter: nat)
    requires Progress(effect, m, t, rs, s, |rs|, cur, counter)
    ensures AllGood(rs)
    ensures counter > 0 ==> Merge(effect, State({}, map[BlockId(cur, t) := m])) == Boot(t, EntriesOf(rs), s)
    ensures counter == 0 ==> effect == Boot(t, EntriesOf(rs), s)
  {
    hide BootSnaps, BootBlocks, PerBlock, EntriesOf, MapOf, Before, Lo, Hi, Merge;
    var es := EntriesOf(rs);
    LoopDone(cur, counter, |rs|, s);
    if counter > 0 {
      MergeBlock(BootSnaps(t, es, s, |rs|), BootBlocks(t, es, s, cur), BlockId(cur, t), m);
      BlocksOneMore(t, es, s, cur);
      BlocksComplete(t, es, s, cur + 1);
    } else {
      BlocksComplete(t, es, s, cur);
    }
  }

  lemma FourTypes(a: set<Snap>, b: set<Snap>, c: set<Snap>, d: set<Snap>)
    ensures Merge(Merge(Merge(Merge(EMPTY, State(a, map[])), State(b, map[])), State(c, map[])), State(d, map[]))
            == State(a + b + c + d, map[])
  {
  }

  class Node {
    const env: Env
    const index: Index
    var hasServer: bool

    constructor (env: Env)
      ensures index.Valid() && fresh(index) && fresh(index.db) && index.state == EMPTY
      ensures this.env == env && !hasServer
    {
      this.env := env;
      hasServer := false;
      index := new Index();
    }

    /** The handlers are registered before the server is set. */
    method SetServer()
      modifies this
      ensures hasServer
    {
      hasServer := true;
    }

    /** One of the four partition loops, generic in the kind of key. */
    method BootstrapBalances(t: BalanceType, rs: seq<Record>, first: UInt64)
      requires index.Valid() && first > 0 && RecordsFit(t, rs)
      modifies index, index.db
      ensures index.Valid() && index.state == AfterBoot(old(index.state), t, rs, first)
    {
      hide Encodes, EntriesOf, MapOf, Boot, BootSnaps, BootBlocks, Before, Homogeneous;
      var wb := new WriteBatch();
      var totalCount := |rs|;
      var balancesPerBlock := totalCount / first;
      if totalCount < first {
        balancesPerBlock := 1;
      }
      var currentBlockHeight: UInt64, currentCounter: nat := 1, 0;
      var balancesMap: BalanceMap := map[];
      ProgressStart(t, rs, first);
      for i := 0 to totalCount
        invariant index.Valid() && index.state == old(index.state) && wb.Valid() && fresh(wb)
        invariant currentBlockHeight > 0
        invariant Progress(wb.effect, balancesMap, t, rs, first, i, currentBlockHeight, currentCounter)
      {
        if rs[i].Malformed? {
          return;
        }
        currentBlockHeight, currentCounter, balancesMap :=
          BootstrapRecord(wb, t, rs, first, i, balancesPerBlock, currentBlockHeight, currentCounter, balancesMap);
      }
      ProgressDone(wb.effect, balancesMap, t, rs, first, currentBlockHeight, currentCounter);
      if currentCounter > 0 {
        PrefixFits(t, rs, totalCount - currentCounter, totalCount);
        index.PutHypersyncBlockBalancesWithWB(wb, currentBlockHeight, t, balancesMap, t.LockedStake?);
      }
      index.Commit(wb);
    }

    /** The body of the partition loop. */
    method BootstrapRecord(wb: WriteBatch, t: BalanceType, rs: seq<Record>, first: UInt64, i: nat, balancesPerBlock: nat,
                           height: UInt64, counter: nat, balances: BalanceMap)
      returns (currentBlockHeight: UInt64, currentCounter: nat, balancesMap: BalanceMap)
      requires wb.Valid() && i < |rs| && rs[i].Good? && RecordsFit(t, rs)
      requires first > 0 && balancesPerBlock == PerBlock(|rs|, first)
      requires Progress(wb.effect, balances, t, rs, first, i, height, counter)
      modifies wb
      ensures wb.Valid() && currentBlockHeight > 0
      ensures Progress(wb.effect, balancesMap, t, rs, first, i + 1, currentBlockHeight, currentCounter)
    {
      hide Encodes, BootSnaps, BootBlocks, MapOf, EntriesOf, PerBlock, Before, Homogeneous;
      ProgressRecord(wb.effect, balances, t, rs, first, i, height, counter);
      PrefixFits(t, rs, i - counter, i + 1);
      var Entry(holder, balance) := rs[i].entry;
      balancesMap := balances[holder := balance];
      var ok := index.PutSingleBalanceSnapshotWithWB(wb, height, t, holder, balance);
      currentBlockHeight, currentCounter := height, counter + 1;
      if currentCounter >= balancesPerBlock && currentBlockHeight < first {
        ProgressFlush(t, rs, first, i, height, counter, wb.effect, balancesMap);
        index.PutHypersyncBlockBalancesWithWB(wb, currentBlockHeight, t, balancesMap, t.LockedStake?);
        balancesMap := map[];
        currentBlockHeight := currentBlockHeight + 1;
        currentCounter := 0;
      }
    }

    method HandleSnapshotCompleted(d: SnapshotData)
      requires index.Valid() && d.Typed()
      modifies index, index.db
      ensures index.Valid() && index.state == AfterSnapshot(env, old(index.state), d)
      ensures env.firstSnapshot.None? || env.firstSnapshot.value == 0 ==> index.state == old(index.state)
    {
      if env.firstSnapshot.Some? && env.firstSnapshot.value != 0 {
        var first := env.firstSnapshot.value;
        assert RecordsFit(DESOBalance, d.Of(DESOBalance)) && RecordsFit(CreatorCoinLocked, d.Of(CreatorCoinLocked));
        assert RecordsFit(ValidatorStaked, d.Of(ValidatorStaked)) && RecordsFit(LockedStake, d.Of(LockedStake));
        BootstrapBalances(DESOBalance, d.deso, first);
        BootstrapBalances(CreatorCoinLocked, d.creatorCoin, first);
        BootstrapBalances(ValidatorStaked, d.validators, first);
        BootstrapBalances(LockedStake, d.lockedStake, first);
      }
    }

    method HandleBlockCommitted(height: UInt64, view: Option<View>)
      requires index.Valid() && (view.Some? ==> Homogeneous(view.value.deso, false))
      modifies index, index.db
      ensures index.Valid() && index.state == AfterCommit(env, old(index.state), Commit(height, view, hasServer))
      ensures view.None? || (hasServer && env.hyperSync && env.firstSnapshot.Some? && env.firstSnapshot.value != 0
                             && height <= env.firstSnapshot.value)
              ==> index.state == old(index.state)
    {
      hide Encodes, MapSnaps, Delta, Homogeneous, Merge;
      if hasServer {
        if env.hyperSync && env.firstSnapshot.Some? && env.firstSnapshot.value != 0 {
          if height <= env.firstSnapshot.value {
            return;
          }
        }
      }
      if view.None? {
        return;
      }
      var v := view.value;
      var wb := new WriteBatch();
      var ok := index.PutBalanceSnapshotWithWB(wb, height, DESOBalance, v.deso, false);
      var lockedBalances := LockedBalances(v);
      ok := index.PutBalanceSnapshotWithWB(wb, height, CreatorCoinLocked, lockedBalances, false);
      var validatorBalances := ValidatorBalances(v);
      ok := index.PutBalanceSnapshotWithWB(wb, height, ValidatorStaked, validatorBalances, false);
      var lockedStakeBalances := LockedStakeBalances(v);
      ok := index.PutBalanceSnapshotWithWB(wb, height, LockedStake, lockedStakeBalances, true);
      FourTypes(MapSnaps(DESOBalance, height, v.deso), MapSnaps(CreatorCoinLocked, height, lockedBalances),
                MapSnaps(ValidatorStaked, height, validatorBalances), MapSnaps(LockedStake, height, lockedStakeBalances));
      CommitEffect(index.state, height, v);
      index.Commit(wb);
    }
  }

  /** The batch of a commit, merged. */
  lemma CommitEffect(s: State, height: UInt64, v: View)
    ensures v.deso == Delta(v, DESOBalance)
    ensures Merge(s, State(MapSnaps(DESOBalance, height, Delta(v, DESOBalance))
                           + MapSnaps(CreatorCoinLocked, height, Delta(v, CreatorCoinLocked))
                           + MapSnaps(ValidatorStaked, height, Delta(v, ValidatorStaked))
                           + MapSnaps(LockedStake, height, Delta(v, LockedStake)), map[]))
            == State(s.snaps + CommitSnaps(height, v), s.blocks)
  {
    hide MapSnaps;
  }

  ghost predicate Kind(es: seq<Entry>, locked: bool) {
    forall i :: 0 <= i < |es| ==> es[i].holder.LockedHolder? == locked
  }

  lemma KindSnoc(es: seq<Entry>, e: Entry, locked: bool)
    requires Kind(es, locked) && e.holder.LockedHolder? == locked
    ensures Kind(es + [e], locked)
  {
  }

  lemma NoEntries(locked: bool)
    ensures MapOf([]) == map[] && Kind([], locked)
  {
  }

  lemma KindOfMap(es: seq<Entry>, locked: bool)
    requires Kind(es, locked)
    ensures Homogeneous(MapOf(es), locked)
  {
    MapOfFits(es, if locked then LockedStake else DESOBalance);
  }

  /** Creator-coin balances: every public key the view maps, then every profile
      the view holds, the later assignment winning. */
  method LockedBalances(v: View) returns (m: BalanceMap)
    ensures m == Delta(v, CreatorCoinLocked) && Homogeneous(m, false)
  {
    hide TouchedEntries, MapOf, Kind;
    m := TouchedBalances(v.touched);
    ghost var base := TouchedEntries(v.touched);
    assert base + ProfileEntries(v.profiles[..0]) == base;
    for i := 0 to |v.profiles|
      invariant m == MapOf(base + ProfileEntries(v.profiles[..i])) && Kind(base + ProfileEntries(v.profiles[..i]), false)
    {
      var balanceToPut: UInt64 := 0;
      if !v.profiles[i].deleted {
        balanceToPut := v.profiles[i].locked;
      }
      ghost var sofar, e := ProfileEntries(v.profiles[..i]), Entry(KeyHolder(v.profiles[i].pk), balanceToPut);
      assert v.profiles[..i + 1][..i] == v.profiles[..i];
      assert base + (sofar + [e]) == base + sofar + [e];
      EntriesSnoc(base + sofar, e);
      KindSnoc(base + sofar, e, false);
      m := m[KeyHolder(v.profiles[i].pk) := balanceToPut];
    }
    assert v.profiles[..|v.profiles|] == v.profiles;
    KindOfMap(base + ProfileEntries(v.profiles), false);
  }

  method TouchedBalances(ts: seq<Touched>) returns (m: BalanceMap)
    ensures m == MapOf(TouchedEntries(ts)) && Kind(TouchedEntries(ts), false)
  {
    hide MapOf, Kind;
    NoEntries(false);
    m := map[];
    for i := 0 to |ts|
      invariant m == MapOf(TouchedEntries(ts[..i])) && Kind(TouchedEntries(ts[..i]), false)
    {
      var balanceToSet: UInt64 := 0;
      var profileFound := ts[i].profile;
      if profileFound.Some? && !profileFound.value.deleted {
        balanceToSet := profileFound.value.locked;
      }
      assert ts[..i + 1][..i] == ts[..i];
      EntriesSnoc(TouchedEntries(ts[..i]), Entry(KeyHolder(ts[i].pk), balanceToSet));
      KindSnoc(TouchedEntries(ts[..i]), Entry(KeyHolder(ts[i].pk), balanceToSet), false);
      m := m[KeyHolder(ts[i].pk) := balanceToSet];
    }
    assert ts[..|ts|] == ts;
  }

  method ValidatorBalances(v: View) returns (m: BalanceMap)
    ensures m == Delta(v, ValidatorStaked) && Homogeneous(m, false)
  {
    hide MapOf, Kind;
    NoEntries(false);
    m := map[];
    for i := 0 to |v.validators|
      invariant m == MapOf(ValidatorEntries(v.validators[..i])) && Kind(ValidatorEntries(v.validators[..i]), false)
    {
      var validator := v.validators[i];
      assert v.validators[..i + 1][..i] == v.validators[..i];
      var balanceToPut: UInt64 := 0;
      if !validator.deleted {
        if validator.stake >= TWO_64 {
          assert ValidatorEntries(v.validators[..i + 1]) == ValidatorEntries(v.validators[..i]);
          continue;
        }
        balanceToPut := validator.stake;
      }
      EntriesSnoc(ValidatorEntries(v.validators[..i]), Entry(KeyHolder(validator.pkid), balanceToPut));
      KindSnoc(ValidatorEntries(v.validators[..i]), Entry(KeyHolder(validator.pkid), balanceToPut), false);
      m := m[KeyHolder(validator.pkid) := balanceToPut];
    }
    assert v.validators[..|v.validators|] == v.validators;
    KindOfMap(ValidatorEntries(v.validators), false);
  }

  method LockedStakeBalances(v: View) returns (m: BalanceMap)
    ensures m == Delta(v, LockedStake) && Homogeneous(m, true)
  {
    hide MapOf, Kind;
    NoEntries(true);
    m := map[];
    for i := 0 to |v.lockedStakes|
      invariant m == MapOf(LockedEntries(v.lockedStakes[..i])) && Kind(LockedEntries(v.lockedStakes[..i]), true)
    {
      var l := v.lockedStakes[i];
      assert v.lockedStakes[..i + 1][..i] == v.lockedStakes[..i];
      var balanceToPut: UInt64 := 0;
      if !l.deleted {
        if l.amount >= TWO_64 {
          assert LockedEntries(v.lockedStakes[..i + 1]) == LockedEntries(v.lockedStakes[..i]);
          continue;
        }
        balanceToPut := l.amount;
      }
      var holder := LockedHolder(l.staker, l.validator, l.epoch);
      EntriesSnoc(LockedEntries(v.lockedStakes[..i]), Entry(holder, balanceToPut));
      KindSnoc(LockedEntries(v.lockedStakes[..i]), Entry(holder, balanceToPut), true);
      m := m[holder := balanceToPut];
    }
    assert v.lockedStakes[..|v.lockedStakes|] == v.lockedStakes;
    KindOfMap(LockedEntries(v.lockedStakes), true);
  }
}
