/** The property the whole index exists for: adding up the operations of the
    served blocks 0..h gives the balance that the index reports at h. */
module Reconciliation {
  import opened ByteStrings
  import opened Keys
  import opened IndexState
  import opened RosettaIndex
  import opened Partition
  import opened Events
  import opened Sums
  import opened Operations
  import opened Chain
  import opened Translation
  import opened Identifiers
  import opened Ledger
  import opened BlockLedger
  import opened FakeBlocks
  import opened Serving

  // ---------------------------------------------------------------- one synthetic block

  /** The emitted identifiers of the key-held types do not collide. */
  lemma AccountsDiffer(p: Params, t: BalanceType, pk: PublicKey, u: BalanceType, k: Holder)
    requires Lawful(p) && t != LockedStake
    requires IdOf(AccountOf(p, u, k)) == IdOf(AccountOf(p, t, KeyHolder(pk)))
    ensures u == t && k == KeyHolder(pk)
  {
    hide Decimal;
    var x, y := IdOf(AccountOf(p, u, k)).subAddress, IdOf(AccountOf(p, t, KeyHolder(pk))).subAddress;
    assert CREATOR_COIN[0] == 'C' && VALIDATOR_ENTRY[0] == 'V' && LOCKED_STAKE_ENTRY[0] == 'L';
    assert k.LockedHolder? || u == LockedStake ==> LOCKED_STAKE_ENTRY <= x;
    assert y == "" || y == CREATOR_COIN || y == VALIDATOR_ENTRY;
    assert !(LOCKED_STAKE_ENTRY <= y);
    assert k.KeyHolder? && p.decodeKey(p.base58(k.pk)) == Some(k.pk) && p.decodeKey(p.base58(pk)) == Some(pk);
  }

  /** Locked-stake identifiers do not collide either, with one another or with those
      of key-held balances. */
  lemma LockedAccountsDiffer(p: Params, holder: Holder, u: BalanceType, k: Holder)
    requires Lawful(p) && DashFree(p) && holder.LockedHolder? && Fits(u, k)
    requires IdOf(AccountOf(p, u, k)) == IdOf(AccountOf(p, LockedStake, holder))
    ensures u == LockedStake && k == holder
  {
    hide LockedStakeAccount;
    match k
    case KeyHolder(_) =>
      PrintedTextIsOwn(p, holder.staker, holder.validator, holder.epoch);
    case LockedHolder(staker, validator, epoch) =>
      PrintedLockedStakeInjective(p, staker, validator, epoch, holder.staker, holder.validator, holder.epoch);
  }

  /** No entry of the map goes to this account but the holder's own. */
  ghost predicate Apart(p: Params, u: BalanceType, m: BalanceMap, t: BalanceType, holder: Holder) {
    forall k :: k in m && IdOf(AccountOf(p, u, k)) == IdOf(AccountOf(p, t, holder)) ==> u == t && k == holder
  }

  function GiftCredit(id: PartialId): Gift -> int {
    (g: Gift) => if IdOf(g.account) == id then g.amount else 0
  }

  function HolderCredit(p: Params, u: BalanceType, m: BalanceMap, id: PartialId): Holder -> int {
    (k: Holder) => if k in m && IdOf(AccountOf(p, u, k)) == id then m[k] else 0
  }

  lemma GiftsOfMap(p: Params, u: BalanceType, m: BalanceMap, ks: seq<Holder>, id: PartialId)
    ensures Sum(FlatMap(ks, GiftOf(p, u, m)), GiftCredit(id)) == Sum(ks, HolderCredit(p, u, m, id))
  {
    hide AccountOf, FlatMap, Sum;
    var f, c := GiftOf(p, u, m), HolderCredit(p, u, m, id);
    forall i | 0 <= i < |ks| ensures Sum(f(ks[i]), GiftCredit(id)) == c(ks[i]) {
      if f(ks[i]) != [] {
        OneSum(f(ks[i])[0], GiftCredit(id));
      } else {
        SumZero([], GiftCredit(id));
      }
    }
    SumFlatMap(ks, f, GiftCredit(id), c);
  }

  /** What one map gives to one account, in whatever order it was ranged over. */
  lemma MapCredit(p: Params, u: BalanceType, m: BalanceMap, ks: seq<Holder>, t: BalanceType, holder: Holder)
    requires Apart(p, u, m, t, holder) && IsOrderOf(ks, m)
    ensures Sum(FlatMap(ks, GiftOf(p, u, m)), GiftCredit(IdOf(AccountOf(p, t, holder))))
            == if u == t && holder in m then m[holder] else 0
  {
    hide AccountOf, FlatMap, Sum;
    var id := IdOf(AccountOf(p, t, holder));
    var c := HolderCredit(p, u, m, id);
    GiftsOfMap(p, u, m, ks, id);
    assert forall i :: 0 <= i < |ks| && c(ks[i]) != 0 ==> u == t && ks[i] == holder;
    if u == t && holder in m {
      var i :| 0 <= i < |ks| && ks[i] == holder;
      SumOnly(ks, c, i);
    } else {
      assert forall i :: 0 <= i < |ks| ==> ks[i] in m;
      SumZero(ks, c);
    }
  }

  lemma GiftsCredit(p: Params, o: Orders, m: Maps, t: BalanceType, holder: Holder)
    requires OrdersOf(o, m)
    requires Apart(p, DESOBalance, m.deso, t, holder) && Apart(p, CreatorCoinLocked, m.coins, t, holder)
    requires Apart(p, ValidatorStaked, m.staked, t, holder) && Apart(p, LockedStake, m.locked, t, holder)
    ensures var own := match t case DESOBalance => m.deso case CreatorCoinLocked => m.coins
                               case ValidatorStaked => m.staked case LockedStake => m.locked;
            Sum(Gifts(p, o, m), GiftCredit(IdOf(AccountOf(p, t, holder)))) == if holder in own then own[holder] else 0
  {
    MapCredit(p, DESOBalance, m.deso, o.deso, t, holder);
    MapCredit(p, CreatorCoinLocked, m.coins, o.coins, t, holder);
    MapCredit(p, ValidatorStaked, m.staked, o.staked, t, holder);
    MapCredit(p, LockedStake, m.locked, o.locked, t, holder);
    var c := GiftCredit(IdOf(AccountOf(p, t, holder)));
    var a, b := FlatMap(o.deso, GiftOf(p, DESOBalance, m.deso)), FlatMap(o.coins, GiftOf(p, CreatorCoinLocked, m.coins));
    var x, y := FlatMap(o.staked, GiftOf(p, ValidatorStaked, m.staked)), FlatMap(o.locked, GiftOf(p, LockedStake, m.locked));
    hide FlatMap, Sum, IsOrderOf, AccountOf, Apart;
    SumConcat(a + b + x, y, c);
    SumConcat(a + b, x, c);
    SumConcat(a, b, c);
  }

  lemma FakeBlockGives(p: Params, s: State, height: UInt64, hash: Ascii, ts: seq<TxnView>, t: BalanceType, holder: Holder)
    requires height > 0 && IsFakeBlock(p, s, height, hash, ts)
    requires forall u :: Apart(p, u, BlockMap(s, height, u), t, holder)
    ensures BlockNet(ts, IdOf(AccountOf(p, t, holder))) == Credited(s, t, holder, height)
  {
    var id, m := IdOf(AccountOf(p, t, holder)), MapsAt(s, height);
    var o :| RangedAs(p, m, hash, o, ts);
    var gs := Gifts(p, o, m);
    hide Gifts, AccountOf, HashChain, OrdersOf, Apart;
    forall i | 0 <= i < |gs| ensures NetFn(id)(FakeTxns(p, hash, gs)[i]) == GiftCredit(id)(gs[i]) {
      OneSum(FakeTxns(p, hash, gs)[i].ops[0], Credit(id));
    }
    SumPermutation(ts, FakeTxns(p, hash, gs), NetFn(id));
    SumPointwise(FakeTxns(p, hash, gs), gs, NetFn(id), GiftCredit(id));
    GiftsCredit(p, o, m, t, holder);
  }

  /** A synthetic block gives every key-held account exactly what the block map
      of its type records. */
  lemma FakeBlockNet(p: Params, s: State, height: UInt64, hash: Ascii, ts: seq<TxnView>, t: BalanceType, pk: PublicKey)
    requires Lawful(p) && t != LockedStake && height > 0 && IsFakeBlock(p, s, height, hash, ts)
    ensures BlockNet(ts, IdOf(AccountOf(p, t, KeyHolder(pk)))) == Credited(s, t, KeyHolder(pk), height)
  {
    hide AccountOf, IsFakeBlock;
    forall u ensures Apart(p, u, BlockMap(s, height, u), t, KeyHolder(pk)) {
      forall k | IdOf(AccountOf(p, u, k)) == IdOf(AccountOf(p, t, KeyHolder(pk))) ensures u == t && k == KeyHolder(pk) {
        AccountsDiffer(p, t, pk, u, k);
      }
    }
    FakeBlockGives(p, s, height, hash, ts, t, KeyHolder(pk));
  }

  /** And every locked-stake account what the locked-stake block map records for its
      triple, if the maps hold keys of their own kind. */
  lemma FakeBlockLocked(p: Params, s: State, height: UInt64, hash: Ascii, ts: seq<TxnView>,
                        staker: PublicKey, validator: PublicKey, epoch: UInt64)
    requires Lawful(p) && DashFree(p) && height > 0 && IsFakeBlock(p, s, height, hash, ts)
    requires forall u, k :: k in BlockMap(s, height, u) ==> Fits(u, k)
    ensures BlockNet(ts, PartialId(p.base58(staker), "LOCKED_STAKE_ENTRY-" + p.base58(validator) + "-" + Decimal(epoch)))
            == Credited(s, LockedStake, LockedHolder(staker, validator, epoch), height)
  {
    var holder := LockedHolder(staker, validator, epoch);
    PrintedText(p, staker, validator, epoch);
    assert AccountOf(p, LockedStake, holder) == LockedStakeAccount(p, staker, validator, epoch);
    hide AccountOf, IsFakeBlock, Decimal, Lawful, DashFree;
    forall u ensures Apart(p, u, BlockMap(s, height, u), LockedStake, holder) {
      forall k | k in BlockMap(s, height, u) && IdOf(AccountOf(p, u, k)) == IdOf(AccountOf(p, LockedStake, holder))
        ensures u == LockedStake && k == holder
      {
        LockedAccountsDiffer(p, holder, u, k);
      }
    }
    FakeBlockGives(p, s, height, hash, ts, LockedStake, holder);
  }

  // ---------------------------------------------------------------- whole histories

  /** One block of the best chain, the view its commit event carried, and whether
      the server was set when the event was handled. */
  datatype ChainBlock = ChainBlock(block: Block, view: Option<View>, hasServer: bool)

  /** The chain holds every height from zero; commit events come in this order. */
  ghost predicate ByHeight(chain: seq<ChainBlock>) {
    forall j :: 0 <= j < |chain| ==> chain[j].block.height == j
  }

  function CommitOf(c: ChainBlock): Commit {
    Commit(c.block.height, c.view, c.hasServer)
  }

  function Commits(chain: seq<ChainBlock>): (cs: seq<Commit>)
    ensures |cs| == |chain| && forall j :: 0 <= j < |chain| ==> cs[j] == CommitOf(chain[j])
  {
    seq(|chain|, j requires 0 <= j < |chain| => CommitOf(chain[j]))
  }

  /** A node that syncs from a snapshot. */
  predicate Hypersynced(env: Env) {
    env.hyperSync && HasFirstSnapshot(env)
  }

  /** The index with the bootstrap alone: from a snapshot, or empty. */
  ghost function Start(env: Env, d: SnapshotData): State {
    if Hypersynced(env) then AfterSnapshot(env, EMPTY, d) else EMPTY
  }

  ghost function Final(env: Env, d: SnapshotData, chain: seq<ChainBlock>): State {
    AfterCommits(env, Start(env, d), Commits(chain))
  }

  /** The chain with the views of synthetic heights left out. */
  function Settled(env: Env, chain: seq<ChainBlock>): (r: seq<ChainBlock>)
    ensures |r| == |chain|
    ensures forall j :: 0 <= j < |chain| ==>
              r[j] == if ServesFake(env, chain[j].block.height) then chain[j].(view := None) else chain[j]
  {
    seq(|chain|, j requires 0 <= j < |chain| =>
      if ServesFake(env, chain[j].block.height) then chain[j].(view := None) else chain[j])
  }

  /** The chain with the views of synthetic heights alone. */
  function Hasty(env: Env, chain: seq<ChainBlock>): (r: seq<ChainBlock>)
    ensures |r| == |chain|
    ensures forall j :: 0 <= j < |chain| ==>
              r[j] == if ServesFake(env, chain[j].block.height) then chain[j] else chain[j].(view := None)
  {
    seq(|chain|, j requires 0 <= j < |chain| =>
      if ServesFake(env, chain[j].block.height) then chain[j] else chain[j].(view := None))
  }

  /** The bootstrap with what commits at synthetic heights wrote into it, before the
      server was set. */
  ghost function Opening(env: Env, d: SnapshotData, chain: seq<ChainBlock>): State {
    AfterCommits(env, Start(env, d), Commits(Hasty(env, chain)))
  }

  /** The balance an account starts the translated blocks with. */
  ghost function Base(env: Env, d: SnapshotData, t: BalanceType, holder: Holder): nat {
    if Hypersynced(env) then BalanceAt(Start(env, d).snaps, t, holder, env.firstSnapshot.value) else 0
  }

  /** The balance after the first n blocks, according to the bootstrap and the views
      of translated blocks alone. */
  ghost function Tracked(env: Env, d: SnapshotData, chain: seq<ChainBlock>, t: BalanceType, holder: Holder, n: nat): nat
    requires n <= |chain|
  {
    Replay(env, Commits(Settled(env, chain[..n])), t, holder, n, Base(env, d, t, holder))
  }

  /** A translated block up to h has a view that names the holder. */
  ghost predicate Named(env: Env, chain: seq<ChainBlock>, t: BalanceType, holder: Holder, h: nat) {
    exists j :: 0 <= j < |chain| && Names(env, CommitOf(chain[j]), t, holder, h) && !ServesFake(env, chain[j].block.height)
  }

  predicate Names(env: Env, c: Commit, t: BalanceType, holder: Holder, h: nat) {
    Effective(env, c) && c.height <= h && holder in Delta(c.view.value, t)
  }

  /** By how much commits at synthetic heights have put the index off at h: until a
      translated block names the holder. */
  ghost function Early(env: Env, d: SnapshotData, chain: seq<ChainBlock>, t: BalanceType, holder: Holder, h: nat): int {
    if Named(env, chain, t, holder, h) then 0
    else BalanceAt(Start(env, d).snaps, t, holder, h) - BalanceAt(Opening(env, d, chain).snaps, t, holder, h)
  }

  /** Commits at synthetic heights have not changed the index's answer there. */
  ghost predicate NeverEarly(env: Env, d: SnapshotData, chain: seq<ChainBlock>, t: BalanceType, holder: Holder) {
    forall h :: 0 <= h < |chain| && ServesFake(env, h) ==>
      BalanceAt(Opening(env, d, chain).snaps, t, holder, h) == BalanceAt(Start(env, d).snaps, t, holder, h)
  }

  /** The server was set in time: no block with a view was committed at a synthetic
      height before. */
  ghost predicate ServerInTime(env: Env, chain: seq<ChainBlock>) {
    forall j :: 0 <= j < |chain| && ServesFake(env, chain[j].block.height) ==> chain[j].hasServer || chain[j].view.None?
  }

  /** The served lists are what the block service answers for the chain. */
  ghost predicate ServesChain(p: Params, env: Env, s: State, chain: seq<ChainBlock>, served: seq<seq<TxnView>>) {
    |served| == |chain| && forall j :: 0 <= j < |chain| ==> IsServed(p, env, s, chain[j].block, served[j])
  }

  /** What the first n served blocks do to an account. */
  function Total(served: seq<seq<TxnView>>, n: nat, id: PartialId): int
    requires n <= |served|
  {
    if n == 0 then 0 else Total(served, n - 1, id) + BlockNet(served[n - 1], id)
  }

  /** By how much block j is off: what it does to the account, against the change
      that its view says. Synthetic blocks are measured elsewhere. */
  ghost function Gap(p: Params, env: Env, d: SnapshotData, chain: seq<ChainBlock>,
                     served: seq<seq<TxnView>>, t: BalanceType, pk: PublicKey, j: nat): int
    requires |served| == |chain| && j < |chain|
  {
    if ServesFake(env, chain[j].block.height) then 0
    else BlockNet(served[j], IdOf(AccountOf(p, t, KeyHolder(pk)))) - TrackedChange(env, d, chain, t, pk, j)
  }

  /** The change of a balance that the view of block j says. */
  ghost function TrackedChange(env: Env, d: SnapshotData, chain: seq<ChainBlock>, t: BalanceType, pk: PublicKey, j: nat): int
    requires j < |chain|
  {
    Tracked(env, d, chain, t, KeyHolder(pk), j + 1) - Tracked(env, d, chain, t, KeyHolder(pk), j)
  }

  ghost function Gaps(p: Params, env: Env, d: SnapshotData, chain: seq<ChainBlock>,
                      served: seq<seq<TxnView>>, t: BalanceType, pk: PublicKey, n: nat): int
    requires n <= |chain| == |served|
  {
    if n == 0 then 0
    else Gaps(p, env, d, chain, served, t, pk, n - 1) + Gap(p, env, d, chain, served, t, pk, n - 1)
  }

  /** Every translated block changes the account by what its view says. */
  ghost predicate BlocksMatchViews(p: Params, env: Env, d: SnapshotData, chain: seq<ChainBlock>,
                                   served: seq<seq<TxnView>>, t: BalanceType, pk: PublicKey)
    requires |served| == |chain|
  {
    forall j :: 0 <= j < |chain| ==> Gap(p, env, d, chain, served, t, pk, j) == 0
  }

  /** A snapshot whose records of one type, if readable, have distinct keys. */
  ghost predicate DistinctSnapshot(d: SnapshotData, t: BalanceType) {
    AllGood(d.Of(t)) ==> Distinct(EntriesOf(d.Of(t)))
  }

  /** Heights beyond the last commit do not change a replay. */
  lemma {:induction false} ReplayHeight(env: Env, cs: seq<Commit>, t: BalanceType, holder: Holder, h: nat, h': nat, base: nat)
    requires forall i :: 0 <= i < |cs| ==> cs[i].height <= h && cs[i].height <= h'
    ensures Replay(env, cs, t, holder, h, base) == Replay(env, cs, t, holder, h', base)
  {
    if cs != [] {
      ReplayHeight(env, cs[..|cs| - 1], t, holder, h, h', base);
    }
  }

  /** Commits above h do not take part in a replay up to h. */
  lemma {:induction false} ReplayPrefix(env: Env, chain: seq<ChainBlock>, n: nat, t: BalanceType, holder: Holder, base: nat)
    requires ByHeight(chain) && 0 < n <= |chain|
    ensures Replay(env, Commits(chain), t, holder, n - 1, base) == Replay(env, Commits(chain[..n]), t, holder, n, base)
    decreases |chain|
  {
    hide Replay;
    if n == |chain| {
      assert chain[..n] == chain;
      ReplayHeight(env, Commits(chain), t, holder, n - 1, n, base);
    } else {
      var init := chain[..|chain| - 1];
      ReplayPrefix(env, init, n, t, holder, base);
      assert init[..n] == chain[..n];
      LastTooHigh(env, chain, n - 1, t, holder, base);
    }
  }

  lemma LastTooHigh(env: Env, chain: seq<ChainBlock>, h: nat, t: BalanceType, holder: Holder, base: nat)
    requires ByHeight(chain) && h < |chain| - 1
    ensures Replay(env, Commits(chain), t, holder, h, base) == Replay(env, Commits(chain[..|chain| - 1]), t, holder, h, base)
  {
    assert Commits(chain)[..|chain| - 1] == Commits(chain[..|chain| - 1]);
  }

  lemma {:induction false} ReplayIneffective(env: Env, cs: seq<Commit>, t: BalanceType, holder: Holder, h: nat, base: nat)
    requires forall i :: 0 <= i < |cs| ==> !Effective(env, cs[i])
    ensures Replay(env, cs, t, holder, h, base) == base
  {
    if cs != [] {
      ReplayIneffective(env, cs[..|cs| - 1], t, holder, h, base);
    }
  }

  lemma CommitsRise(chain: seq<ChainBlock>)
    requires ByHeight(chain)
    ensures Increasing(Commits(chain))
  {
  }

  /** A replay ends with the last view that names the holder, or with its base. */
  lemma {:induction false} ReplayBase(env: Env, cs: seq<Commit>, t: BalanceType, holder: Holder, h: nat, b: nat, b': nat)
    ensures if exists i :: 0 <= i < |cs| && Names(env, cs[i], t, holder, h)
            then Replay(env, cs, t, holder, h, b) == Replay(env, cs, t, holder, h, b')
            else Replay(env, cs, t, holder, h, b) == b && Replay(env, cs, t, holder, h, b') == b'
  {
    hide Delta, Effective;
    if cs != [] {
      ReplayBase(env, cs[..|cs| - 1], t, holder, h, b, b');
    }
  }

  /** The snapshots that a run of commits writes. */
  ghost function SnapsWritten(env: Env, cs: seq<Commit>): set<Snap> {
    if cs == [] then {}
    else
      var c := cs[|cs| - 1];
      SnapsWritten(env, cs[..|cs| - 1]) + if Effective(env, c) then CommitSnaps(c.height, c.view.value) else {}
  }

  lemma {:induction false} RunWrites(env: Env, s: State, cs: seq<Commit>)
    ensures AfterCommits(env, s, cs).snaps == s.snaps + SnapsWritten(env, cs)
  {
    hide CommitSnaps, Effective;
    if cs != [] {
      RunWrites(env, s, cs[..|cs| - 1]);
    }
  }

  /** Commits at synthetic heights and the others write what all of them write. */
  lemma {:induction false} WritesSplit(env: Env, chain: seq<ChainBlock>)
    ensures SnapsWritten(env, Commits(chain))
            == SnapsWritten(env, Commits(Hasty(env, chain))) + SnapsWritten(env, Commits(Settled(env, chain)))
  {
    hide CommitSnaps, ServesFake;
    if chain != [] {
      var n := |chain| - 1;
      WritesSplit(env, chain[..n]);
      PrefixCommits(env, chain, n);
    }
  }

  lemma PrefixCommits(env: Env, chain: seq<ChainBlock>, n: nat)
    requires n <= |chain|
    ensures Commits(chain)[..n] == Commits(chain[..n])
    ensures Commits(Hasty(env, chain))[..n] == Commits(Hasty(env, chain[..n]))
    ensures Commits(Settled(env, chain))[..n] == Commits(Settled(env, chain[..n]))
    ensures Settled(env, chain)[..n] == Settled(env, chain[..n])
  {
    hide ServesFake;
  }

  lemma FinalSplits(env: Env, d: SnapshotData, chain: seq<ChainBlock>)
    ensures Final(env, d, chain).snaps
            == AfterCommits(env, Opening(env, d, chain), Commits(Settled(env, chain))).snaps
  {
    hide AfterCommits, SnapsWritten, Start;
    RunWrites(env, Start(env, d), Commits(chain));
    RunWrites(env, Start(env, d), Commits(Hasty(env, chain)));
    RunWrites(env, Opening(env, d, chain), Commits(Settled(env, chain)));
    WritesSplit(env, chain);
  }

  lemma StartBelow(env: Env, d: SnapshotData)
    requires Hypersynced(env)
    ensures SnapsBelow(Start(env, d), env.firstSnapshot.value + 1)
  {
    SnapshotByType(env, d, DESOBalance);
  }

  /** Nothing in the opening lies above the first snapshot. */
  lemma OpeningBelow(env: Env, d: SnapshotData, chain: seq<ChainBlock>)
    ensures Hypersynced(env) ==> SnapsBelow(Opening(env, d, chain), env.firstSnapshot.value + 1)
    ensures !Hypersynced(env) ==> Opening(env, d, chain) == EMPTY
  {
    var cs := Commits(Hasty(env, chain));
    if Hypersynced(env) {
      StartBelow(env, d);
      HastyBelow(env, Start(env, d), cs);
    } else {
      NoneEffective(env, EMPTY, cs);
    }
  }

  lemma {:induction false} HastyBelow(env: Env, s: State, cs: seq<Commit>)
    requires Hypersynced(env) && SnapsBelow(s, env.firstSnapshot.value + 1)
    requires forall i :: 0 <= i < |cs| && cs[i].view.Some? ==> cs[i].height <= env.firstSnapshot.value
    ensures SnapsBelow(AfterCommits(env, s, cs), env.firstSnapshot.value + 1)
  {
    if cs != [] {
      var c := cs[|cs| - 1];
      HastyBelow(env, s, cs[..|cs| - 1]);
      if Effective(env, c) {
        CommitSnapsHeight(c.height, c.view.value);
      }
    }
  }

  lemma {:induction false} NoneEffective(env: Env, s: State, cs: seq<Commit>)
    requires forall i :: 0 <= i < |cs| ==> !Effective(env, cs[i])
    ensures AfterCommits(env, s, cs) == s
  {
    if cs != [] {
      NoneEffective(env, s, cs[..|cs| - 1]);
    }
  }

  /** After the whole run, for every height, the index answers with the last view of
      a translated block that names the holder, else with the opening. */
  lemma IndexReplays(env: Env, d: SnapshotData, chain: seq<ChainBlock>, t: BalanceType, holder: Holder, h: nat)
    requires ByHeight(chain)
    ensures BalanceAt(Final(env, d, chain).snaps, t, holder, h)
            == Replay(env, Commits(Settled(env, chain)), t, holder, h, BalanceAt(Opening(env, d, chain).snaps, t, holder, h))
  {
    var cs, s := Commits(Settled(env, chain)), Opening(env, d, chain);
    hide AfterCommits, BalanceAt, Replay, Start, Opening;
    FinalSplits(env, d, chain);
    CommitsRise(Settled(env, chain));
    OpeningBelow(env, d, chain);
    forall i | 0 <= i < |cs| && Effective(env, cs[i]) ensures SnapsBelow(s, cs[i].height) {
      assert cs[i] == CommitOf(Settled(env, chain)[i]);
    }
    RunIsReplay(env, s, cs, t, holder, h);
  }

  /** After the whole run the index at h is the bootstrap's own answer up to the first
      snapshot and the tracked balance past it, but for commits at synthetic heights. */
  lemma IndexTracks(env: Env, d: SnapshotData, chain: seq<ChainBlock>, t: BalanceType, holder: Holder, h: UInt64)
    requires ByHeight(chain) && h < |chain|
    ensures BalanceAt(Final(env, d, chain).snaps, t, holder, h) + Early(env, d, chain, t, holder, h) ==
            if ServesFake(env, h) then BalanceAt(Start(env, d).snaps, t, holder, h)
            else Tracked(env, d, chain, t, holder, h + 1)
  {
    hide BalanceAt, Replay, Start, Opening, Final, Early, Tracked, ServesFake;
    IndexReplays(env, d, chain, t, holder, h);
    EarlySettles(env, d, chain, t, holder, h);
    StartTracks(env, d, chain, t, holder, h);
  }

  /** What is early is the difference between replays from the opening and from the bootstrap. */
  lemma EarlySettles(env: Env, d: SnapshotData, chain: seq<ChainBlock>, t: BalanceType, holder: Holder, h: nat)
    ensures var cs := Commits(Settled(env, chain));
            Replay(env, cs, t, holder, h, BalanceAt(Opening(env, d, chain).snaps, t, holder, h)) + Early(env, d, chain, t, holder, h)
            == Replay(env, cs, t, holder, h, BalanceAt(Start(env, d).snaps, t, holder, h))
  {
    hide BalanceAt, Replay, Start, Opening, Names, Named;
    NamedInSettled(env, chain, t, holder, h);
    ReplayBase(env, Commits(Settled(env, chain)), t, holder, h,
               BalanceAt(Opening(env, d, chain).snaps, t, holder, h), BalanceAt(Start(env, d).snaps, t, holder, h));
  }

  /** A replay from the bootstrap is the bootstrap's answer or the tracked balance. */
  lemma StartTracks(env: Env, d: SnapshotData, chain: seq<ChainBlock>, t: BalanceType, holder: Holder, h: UInt64)
    requires ByHeight(chain) && h < |chain|
    ensures Replay(env, Commits(Settled(env, chain)), t, holder, h, BalanceAt(Start(env, d).snaps, t, holder, h)) ==
            if ServesFake(env, h) then BalanceAt(Start(env, d).snaps, t, holder, h)
            else Tracked(env, d, chain, t, holder, h + 1)
  {
    hide BalanceAt, Replay, Start, Names, Named, Base;
    var before := BalanceAt(Start(env, d).snaps, t, holder, h);
    if ServesFake(env, h) {
      NoneNamedYet(env, chain, t, holder, h);
      NamedInSettled(env, chain, t, holder, h);
      ReplayBase(env, Commits(Settled(env, chain)), t, holder, h, before, before);
    } else {
      SettledByHeight(env, chain);
      ReplayPrefix(env, Settled(env, chain), h + 1, t, holder, before);
      PrefixCommits(env, chain, h + 1);
      StartAnswers(env, d, t, holder, h);
    }
  }

  lemma SettledByHeight(env: Env, chain: seq<ChainBlock>)
    requires ByHeight(chain)
    ensures ByHeight(Settled(env, chain))
  {
  }

  lemma NamedInSettled(env: Env, chain: seq<ChainBlock>, t: BalanceType, holder: Holder, h: nat)
    ensures Named(env, chain, t, holder, h) <==>
            exists i :: 0 <= i < |chain| && Names(env, Commits(Settled(env, chain))[i], t, holder, h)
  {
    hide Delta, ServesFake;
    var cs := Commits(Settled(env, chain));
    if j :| 0 <= j < |chain| && Names(env, CommitOf(chain[j]), t, holder, h) && !ServesFake(env, chain[j].block.height) {
      assert cs[j] == CommitOf(chain[j]);
    }
    if i :| 0 <= i < |chain| && Names(env, cs[i], t, holder, h) {
      assert cs[i] == CommitOf(Settled(env, chain)[i]);
      assert Names(env, CommitOf(chain[i]), t, holder, h);
    }
  }

  lemma NoneNamedYet(env: Env, chain: seq<ChainBlock>, t: BalanceType, holder: Holder, h: nat)
    requires ByHeight(chain) && ServesFake(env, h)
    ensures !Named(env, chain, t, holder, h)
  {
    hide Delta;
  }

  /** Nothing in the bootstrap or the opening lies above the first snapshot. */
  lemma StartAnswers(env: Env, d: SnapshotData, t: BalanceType, holder: Holder, h: nat)
    requires !ServesFake(env, h)
    ensures BalanceAt(Start(env, d).snaps, t, holder, h) == Base(env, d, t, holder)
  {
    if Hypersynced(env) {
      StartBelow(env, d);
      AboveAll(Start(env, d), t, holder, h, env.firstSnapshot.value);
    }
  }

  lemma AboveAll(s: State, t: BalanceType, holder: Holder, h: nat, top: nat)
    requires SnapsBelow(s, top + 1) && top <= h
    ensures BalanceAt(s.snaps, t, holder, h) == BalanceAt(s.snaps, t, holder, top)
  {
    BalanceLocal(s.snaps, s.snaps, t, holder, h, top);
  }

  lemma OpeningAnswers(env: Env, d: SnapshotData, chain: seq<ChainBlock>, t: BalanceType, holder: Holder, h: nat)
    requires !ServesFake(env, h)
    ensures BalanceAt(Opening(env, d, chain).snaps, t, holder, h)
            == if Hypersynced(env) then BalanceAt(Opening(env, d, chain).snaps, t, holder, env.firstSnapshot.value) else 0
  {
    OpeningBelow(env, d, chain);
    hide Opening;
    if Hypersynced(env) {
      AboveAll(Opening(env, d, chain), t, holder, h, env.firstSnapshot.value);
    }
  }

  /** Where nothing is early at synthetic heights, nothing is later either. */
  lemma NeverEarlyMeansZero(env: Env, d: SnapshotData, chain: seq<ChainBlock>, t: BalanceType, holder: Holder, h: nat)
    requires ByHeight(chain) && h < |chain| && NeverEarly(env, d, chain, t, holder)
    ensures Early(env, d, chain, t, holder, h) == 0
  {
    hide Opening, Start, BalanceAt, Named;
    if !ServesFake(env, h) {
      StartAnswers(env, d, t, holder, h);
      OpeningAnswers(env, d, chain, t, holder, h);
    }
  }

  lemma {:induction false} ServerInTimeMeansNeverEarly(env: Env, d: SnapshotData, chain: seq<ChainBlock>,
                                                       t: BalanceType, holder: Holder)
    requires ServerInTime(env, chain)
    ensures NeverEarly(env, d, chain, t, holder)
  {
    hide AfterCommits, BalanceAt, Start;
    var cs := Commits(Hasty(env, chain));
    forall i | 0 <= i < |cs| ensures !Effective(env, cs[i]) {
      assert cs[i] == CommitOf(Hasty(env, chain)[i]);
    }
    NoneEffective(env, Start(env, d), cs);
  }

  /** Before any translated block the tracked balance is the base. */
  lemma TrackedBase(env: Env, d: SnapshotData, chain: seq<ChainBlock>, t: BalanceType, holder: Holder, n: nat)
    requires ByHeight(chain) && n <= |chain|
    requires n == 0 || ServesFake(env, n - 1)
    ensures Tracked(env, d, chain, t, holder, n) == Base(env, d, t, holder)
  {
    hide Base;
    var settled := Settled(env, chain[..n]);
    var cs := Commits(settled);
    forall i | 0 <= i < |cs| ensures !Effective(env, cs[i]) {
      assert cs[i] == CommitOf(settled[i]) && settled[i].view.None?;
    }
    ReplayIneffective(env, cs, t, holder, n, Base(env, d, t, holder));
  }

  /** One synthetic block gives an account what the bootstrap recorded for that height. */
  lemma FakeStep(p: Params, env: Env, d: SnapshotData, chain: seq<ChainBlock>,
                 ts: seq<TxnView>, t: BalanceType, pk: PublicKey, h: UInt64)
    requires Lawful(p) && t != LockedStake && h < |chain| && chain[h].block.height == h && ServesFake(env, h)
    requires IsServed(p, env, Final(env, d, chain), chain[h].block, ts)
    ensures BlockNet(ts, IdOf(AccountOf(p, t, KeyHolder(pk))))
            == if h == 0 then 0 else Credited(Start(env, d), t, KeyHolder(pk), h)
  {
    hide AccountOf, AfterCommits, Start, Lawful, MapsAt, HashChain;
    CommitsKeepBlocks(env, Start(env, d), Commits(chain));
    if h > 0 {
      FakeBlockNet(p, Final(env, d, chain), h, chain[h].block.hash, ts, t, pk);
    }
  }

  /** The synthetic blocks up to h give what the bootstrap recorded up to h. */
  lemma {:induction false} FakeTotal(p: Params, env: Env, d: SnapshotData, chain: seq<ChainBlock>,
                                     served: seq<seq<TxnView>>, t: BalanceType, pk: PublicKey, h: UInt64)
    requires Lawful(p) && t != LockedStake && ByHeight(chain) && h < |chain|
    requires ServesChain(p, env, Final(env, d, chain), chain, served) && ServesFake(env, h)
    ensures Total(served, h + 1, IdOf(AccountOf(p, t, KeyHolder(pk)))) == CreditedUpTo(Start(env, d), t, KeyHolder(pk), h)
  {
    hide AccountOf, Final, Start, Lawful, IsServed, BlockNet, Credited, IdOf;
    FakeStep(p, env, d, chain, served[h], t, pk, h);
    if h == 0 {
      ZeroBlockEmpty(env, d, t, KeyHolder(pk));
    } else {
      FakeTotal(p, env, d, chain, served, t, pk, h - 1);
    }
  }

  lemma EntriesFit(t: BalanceType, rs: seq<Record>, first: UInt64, h: UInt64)
    requires RecordsFit(t, rs) && AllGood(rs) && first > 0
    ensures forall k :: k in BlockMap(Boot(t, EntriesOf(rs), first), h, t) ==> Fits(t, k)
  {
    var es := EntriesOf(rs);
    assert AllFit(t, es);
    hide EntriesOf, AllGood, RecordsFit, Boot, PerBlock;
    BootBlockMap(t, es, first, h);
    if 1 <= h <= first {
      MapOfFits(Chunk(es, h, first), t);
    }
  }

  /** The block maps of a bootstrap hold keys of their own kind. */
  lemma BlocksTyped(env: Env, d: SnapshotData, u: BalanceType, h: UInt64)
    requires Hypersynced(env) && d.Typed()
    ensures forall k :: k in BlockMap(Start(env, d), h, u) ==> Fits(u, k)
  {
    var first, s := env.firstSnapshot.value, Start(env, d);
    assert RecordsFit(u, d.Of(u));
    assert BlockMap(s, h, u) == BlockMap(OfType(s, u), h, u);
    hide AfterSnapshot, EntriesOf, Boot, RecordsFit, SnapshotData.Typed, SnapshotData.Of, OfType;
    SnapshotByType(env, d, u);
    if AllGood(d.Of(u)) {
      MergeEmpty(Boot(u, EntriesOf(d.Of(u)), first));
      EntriesFit(u, d.Of(u), first, h);
    }
  }

  lemma LockedFakeStep(p: Params, env: Env, d: SnapshotData, chain: seq<ChainBlock>, ts: seq<TxnView>,
                       staker: PublicKey, validator: PublicKey, epoch: UInt64, h: UInt64)
    requires Lawful(p) && DashFree(p) && d.Typed() && h < |chain| && chain[h].block.height == h && ServesFake(env, h)
    requires IsServed(p, env, Final(env, d, chain), chain[h].block, ts)
    ensures BlockNet(ts, PartialId(p.base58(staker), "LOCKED_STAKE_ENTRY-" + p.base58(validator) + "-" + Decimal(epoch)))
            == if h == 0 then 0 else Credited(Start(env, d), LockedStake, LockedHolder(staker, validator, epoch), h)
  {
    hide AfterCommits, Start, Lawful, MapsAt, HashChain, Decimal, SnapshotData.Typed;
    CommitsKeepBlocks(env, Start(env, d), Commits(chain));
    if h > 0 {
      forall u, k | k in BlockMap(Final(env, d, chain), h, u) ensures Fits(u, k) {
        BlocksTyped(env, d, u, h);
      }
      FakeBlockLocked(p, Final(env, d, chain), h, chain[h].block.hash, ts, staker, validator, epoch);
    }
  }

  /** The synthetic blocks up to h give every locked-stake account what the bootstrap
      recorded for its triple as of h. */
  lemma {:induction false} LockedSyntheticTotal(p: Params, env: Env, d: SnapshotData, chain: seq<ChainBlock>, served: seq<seq<TxnView>>,
                                                staker: PublicKey, validator: PublicKey, epoch: UInt64, h: UInt64)
    requires Lawful(p) && DashFree(p) && d.Typed() && DistinctSnapshot(d, LockedStake) && ByHeight(chain) && h < |chain|
    requires ServesChain(p, env, Final(env, d, chain), chain, served) && ServesFake(env, h)
    ensures Total(served, h + 1, PartialId(p.base58(staker), "LOCKED_STAKE_ENTRY-" + p.base58(validator) + "-" + Decimal(epoch)))
            == BalanceAt(Start(env, d).snaps, LockedStake, LockedHolder(staker, validator, epoch), h)
  {
    hide Final, Start, Lawful, DashFree, IsServed, BlockNet, Credited, Decimal, SnapshotData.Typed, DistinctSnapshot;
    LockedCredits(p, env, d, chain, served, staker, validator, epoch, h);
    StartReconciles(env, d, LockedStake, LockedHolder(staker, validator, epoch), h);
  }

  lemma StartReconciles(env: Env, d: SnapshotData, t: BalanceType, holder: Holder, h: UInt64)
    requires ServesFake(env, h) && DistinctSnapshot(d, t)
    ensures CreditedUpTo(Start(env, d), t, holder, h) == BalanceAt(Start(env, d).snaps, t, holder, h)
  {
    SnapshotReconciles(env, d, t, holder, h);
  }

  lemma {:induction false} LockedCredits(p: Params, env: Env, d: SnapshotData, chain: seq<ChainBlock>, served: seq<seq<TxnView>>,
                                         staker: PublicKey, validator: PublicKey, epoch: UInt64, h: UInt64)
    requires Lawful(p) && DashFree(p) && d.Typed() && ByHeight(chain) && h < |chain|
    requires ServesChain(p, env, Final(env, d, chain), chain, served) && ServesFake(env, h)
    ensures Total(served, h + 1, PartialId(p.base58(staker), "LOCKED_STAKE_ENTRY-" + p.base58(validator) + "-" + Decimal(epoch)))
            == CreditedUpTo(Start(env, d), LockedStake, LockedHolder(staker, validator, epoch), h)
  {
    hide Final, Start, Lawful, DashFree, IsServed, BlockNet, Credited, Decimal, SnapshotData.Typed;
    LockedFakeStep(p, env, d, chain, served[h], staker, validator, epoch, h);
    if h == 0 {
      ZeroBlockEmpty(env, d, LockedStake, LockedHolder(staker, validator, epoch));
    } else {
      LockedCredits(p, env, d, chain, served, staker, validator, epoch, h - 1);
    }
  }

  lemma ZeroBlockEmpty(env: Env, d: SnapshotData, t: BalanceType, holder: Holder)
    ensures CreditedUpTo(Start(env, d), t, holder, 0) == 0
  {
    if Hypersynced(env) {
      SnapshotByType(env, d, t);
      OnlyAnswers(Start(env, d), t, holder, 0);
      if AllGood(d.Of(t)) {
        BootBlockMap(t, EntriesOf(d.Of(t)), env.firstSnapshot.value, 0);
        MergeEmpty(Boot(t, EntriesOf(d.Of(t)), env.firstSnapshot.value));
      }
    }
  }

  lemma {:induction false} NoGaps(p: Params, env: Env, d: SnapshotData, chain: seq<ChainBlock>,
                                  served: seq<seq<TxnView>>, t: BalanceType, pk: PublicKey, n: nat)
    requires n <= |chain| == |served|
    requires forall j :: 0 <= j < n ==> Gap(p, env, d, chain, served, t, pk, j) == 0
    ensures Gaps(p, env, d, chain, served, t, pk, n) == 0
  {
    hide Gap;
    if n > 0 {
      NoGaps(p, env, d, chain, served, t, pk, n - 1);
    }
  }

  lemma FakeGaps(p: Params, env: Env, d: SnapshotData, chain: seq<ChainBlock>,
                 served: seq<seq<TxnView>>, t: BalanceType, pk: PublicKey, h: nat)
    requires |chain| == |served| && ByHeight(chain) && h < |chain| && ServesFake(env, h)
    ensures Gaps(p, env, d, chain, served, t, pk, h + 1) == 0
  {
    hide BlockNet, TrackedChange, AccountOf;
    NoGaps(p, env, d, chain, served, t, pk, h + 1);
  }

  /** Summed operations are the bootstrap's answer up to the first snapshot and the
      tracked balance after it, plus the gaps. */
  lemma {:induction false} TotalTracks(p: Params, env: Env, d: SnapshotData, chain: seq<ChainBlock>,
                                       served: seq<seq<TxnView>>, t: BalanceType, pk: PublicKey, h: UInt64)
    requires Lawful(p) && t != LockedStake && ByHeight(chain) && h < |chain| && DistinctSnapshot(d, t)
    requires ServesChain(p, env, Final(env, d, chain), chain, served)
    ensures Total(served, h + 1, IdOf(AccountOf(p, t, KeyHolder(pk)))) ==
            (if ServesFake(env, h) then BalanceAt(Start(env, d).snaps, t, KeyHolder(pk), h)
             else Tracked(env, d, chain, t, KeyHolder(pk), h + 1))
            + Gaps(p, env, d, chain, served, t, pk, h + 1)
  {
    hide AccountOf, AfterCommits, AfterSnapshot, Replay, BalanceAt, BlockNet, IsServed, Lawful, Gaps;
    assert chain[h].block.height == h;
    if ServesFake(env, h) {
      FakeTotal(p, env, d, chain, served, t, pk, h);
      SnapshotReconciles(env, d, t, KeyHolder(pk), h);
      FakeGaps(p, env, d, chain, served, t, pk, h);
    } else {
      GapsNext(p, env, d, chain, served, t, pk, h);
      if h > 0 {
        TotalTracks(p, env, d, chain, served, t, pk, h - 1);
      }
      if h == 0 || ServesFake(env, h - 1) {
        TrackedBase(env, d, chain, t, KeyHolder(pk), h);
        assert h > 0 ==> h - 1 == env.firstSnapshot.value;
      }
    }
  }

  lemma GapsNext(p: Params, env: Env, d: SnapshotData, chain: seq<ChainBlock>,
                 served: seq<seq<TxnView>>, t: BalanceType, pk: PublicKey, h: nat)
    requires h < |chain| == |served| && chain[h].block.height == h && !ServesFake(env, h)
    ensures Gaps(p, env, d, chain, served, t, pk, h + 1)
            == (if h == 0 then 0 else Gaps(p, env, d, chain, served, t, pk, h))
               + BlockNet(served[h], IdOf(AccountOf(p, t, KeyHolder(pk))))
               - Tracked(env, d, chain, t, KeyHolder(pk), h + 1) + Tracked(env, d, chain, t, KeyHolder(pk), h)
  {
    hide BlockNet, Tracked, AccountOf;
  }

  /** The law of a whole history. For any run of a hypersynced node (one snapshot and
      the chain's commits) or of a block-synced one (commits alone), for every main,
      creator-coin or validator account and every height: the operations of the
      served blocks 0..h are what the index answers at h, plus the gaps of the
      translated blocks, plus what commits handled before the server was set have
      put the index off by. */
  lemma HistoryLaw(p: Params, env: Env, d: SnapshotData, chain: seq<ChainBlock>,
                   served: seq<seq<TxnView>>, t: BalanceType, pk: PublicKey, h: UInt64)
    requires Lawful(p) && t != LockedStake && ByHeight(chain) && h < |chain| && DistinctSnapshot(d, t)
    requires ServesChain(p, env, Final(env, d, chain), chain, served)
    ensures Total(served, h + 1, IdOf(AccountOf(p, t, KeyHolder(pk))))
            == BalanceAt(Final(env, d, chain).snaps, t, KeyHolder(pk), h) + Gaps(p, env, d, chain, served, t, pk, h + 1)
               + Early(env, d, chain, t, KeyHolder(pk), h)
  {
    hide *;
    TotalTracks(p, env, d, chain, served, t, pk, h);
    IndexTracks(env, d, chain, t, KeyHolder(pk), h);
  }

  /** The served blocks up to h add up to what the index answers at h. */
  ghost predicate Reconciles(p: Params, env: Env, d: SnapshotData, chain: seq<ChainBlock>,
                             served: seq<seq<TxnView>>, t: BalanceType, pk: PublicKey, h: UInt64)
    requires |served| == |chain| && h < |chain|
  {
    Total(served, h + 1, IdOf(AccountOf(p, t, KeyHolder(pk)))) == BalanceAt(Final(env, d, chain).snaps, t, KeyHolder(pk), h)
  }

  lemma ReconcilesWithoutGaps(p: Params, env: Env, d: SnapshotData, chain: seq<ChainBlock>,
                              served: seq<seq<TxnView>>, t: BalanceType, pk: PublicKey, h: UInt64)
    requires Lawful(p) && t != LockedStake && ByHeight(chain) && h < |chain| && DistinctSnapshot(d, t)
    requires ServesChain(p, env, Final(env, d, chain), chain, served)
    ensures Reconciles(p, env, d, chain, served, t, pk, h) <==>
            Gaps(p, env, d, chain, served, t, pk, h + 1) + Early(env, d, chain, t, KeyHolder(pk), h) == 0
  {
    hide Lawful, Gaps, Total, BalanceAt, AccountOf, DistinctSnapshot, Final, IsServed, Early;
    HistoryLaw(p, env, d, chain, served, t, pk, h);
  }

  /** Whole-history reconciliation: if the server was set in time and each translated
      block changes the account by what its view says, the node reconciles at every
      height. */
  lemma HistoryReconciles(p: Params, env: Env, d: SnapshotData, chain: seq<ChainBlock>,
                          served: seq<seq<TxnView>>, t: BalanceType, pk: PublicKey, h: UInt64)
    requires Lawful(p) && t != LockedStake && ByHeight(chain) && h < |chain| && DistinctSnapshot(d, t)
    requires ServesChain(p, env, Final(env, d, chain), chain, served)
    requires BlocksMatchViews(p, env, d, chain, served, t, pk) && NeverEarly(env, d, chain, t, KeyHolder(pk))
    ensures Reconciles(p, env, d, chain, served, t, pk, h)
  {
    hide Lawful, Gap, Gaps, Reconciles, DistinctSnapshot, Final, IsServed, Early, NeverEarly;
    ReconcilesWithoutGaps(p, env, d, chain, served, t, pk, h);
    NoGaps(p, env, d, chain, served, t, pk, h + 1);
    NeverEarlyMeansZero(env, d, chain, t, KeyHolder(pk), h);
  }

  /** Served synthetic blocks reconcile at a height, with no condition on blocks or
      views, exactly when commits handled before the server was set have not changed
      the bootstrap's answer there. */
  lemma SyntheticReconcilesExactlyWhen(p: Params, env: Env, d: SnapshotData, chain: seq<ChainBlock>,
                                       served: seq<seq<TxnView>>, t: BalanceType, pk: PublicKey, h: UInt64)
    requires Lawful(p) && t != LockedStake && ByHeight(chain) && h < |chain| && DistinctSnapshot(d, t)
    requires ServesChain(p, env, Final(env, d, chain), chain, served) && ServesFake(env, h)
    ensures Reconciles(p, env, d, chain, served, t, pk, h) <==>
            BalanceAt(Opening(env, d, chain).snaps, t, KeyHolder(pk), h) == BalanceAt(Start(env, d).snaps, t, KeyHolder(pk), h)
  {
    hide Lawful, Gaps, Reconciles, DistinctSnapshot, Final, IsServed, Named, Opening, Start, BalanceAt;
    ReconcilesWithoutGaps(p, env, d, chain, served, t, pk, h);
    FakeGaps(p, env, d, chain, served, t, pk, h);
    NoneNamedYet(env, chain, t, KeyHolder(pk), h);
  }

  /** The conditions are also necessary: the node reconciles an account at every
      height exactly when every translated block changes the account by what its
      view says, and no commit at a synthetic height has changed the index there. */
  lemma ReconcilesExactlyWhen(p: Params, env: Env, d: SnapshotData, chain: seq<ChainBlock>,
                              served: seq<seq<TxnView>>, t: BalanceType, pk: PublicKey)
    requires Lawful(p) && t != LockedStake && ByHeight(chain) && DistinctSnapshot(d, t)
    requires ServesChain(p, env, Final(env, d, chain), chain, served)
    ensures (forall h: UInt64 :: h < |chain| ==> Reconciles(p, env, d, chain, served, t, pk, h))
            <==> BlocksMatchViews(p, env, d, chain, served, t, pk) && NeverEarly(env, d, chain, t, KeyHolder(pk))
  {
    hide Lawful, IsServed, Final, Gap, DistinctSnapshot, Reconciles, Early, Opening, Start, BalanceAt;
    if BlocksMatchViews(p, env, d, chain, served, t, pk) && NeverEarly(env, d, chain, t, KeyHolder(pk)) {
      forall h: UInt64 | h < |chain| ensures Reconciles(p, env, d, chain, served, t, pk, h) {
        HistoryReconciles(p, env, d, chain, served, t, pk, h);
      }
    }
    if forall h: UInt64 :: h < |chain| ==> Reconciles(p, env, d, chain, served, t, pk, h) {
      forall h | 0 <= h < |chain| && ServesFake(env, h)
        ensures BalanceAt(Opening(env, d, chain).snaps, t, KeyHolder(pk), h) == BalanceAt(Start(env, d).snaps, t, KeyHolder(pk), h)
      {
        assert chain[h].block.height == h;
        SyntheticReconcilesExactlyWhen(p, env, d, chain, served, t, pk, h);
      }
      forall j | 0 <= j < |chain| ensures Gap(p, env, d, chain, served, t, pk, j) == 0 {
        GapsVanish(p, env, d, chain, served, t, pk, j);
      }
    }
  }

  /** Reconciling at two heights in a row forces the block between them. */
  lemma GapsVanish(p: Params, env: Env, d: SnapshotData, chain: seq<ChainBlock>,
                   served: seq<seq<TxnView>>, t: BalanceType, pk: PublicKey, j: nat)
    requires Lawful(p) && t != LockedStake && ByHeight(chain) && DistinctSnapshot(d, t)
    requires ServesChain(p, env, Final(env, d, chain), chain, served) && NeverEarly(env, d, chain, t, KeyHolder(pk))
    requires j < |chain| && forall h: UInt64 :: h < |chain| ==> Reconciles(p, env, d, chain, served, t, pk, h)
    ensures Gap(p, env, d, chain, served, t, pk, j) == 0
  {
    hide Lawful, IsServed, Final, Gap, DistinctSnapshot, Reconciles, Early, NeverEarly;
    assert chain[j].block.height == j;
    NeverEarlyMeansZero(env, d, chain, t, KeyHolder(pk), j);
    ReconcilesWithoutGaps(p, env, d, chain, served, t, pk, j);
    if j > 0 {
      NeverEarlyMeansZero(env, d, chain, t, KeyHolder(pk), j - 1);
      ReconcilesWithoutGaps(p, env, d, chain, served, t, pk, j - 1);
    }
  }

  /** A block with a view, committed at a synthetic height before the server is set:
      the index answers with the view, the synthetic block gives nothing. */
  lemma EarlyCommitIsLost(p: Params, hash: Ascii, pk: PublicKey, balance: UInt64)
    requires balance > 0
    ensures var env, d := Env(true, Some(1)), SnapshotData([], [], [], []);
            var view := View(map[KeyHolder(pk) := balance], [], [], [], []);
            var chain := [ChainBlock(Block(0, hash, [], []), Some(view), false)];
            && ByHeight(chain) && ServesFake(env, 0) && ServesChain(p, env, Final(env, d, chain), chain, [[]])
            && !Reconciles(p, env, d, chain, [[]], DESOBalance, pk, 0)
  {
    var env, d := Env(true, Some(1)), SnapshotData([], [], [], []);
    var view := View(map[KeyHolder(pk) := balance], [], [], [], []);
    var chain := [ChainBlock(Block(0, hash, [], []), Some(view), false)];
    hide AccountOf, BalanceAt, Final;
    EarlyViewAnswers(env, d, chain, pk, balance);
    NothingServed(IdOf(AccountOf(p, DESOBalance, KeyHolder(pk))));
  }

  lemma EarlyViewAnswers(env: Env, d: SnapshotData, chain: seq<ChainBlock>, pk: PublicKey, balance: UInt64)
    requires d == SnapshotData([], [], [], []) && |chain| == 1 && !chain[0].hasServer && chain[0].block.height == 0
    requires chain[0].view == Some(View(map[KeyHolder(pk) := balance], [], [], [], []))
    ensures BalanceAt(Final(env, d, chain).snaps, DESOBalance, KeyHolder(pk), 0) == balance
  {
    var c, e := CommitOf(chain[0]), Snap(DESOBalance, KeyHolder(pk), 0, balance);
    hide Start, CommitSnaps, BalanceAt;
    assert Commits(chain) == [c];
    OneCommit(env, Start(env, d), c);
    CommitSnapsOf(0, c.view.value, DESOBalance, KeyHolder(pk));
    NothingBooted(env, d, DESOBalance, KeyHolder(pk));
    assert Newest(Final(env, d, chain).snaps, DESOBalance, KeyHolder(pk), 0, e);
    BalanceOfNewest(Final(env, d, chain).snaps, DESOBalance, KeyHolder(pk), 0, e);
  }

  lemma OneCommit(env: Env, s: State, c: Commit)
    ensures AfterCommits(env, s, [c]) == AfterCommit(env, s, c)
  {
    assert [c][..0] == [];
  }

  lemma NothingServed(id: PartialId)
    ensures Total([[]], 1, id) == 0
  {
    assert BlockNet([], id) == 0;
    assert Total([[]], 0, id) == 0;
  }

  lemma NothingBooted(env: Env, d: SnapshotData, t: BalanceType, holder: Holder)
    requires d == SnapshotData([], [], [], [])
    ensures Start(env, d).snaps == {}
  {
  }
}
