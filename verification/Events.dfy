/** deso/events.go: what one snapshot-completed event and one block-committed
    event do to the index, and what a whole run of them leaves behind. */
module Events {
  import opened ByteStrings
  import opened Keys
  import opened IndexState
  import opened RosettaIndex
  import opened Partition

  /** What the code reads of the node's settings: whether the sync type is a
      hypersync one, and the first snapshot height, if any. */
  datatype Env = Env(hyperSync: bool, firstSnapshot: Option<UInt64>)

  predicate HasFirstSnapshot(env: Env) {
    env.firstSnapshot.Some? && env.firstSnapshot.value != 0
  }

  /** The commit handler ignores this commit: never while the server is not set. */
  predicate SkipsCommit(env: Env, c: Commit) {
    c.hasServer && env.hyperSync && HasFirstSnapshot(env) && c.height <= env.firstSnapshot.value
  }

  // ---------------------------------------------------------------- block commits

  datatype Profile = Profile(pk: PublicKey, deleted: bool, locked: UInt64)

  /** A public key the view maps to a PKID, with the profile the view finds for it. */
  datatype Touched = Touched(pk: PublicKey, profile: Option<Profile>)

  /** Amounts that the chain keeps in 256 bits are unbounded here. */
  datatype Validator = Validator(pkid: PublicKey, deleted: bool, stake: nat)

  datatype LockedEntry =
    LockedEntry(staker: PublicKey, validator: PublicKey, epoch: UInt64, deleted: bool, amount: nat)

  /** The parts of a block's view that the handler reads. A map that is ranged
      over is given as a sequence: the order it was ranged in. */
  datatype View = View(deso: BalanceMap, touched: seq<Touched>, profiles: seq<Profile>,
                       validators: seq<Validator>, lockedStakes: seq<LockedEntry>)

  /** A commit event, and whether the node's server was set when it was handled. */
  datatype Commit = Commit(height: UInt64, view: Option<View>, hasServer: bool)

  function LockedNanos(p: Option<Profile>): UInt64 {
    if p.Some? && !p.value.deleted then p.value.locked else 0
  }

  function TouchedEntries(ts: seq<Touched>): seq<Entry> {
    if ts == [] then []
    else TouchedEntries(ts[..|ts| - 1]) + [Entry(KeyHolder(ts[|ts| - 1].pk), LockedNanos(ts[|ts| - 1].profile))]
  }

  function ProfileEntries(ps: seq<Profile>): seq<Entry> {
    if ps == [] then []
    else ProfileEntries(ps[..|ps| - 1]) + [Entry(KeyHolder(ps[|ps| - 1].pk), LockedNanos(Some(ps[|ps| - 1])))]
  }

  /** A live stake that does not fit in 64 bits is skipped; a deleted one is written as zero. */
  function ValidatorEntries(vs: seq<Validator>): seq<Entry> {
    if vs == [] then []
    else
      var v := vs[|vs| - 1];
      ValidatorEntries(vs[..|vs| - 1])
      + if v.deleted then [Entry(KeyHolder(v.pkid), 0)]
        else if v.stake < TWO_64 then [Entry(KeyHolder(v.pkid), v.stake)]
        else []
  }

  function LockedEntries(ls: seq<LockedEntry>): seq<Entry> {
    if ls == [] then []
    else
      var l := ls[|ls| - 1];
      LockedEntries(ls[..|ls| - 1])
      + if l.deleted then [Entry(LockedHolder(l.staker, l.validator, l.epoch), 0)]
        else if l.amount < TWO_64 then [Entry(LockedHolder(l.staker, l.validator, l.epoch), l.amount)]
        else []
  }

  /** The balances of one type that a block changed. */
  function Delta(v: View, t: BalanceType): BalanceMap {
    match t
    case DESOBalance => v.deso
    case CreatorCoinLocked => MapOf(TouchedEntries(v.touched) + ProfileEntries(v.profiles))
    case ValidatorStaked => MapOf(ValidatorEntries(v.validators))
    case LockedStake => MapOf(LockedEntries(v.lockedStakes))
  }

  ghost function CommitSnaps(height: UInt64, v: View): set<Snap> {
    MapSnaps(DESOBalance, height, Delta(v, DESOBalance)) + MapSnaps(CreatorCoinLocked, height, Delta(v, CreatorCoinLocked))
    + MapSnaps(ValidatorStaked, height, Delta(v, ValidatorStaked)) + MapSnaps(LockedStake, height, Delta(v, LockedStake))
  }

  /** A commit takes effect unless it is at or below the first snapshot or carries no view. */
  predicate Effective(env: Env, c: Commit) {
    !SkipsCommit(env, c) && c.view.Some?
  }

  ghost function AfterCommit(env: Env, s: State, c: Commit): State {
    if Effective(env, c) then State(s.snaps + CommitSnaps(c.height, c.view.value), s.blocks) else s
  }

  ghost function AfterCommits(env: Env, s: State, cs: seq<Commit>): State {
    if cs == [] then s else AfterCommit(env, AfterCommits(env, s, cs[..|cs| - 1]), cs[|cs| - 1])
  }

  // ---------------------------------------------------------------- ranging over the view's maps

  /** Entries that name the same holder agree on its balance. */
  ghost predicate Agree(es: seq<Entry>) {
    forall i, j :: 0 <= i < |es| && 0 <= j < |es| && es[i].holder == es[j].holder ==> es[i].balance == es[j].balance
  }

  lemma {:induction false} MapOfConcat(a: seq<Entry>, b: seq<Entry>)
    ensures MapOf(a + b) == MapOf(a) + MapOf(b)
  {
    if b == [] {
      assert a + b == a;
    } else {
      assert (a + b)[..|a + b| - 1] == a + b[..|b| - 1];
      MapOfConcat(a, b[..|b| - 1]);
    }
  }

  lemma {:induction false} MapOfAgreeing(es: seq<Entry>, i: nat)
    requires Agree(es) && i < |es|
    ensures es[i].holder in MapOf(es) && MapOf(es)[es[i].holder] == es[i].balance
  {
    if es[i].holder != es[|es| - 1].holder {
      MapOfAgreeing(es[..|es| - 1], i);
    }
  }

  lemma AgreeingMaps(es: seq<Entry>, fs: seq<Entry>)
    requires multiset(fs) == multiset(es) && Agree(es)
    ensures MapOf(fs) == MapOf(es)
  {
    SameElements(es, fs);
    SameHolders(es, fs);
    assert Agree(fs);
    MapOfKeys(es);
    MapOfKeys(fs);
    hide MapOf, HoldersOf;
    forall k | k in MapOf(es) ensures MapOf(fs)[k] == MapOf(es)[k] {
      SameValue(es, fs, k);
    }
  }

  lemma SameElements(es: seq<Entry>, fs: seq<Entry>)
    requires multiset(fs) == multiset(es)
    ensures forall x :: x in fs <==> x in es
    ensures forall i :: 0 <= i < |fs| ==> fs[i] in es
    ensures forall i :: 0 <= i < |es| ==> es[i] in fs
  {
    forall x ensures x in fs <==> x in es {
      assert x in multiset(fs) <==> x in multiset(es);
    }
  }

  lemma SameHolders(es: seq<Entry>, fs: seq<Entry>)
    requires multiset(fs) == multiset(es)
    ensures HoldersOf(fs) == HoldersOf(es)
  {
    SameElements(es, fs);
  }

  lemma SameValue(es: seq<Entry>, fs: seq<Entry>, k: Holder)
    requires multiset(fs) == multiset(es) && Agree(es) && Agree(fs) && k in MapOf(es) && k in MapOf(fs)
    ensures MapOf(fs)[k] == MapOf(es)[k]
  {
    SameElements(es, fs);
    MapOfKeys(es);
    hide MapOf, Agree;
    var i :| 0 <= i < |es| && es[i].holder == k;
    var j :| 0 <= j < |fs| && fs[j] == es[i];
    MapOfAgreeing(es, i);
    MapOfAgreeing(fs, j);
  }

  /** The order that ends with entry i, in which entry i wins. */
  lemma EndingWith(es: seq<Entry>, i: nat) returns (fs: seq<Entry>)
    requires i < |es|
    ensures multiset(fs) == multiset(es)
    ensures es[i].holder in MapOf(fs) && MapOf(fs)[es[i].holder] == es[i].balance
  {
    fs := es[..i] + es[i + 1..] + [es[i]];
    assert es == es[..i] + [es[i]] + es[i + 1..];
    assert fs[..|fs| - 1] == es[..i] + es[i + 1..];
  }

  /** What a commit records does not depend on the order in which a map of the
      view is ranged over, exactly when the entries that name one holder agree;
      base is what earlier loops put into the same map. Two profiles of one public
      key, one of them deleted, would not agree. */
  lemma RangeOrderIrrelevantExactlyWhen(base: seq<Entry>, es: seq<Entry>)
    ensures (forall fs :: multiset(fs) == multiset(es) ==> MapOf(base + fs) == MapOf(base + es)) <==> Agree(es)
  {
    MapOfConcat(base, es);
    if Agree(es) {
      forall fs | multiset(fs) == multiset(es) ensures MapOf(base + fs) == MapOf(base + es) {
        AgreeingMaps(es, fs);
        MapOfConcat(base, fs);
      }
    } else {
      var i, j :| 0 <= i < |es| && 0 <= j < |es| && es[i].holder == es[j].holder && es[i].balance != es[j].balance;
      var f := EndingWith(es, i);
      var g := EndingWith(es, j);
      MapOfConcat(base, f);
      MapOfConcat(base, g);
      assert MapOf(base + f)[es[i].holder] != MapOf(base + g)[es[i].holder];
    }
  }

  // ---------------------------------------------------------------- snapshots

  /** A raw record of the chain database: what it decodes to, if it is well formed. */
  datatype Record = Good(entry: Entry) | Malformed

  datatype SnapshotData = SnapshotData(deso: seq<Record>, creatorCoin: seq<Record>,
                                       validators: seq<Record>, lockedStake: seq<Record>)
  {
    function Of(t: BalanceType): seq<Record> {
      match t
      case DESOBalance => deso
      case CreatorCoinLocked => creatorCoin
      case ValidatorStaked => validators
      case LockedStake => lockedStake
    }

    /** The Go types of the four loops: each record's key is of the right kind. */
    ghost predicate Typed() {
      forall t :: RecordsFit(t, Of(t))
    }
  }

  ghost predicate RecordsFit(t: BalanceType, rs: seq<Record>) {
    forall i :: 0 <= i < |rs| && rs[i].Good? ==> Fits(t, rs[i].entry.holder)
  }

  predicate AllGood(rs: seq<Record>) {
    forall i :: 0 <= i < |rs| ==> rs[i].Good?
  }

  const NOBODY: Entry := Entry(KeyHolder(seq(33, i => 0)), 0)

  function EntriesOf(rs: seq<Record>): (es: seq<Entry>)
    ensures |es| == |rs|
  {
    seq(|rs|, i requires 0 <= i < |rs| => if rs[i].Good? then rs[i].entry else NOBODY)
  }

  /** One malformed record and nothing of that balance type is written. */
  ghost function AfterBoot(s: State, t: BalanceType, rs: seq<Record>, first: UInt64): State
    requires first > 0
  {
    if AllGood(rs) then Merge(s, Boot(t, EntriesOf(rs), first)) else s
  }

  ghost function AfterSnapshot(env: Env, s: State, d: SnapshotData): State {
    if !HasFirstSnapshot(env) then s
    else
      var first := env.firstSnapshot.value;
      AfterBoot(AfterBoot(AfterBoot(AfterBoot(s, DESOBalance, d.deso, first), CreatorCoinLocked, d.creatorCoin, first),
                          ValidatorStaked, d.validators, first), LockedStake, d.lockedStake, first)
  }

  // ---------------------------------------------------------------- history of a run

  ghost predicate Increasing(cs: seq<Commit>) {
    forall i, j :: 0 <= i < j < |cs| ==> cs[i].height < cs[j].height
  }

  /** The balance a replay of the commits arrives at: the last view at or below h
      that mentions the holder, else the base. */
  function Replay(env: Env, cs: seq<Commit>, t: BalanceType, holder: Holder, h: nat, base: nat): nat {
    if cs == [] then base
    else
      var c := cs[|cs| - 1];
      if Effective(env, c) && c.height <= h && holder in Delta(c.view.value, t)
      then Delta(c.view.value, t)[holder]
      else Replay(env, cs[..|cs| - 1], t, holder, h, base)
  }

  ghost predicate SnapsBelow(s: State, height: nat) {
    forall e :: e in s.snaps ==> e.height < height
  }

  lemma CommitSnapsOf(height: UInt64, v: View, t: BalanceType, holder: Holder)
    ensures forall e :: e in CommitSnaps(height, v) && e.t == t && e.holder == holder
                        <==> holder in Delta(v, t) && e == Snap(t, holder, height, Delta(v, t)[holder])
  {
  }

  lemma CommitSnapsHeight(height: UInt64, v: View)
    ensures forall e :: e in CommitSnaps(height, v) ==> e.height == height
  {
  }

  /** One commit above everything in the index: earlier heights keep their
      answers, later ones answer from the view where it mentions the holder. */
  lemma CommitStep(env: Env, s: State, c: Commit, t: BalanceType, holder: Holder, h: nat)
    requires Effective(env, c) ==> SnapsBelow(s, c.height)
    ensures BalanceAt(AfterCommit(env, s, c).snaps, t, holder, h) ==
            if Effective(env, c) && c.height <= h && holder in Delta(c.view.value, t)
            then Delta(c.view.value, t)[holder]
            else BalanceAt(s.snaps, t, holder, h)
  {
    if Effective(env, c) {
      var v, after := c.view.value, AfterCommit(env, s, c).snaps;
      CommitSnapsOf(c.height, v, t, holder);
      if c.height <= h && holder in Delta(v, t) {
        var e := Snap(t, holder, c.height, Delta(v, t)[holder]);
        assert e in CommitSnaps(c.height, v);
        assert Newest(after, t, holder, h, e);
        BalanceOfNewest(after, t, holder, h, e);
      } else {
        BalanceLocal(after, s.snaps, t, holder, h, h);
      }
    }
  }

  lemma {:induction false} SnapsStayBelow(env: Env, s: State, cs: seq<Commit>, height: nat)
    requires SnapsBelow(s, height)
    requires forall i :: 0 <= i < |cs| ==> cs[i].height < height
    ensures SnapsBelow(AfterCommits(env, s, cs), height)
  {
    if cs != [] {
      var c := cs[|cs| - 1];
      SnapsStayBelow(env, s, cs[..|cs| - 1], height);
      if Effective(env, c) {
        CommitSnapsHeight(c.height, c.view.value);
      }
    }
  }

  /** For every run of commits at increasing heights above what the index already
      holds, the lookup at every height is the replay of the views. */
  lemma {:induction false} RunIsReplay(env: Env, s: State, cs: seq<Commit>, t: BalanceType, holder: Holder, h: nat)
    requires Increasing(cs)
    requires forall i :: 0 <= i < |cs| && Effective(env, cs[i]) ==> SnapsBelow(s, cs[i].height)
    ensures BalanceAt(AfterCommits(env, s, cs).snaps, t, holder, h)
            == Replay(env, cs, t, holder, h, BalanceAt(s.snaps, t, holder, h))
  {
    if cs != [] {
      var init, c := cs[..|cs| - 1], cs[|cs| - 1];
      RunIsReplay(env, s, init, t, holder, h);
      if Effective(env, c) {
        SnapsStayBelow(env, s, init, c.height);
      }
      CommitStep(env, AfterCommits(env, s, init), c, t, holder, h);
    }
  }

  /** No later event changes the answer at an earlier height, and none at or
      below the first snapshot changes any answer. */
  lemma {:induction false} PastIsStable(env: Env, s: State, cs: seq<Commit>, n: nat, t: BalanceType, holder: Holder, h: nat)
    requires n <= |cs| && Increasing(cs)
    requires forall i :: n <= i < |cs| ==> h < cs[i].height || SkipsCommit(env, cs[i])
    requires forall i :: 0 <= i < |cs| && Effective(env, cs[i]) ==> SnapsBelow(s, cs[i].height)
    ensures BalanceAt(AfterCommits(env, s, cs).snaps, t, holder, h)
            == BalanceAt(AfterCommits(env, s, cs[..n]).snaps, t, holder, h)
    decreases |cs|
  {
    if n == |cs| {
      assert cs[..n] == cs;
    } else {
      var init, c := cs[..|cs| - 1], cs[|cs| - 1];
      PastIsStable(env, s, init, n, t, holder, h);
      assert init[..n] == cs[..n];
      if Effective(env, c) {
        SnapsStayBelow(env, s, init, c.height);
      }
      CommitStep(env, AfterCommits(env, s, init), c, t, holder, h);
    }
  }

  // ---------------------------------------------------------------- a whole run with a snapshot

  /** The part of a state that concerns one balance type. */
  ghost function OfType(s: State, t: BalanceType): State {
    State(set e | e in s.snaps && e.t == t, map id | id in s.blocks && id.t == t :: s.blocks[id])
  }

  lemma OnlyMerge(s: State, b: State, t: BalanceType)
    ensures OfType(Merge(s, b), t) == Merge(OfType(s, t), OfType(b, t))
  {
    OnlyMergeBlocks(s.blocks, b.blocks, t);
    var l, r := OfType(Merge(s, b), t), Merge(OfType(s, t), OfType(b, t));
    assert l.snaps == r.snaps;
  }

  lemma OnlyMergeBlocks(a: map<BlockId, BalanceMap>, b: map<BlockId, BalanceMap>, t: BalanceType)
    ensures (map id | id in a + b && id.t == t :: (a + b)[id])
            == (map id | id in a && id.t == t :: a[id]) + (map id | id in b && id.t == t :: b[id])
  {
  }

  lemma BootIsOfItsType(u: BalanceType, es: seq<Entry>, first: UInt64)
    requires first > 0
    ensures forall e :: e in Boot(u, es, first).snaps ==> e.t == u && e.height <= first
    ensures forall id :: id in Boot(u, es, first).blocks ==> id.t == u
  {
  }

  lemma OnlyBoot(u: BalanceType, es: seq<Entry>, first: UInt64, t: BalanceType)
    requires first > 0
    ensures OfType(Boot(u, es, first), t) == if u == t then Boot(u, es, first) else EMPTY
    ensures SnapsBelow(Boot(u, es, first), first + 1)
  {
    BootIsOfItsType(u, es, first);
    OnlyOfOneType(Boot(u, es, first), u, t);
  }

  lemma OnlyOfOneType(b: State, u: BalanceType, t: BalanceType)
    requires forall e :: e in b.snaps ==> e.t == u
    requires forall id :: id in b.blocks ==> id.t == u
    ensures OfType(b, t) == if u == t then b else EMPTY
  {
    assert OfType(b, t).snaps == if u == t then b.snaps else {};
    assert OfType(b, t).blocks == if u == t then b.blocks else map[];
  }

  lemma MergeEmpty(s: State)
    ensures Merge(s, EMPTY) == s && Merge(EMPTY, s) == s
  {
  }

  lemma BootTouchesOnly(s: State, u: BalanceType, rs: seq<Record>, first: UInt64, t: BalanceType)
    requires first > 0
    ensures u != t ==> OfType(AfterBoot(s, u, rs, first), t) == OfType(s, t)
    ensures u == t && OfType(s, t) == EMPTY ==> OfType(AfterBoot(s, u, rs, first), t) == AfterBoot(EMPTY, t, rs, first)
    ensures SnapsBelow(s, first + 1) ==> SnapsBelow(AfterBoot(s, u, rs, first), first + 1)
  {
    if AllGood(rs) {
      OnlyMerge(s, Boot(u, EntriesOf(rs), first), t);
      OnlyBoot(u, EntriesOf(rs), first, t);
      MergeEmpty(OfType(s, t));
    }
  }

  /** The four bootstraps of one snapshot keep out of each other's way. */
  lemma SnapshotByType(env: Env, d: SnapshotData, t: BalanceType)
    requires HasFirstSnapshot(env)
    ensures OfType(AfterSnapshot(env, EMPTY, d), t) == AfterBoot(EMPTY, t, d.Of(t), env.firstSnapshot.value)
    ensures SnapsBelow(AfterSnapshot(env, EMPTY, d), env.firstSnapshot.value + 1)
  {
    var first := env.firstSnapshot.value;
    assert OfType(EMPTY, t) == EMPTY;
    var s1 := AfterBoot(EMPTY, DESOBalance, d.deso, first);
    BootTouchesOnly(EMPTY, DESOBalance, d.deso, first, t);
    var s2 := AfterBoot(s1, CreatorCoinLocked, d.creatorCoin, first);
    BootTouchesOnly(s1, CreatorCoinLocked, d.creatorCoin, first, t);
    var s3 := AfterBoot(s2, ValidatorStaked, d.validators, first);
    BootTouchesOnly(s2, ValidatorStaked, d.validators, first, t);
    BootTouchesOnly(s3, LockedStake, d.lockedStake, first, t);
  }

  lemma OnlyAnswers(s: State, t: BalanceType, holder: Holder, h: UInt64)
    ensures BalanceAt(OfType(s, t).snaps, t, holder, h) == BalanceAt(s.snaps, t, holder, h)
    ensures CreditedUpTo(OfType(s, t), t, holder, h) == CreditedUpTo(s, t, holder, h)
  {
    BalanceLocal(OfType(s, t).snaps, s.snaps, t, holder, h, h);
    OnlyCredits(s, t, holder, h);
  }

  lemma {:induction false} OnlyCredits(s: State, t: BalanceType, holder: Holder, h: UInt64)
    ensures CreditedUpTo(OfType(s, t), t, holder, h) == CreditedUpTo(s, t, holder, h)
  {
    assert BlockMap(OfType(s, t), h, t) == BlockMap(s, h, t);
    if h > 0 {
      OnlyCredits(s, t, holder, h - 1);
    }
  }

  /** After one snapshot on an empty index, for every balance type and holder and
      every height up to the first snapshot, the synthetic blocks add up to the
      index's answer; at the snapshot height that is the snapshot's balance. */
  lemma SnapshotReconciles(env: Env, d: SnapshotData, t: BalanceType, holder: Holder, h: UInt64)
    requires HasFirstSnapshot(env) && h <= env.firstSnapshot.value
    requires AllGood(d.Of(t)) ==> Distinct(EntriesOf(d.Of(t)))
    ensures var s, rs := AfterSnapshot(env, EMPTY, d), d.Of(t);
            && CreditedUpTo(s, t, holder, h) == BalanceAt(s.snaps, t, holder, h)
            && (!AllGood(rs) ==> BalanceAt(s.snaps, t, holder, h) == 0)
            && (h == env.firstSnapshot.value && AllGood(rs) ==>
                  forall i :: 0 <= i < |rs| && rs[i].entry.holder == holder ==>
                    BalanceAt(s.snaps, t, holder, h) == rs[i].entry.balance)
  {
    var first, s, rs := env.firstSnapshot.value, AfterSnapshot(env, EMPTY, d), d.Of(t);
    SnapshotByType(env, d, t);
    OnlyAnswers(s, t, holder, h);
    if AllGood(rs) {
      var es := EntriesOf(rs);
      assert forall i :: 0 <= i < |rs| ==> es[i] == rs[i].entry;
      hide EntriesOf;
      MergeEmpty(Boot(t, es, first));
      BootstrapReconciles(t, es, first, holder, h);
    } else {
      EmptyAnswers(t, holder, h);
    }
  }

  /** Each kind of record of the chain database is indexed under its own balance
      type, at its own balance, if no record of that kind is malformed. */
  lemma SnapshotRecorded(env: Env, d: SnapshotData, holder: Holder, x: UInt64)
    requires HasFirstSnapshot(env)
    requires forall t :: AllGood(d.Of(t)) ==> Distinct(EntriesOf(d.Of(t)))
    ensures var snaps, h := AfterSnapshot(env, EMPTY, d).snaps, env.firstSnapshot.value;
            && (Malformed !in d.deso && Good(Entry(holder, x)) in d.deso ==> BalanceAt(snaps, DESOBalance, holder, h) == x)
            && (Malformed !in d.creatorCoin && Good(Entry(holder, x)) in d.creatorCoin ==>
                  BalanceAt(snaps, CreatorCoinLocked, holder, h) == x)
            && (Malformed !in d.validators && Good(Entry(holder, x)) in d.validators ==>
                  BalanceAt(snaps, ValidatorStaked, holder, h) == x)
            && (Malformed !in d.lockedStake && Good(Entry(holder, x)) in d.lockedStake ==>
                  BalanceAt(snaps, LockedStake, holder, h) == x)
  {
    hide AfterSnapshot, EntriesOf, BalanceAt, CreditedUpTo, Distinct;
    SnapshotReconciles(env, d, DESOBalance, holder, env.firstSnapshot.value);
    SnapshotReconciles(env, d, CreatorCoinLocked, holder, env.firstSnapshot.value);
    SnapshotReconciles(env, d, ValidatorStaked, holder, env.firstSnapshot.value);
    SnapshotReconciles(env, d, LockedStake, holder, env.firstSnapshot.value);
  }

  lemma {:induction false} EmptyAnswers(t: BalanceType, holder: Holder, h: UInt64)
    ensures CreditedUpTo(EMPTY, t, holder, h) == 0 && BalanceAt(EMPTY.snaps, t, holder, h) == 0
  {
    if h > 0 {
      EmptyAnswers(t, holder, h - 1);
    }
  }

  /** Commits never touch the block maps. */
  lemma {:induction false} CommitsKeepBlocks(env: Env, s: State, cs: seq<Commit>)
    ensures AfterCommits(env, s, cs).blocks == s.blocks
  {
    if cs != [] {
      CommitsKeepBlocks(env, s, cs[..|cs| - 1]);
    }
  }

  // ---------------------------------------------------------------- several writes at one height

  ghost function SnapsOf(ws: seq<Snap>): set<Snap> {
    set i | 0 <= i < |ws| :: ws[i]
  }

  /** The balance written last, in the order of the writes, at or below h. */
  function LastWritten(ws: seq<Snap>, t: BalanceType, holder: Holder, h: nat): nat {
    if ws == [] then 0
    else if About(ws[|ws| - 1], t, holder, h) then ws[|ws| - 1].balance
    else LastWritten(ws[..|ws| - 1], t, holder, h)
  }

  predicate Same(e: Snap, t: BalanceType, holder: Holder) {
    e.t == t && e.holder == holder
  }

  ghost predicate Chronological(ws: seq<Snap>, t: BalanceType, holder: Holder) {
    forall i, j :: (0 <= i < j < |ws| && Same(ws[i], t, holder) && Same(ws[j], t, holder))
                   ==> ws[i].height <= ws[j].height
  }

  /** A second write at the same height never lowers the balance. */
  ghost predicate NeverLowered(ws: seq<Snap>, t: BalanceType, holder: Holder) {
    forall i, j :: (0 <= i < j < |ws| && Same(ws[i], t, holder) && Same(ws[j], t, holder))
                   ==> (ws[i].height == ws[j].height ==> ws[i].balance <= ws[j].balance)
  }

  /** The seek answers with the last write at every moment of a chronological
      history exactly when no write lowers a balance at its own height. */
  lemma SeekIsLastWriteExactlyWhen(ws: seq<Snap>, t: BalanceType, holder: Holder)
    requires Chronological(ws, t, holder)
    ensures (forall n, h: nat :: 0 <= n <= |ws| ==>
               BalanceAt(SnapsOf(ws[..n]), t, holder, h) == LastWritten(ws[..n], t, holder, h))
            <==> NeverLowered(ws, t, holder)
  {
    hide BalanceAt, SnapsOf, LastWritten, Chronological, Same;
    if NeverLowered(ws, t, holder) {
      forall n, h: nat | 0 <= n <= |ws|
        ensures BalanceAt(SnapsOf(ws[..n]), t, holder, h) == LastWritten(ws[..n], t, holder, h)
      {
        PrefixKeeps(ws, n, t, holder);
        LastWriteWins(ws[..n], t, holder, h);
      }
    } else {
      var i, j :| 0 <= i < j < |ws| && Same(ws[i], t, holder) && Same(ws[j], t, holder)
                  && ws[i].height == ws[j].height && ws[i].balance > ws[j].balance;
      LargerWins(ws, i, j, t, holder);
    }
  }

  lemma PrefixKeeps(ws: seq<Snap>, n: nat, t: BalanceType, holder: Holder)
    requires n <= |ws| && Chronological(ws, t, holder) && NeverLowered(ws, t, holder)
    ensures Chronological(ws[..n], t, holder) && NeverLowered(ws[..n], t, holder)
  {
    hide Same;
  }

  lemma {:induction false} LastWriteWins(ws: seq<Snap>, t: BalanceType, holder: Holder, h: nat)
    requires Chronological(ws, t, holder) && NeverLowered(ws, t, holder)
    ensures BalanceAt(SnapsOf(ws), t, holder, h) == LastWritten(ws, t, holder, h)
  {
    hide SnapsOf, BalanceAt, Newest, Chronological, NeverLowered;
    if ws == [] {
      NothingWritten(t, holder, h);
    } else {
      var init, w := ws[..|ws| - 1], ws[|ws| - 1];
      SnapsSnoc(init, w);
      assert ws == init + [w];
      if About(w, t, holder, h) {
        WriteIsNewest(ws, t, holder, h);
        BalanceOfNewest(SnapsOf(ws), t, holder, h, w);
      } else {
        PrefixKeeps(ws, |ws| - 1, t, holder);
        LastWriteWins(init, t, holder, h);
        BalanceLocal(SnapsOf(ws), SnapsOf(init), t, holder, h, h);
      }
    }
  }

  lemma NothingWritten(t: BalanceType, holder: Holder, h: nat)
    ensures BalanceAt(SnapsOf([]), t, holder, h) == 0
  {
  }

  lemma SnapsSnoc(init: seq<Snap>, w: Snap)
    ensures SnapsOf(init + [w]) == SnapsOf(init) + {w}
  {
    var ws := init + [w];
    forall e | e in SnapsOf(init) + {w} ensures e in SnapsOf(ws) {
      assert ws[|init|] == w;
      if e in SnapsOf(init) {
        var i :| 0 <= i < |init| && init[i] == e;
        assert ws[i] == e;
      }
    }
  }

  lemma WriteIsNewest(ws: seq<Snap>, t: BalanceType, holder: Holder, h: nat)
    requires Chronological(ws, t, holder) && NeverLowered(ws, t, holder) && ws != []
    ensures About(ws[|ws| - 1], t, holder, h) ==> Newest(SnapsOf(ws), t, holder, h, ws[|ws| - 1])
  {
  }

  lemma LargerWins(ws: seq<Snap>, i: nat, j: nat, t: BalanceType, holder: Holder)
    requires i < j < |ws| && Same(ws[i], t, holder) && Same(ws[j], t, holder)
    requires ws[i].height == ws[j].height && ws[i].balance > ws[j].balance
    ensures BalanceAt(SnapsOf(ws[..j + 1]), t, holder, ws[j].height) != LastWritten(ws[..j + 1], t, holder, ws[j].height)
  {
    var p, h := ws[..j + 1], ws[j].height;
    assert p[i] == ws[i] && p[j] == ws[j];
    assert p[i] in SnapsOf(p);
    var n := NewestExists(SnapsOf(p), t, holder, h, ws[i]);
    BalanceOfNewest(SnapsOf(p), t, holder, h, n);
  }
}
