/** What a committed block leaves in the index, read off its view: which of the
    entries ranged over decides a balance, and what it decides. */
module Views {
  import opened ByteStrings
  import opened Keys
  import opened IndexState
  import opened Partition
  import opened Events

  /** The commit is handled: it has a view, and no server tells it that synthetic
      blocks stand for its height. */
  predicate Handled(env: Env, c: Commit) {
    && c.view.Some?
    && !(c.hasServer && env.hyperSync && env.firstSnapshot.Some? && env.firstSnapshot.value != 0
         && c.height <= env.firstSnapshot.value)
  }

  lemma HandledIsEffective(env: Env, c: Commit)
    ensures Handled(env, c) <==> Effective(env, c)
  {
  }

  /** A commit that is not handled changes nothing, and none changes the past. */
  lemma Unchanged(env: Env, s: State, c: Commit, t: BalanceType, holder: Holder, h: nat)
    requires Handled(env, c) ==> SnapsBelow(s, c.height) && h < c.height
    ensures BalanceAt(AfterCommit(env, s, c).snaps, t, holder, h) == BalanceAt(s.snaps, t, holder, h)
  {
    CommitStep(env, s, c, t, holder, h);
  }

  /** DESO balances are the view's own, and other keys keep theirs. */
  lemma DesoRecorded(env: Env, s: State, c: Commit, pk: PublicKey, h: nat)
    requires Handled(env, c) && SnapsBelow(s, c.height) && c.height <= h
    ensures var deso := c.view.value.deso;
            BalanceAt(AfterCommit(env, s, c).snaps, DESOBalance, KeyHolder(pk), h) ==
            if KeyHolder(pk) in deso then deso[KeyHolder(pk)] else BalanceAt(s.snaps, DESOBalance, KeyHolder(pk), h)
  {
    CommitStep(env, s, c, DESOBalance, KeyHolder(pk), h);
  }

  // ---------------------------------------------------------------- stake

  lemma StakeSnoc(vs: seq<Validator>)
    requires vs != []
    ensures var v, m := vs[|vs| - 1], MapOf(ValidatorEntries(vs[..|vs| - 1]));
            MapOf(ValidatorEntries(vs)) ==
            if v.deleted then m[KeyHolder(v.pkid) := 0]
            else if v.stake < TWO_64 then m[KeyHolder(v.pkid) := v.stake]
            else m
  {
    var v, es := vs[|vs| - 1], ValidatorEntries(vs[..|vs| - 1]);
    hide MapOf;
    if v.deleted || v.stake < TWO_64 {
      EntriesSnoc(es, Entry(KeyHolder(v.pkid), if v.deleted then 0 else v.stake));
    } else {
      assert es + [] == es;
    }
  }

  /** An entry that counts: deleted, or live with a 64-bit stake. */
  lemma {:induction false} StakeDecided(vs: seq<Validator>, pk: PublicKey, i: nat)
    requires i < |vs| && vs[i].pkid == pk && (vs[i].deleted || vs[i].stake < TWO_64)
    requires forall j :: i < j < |vs| && vs[j].pkid == pk ==> !vs[j].deleted && vs[j].stake >= TWO_64
    ensures KeyHolder(pk) in MapOf(ValidatorEntries(vs))
    ensures MapOf(ValidatorEntries(vs))[KeyHolder(pk)] == if vs[i].deleted then 0 else vs[i].stake
  {
    StakeSnoc(vs);
    hide MapOf, ValidatorEntries;
    if i < |vs| - 1 {
      StakeDecided(vs[..|vs| - 1], pk, i);
    }
  }

  lemma {:induction false} StakeUnnamed(vs: seq<Validator>, pk: PublicKey)
    requires forall i :: 0 <= i < |vs| && vs[i].pkid == pk ==> !vs[i].deleted && vs[i].stake >= TWO_64
    ensures KeyHolder(pk) !in MapOf(ValidatorEntries(vs))
  {
    if vs != [] {
      StakeSnoc(vs);
      StakeUnnamed(vs[..|vs| - 1], pk);
    }
  }

  /** The stake of a validator after a commit is that of the last entry that counts. */
  lemma StakeRecorded(env: Env, s: State, c: Commit, pk: PublicKey, i: nat, h: nat)
    requires Handled(env, c) && SnapsBelow(s, c.height) && c.height <= h
    requires var vs := c.view.value.validators;
             && i < |vs| && vs[i].pkid == pk && (vs[i].deleted || vs[i].stake < TWO_64)
             && forall j :: i < j < |vs| && vs[j].pkid == pk ==> !vs[j].deleted && vs[j].stake >= TWO_64
    ensures BalanceAt(AfterCommit(env, s, c).snaps, ValidatorStaked, KeyHolder(pk), h)
            == if c.view.value.validators[i].deleted then 0 else c.view.value.validators[i].stake
  {
    hide MapOf, BalanceAt, AfterCommit;
    CommitStep(env, s, c, ValidatorStaked, KeyHolder(pk), h);
    StakeDecided(c.view.value.validators, pk, i);
  }

  /** Without one it stays as it was. */
  lemma StakeKept(env: Env, s: State, c: Commit, pk: PublicKey, h: nat)
    requires Handled(env, c) && SnapsBelow(s, c.height) && c.height <= h
    requires var vs := c.view.value.validators;
             forall i :: 0 <= i < |vs| && vs[i].pkid == pk ==> !vs[i].deleted && vs[i].stake >= TWO_64
    ensures BalanceAt(AfterCommit(env, s, c).snaps, ValidatorStaked, KeyHolder(pk), h)
            == BalanceAt(s.snaps, ValidatorStaked, KeyHolder(pk), h)
  {
    hide MapOf, BalanceAt, AfterCommit;
    CommitStep(env, s, c, ValidatorStaked, KeyHolder(pk), h);
    StakeUnnamed(c.view.value.validators, pk);
  }

  // ---------------------------------------------------------------- locked stake

  lemma LockedSnoc(ls: seq<LockedEntry>)
    requires ls != []
    ensures var l, m := ls[|ls| - 1], MapOf(LockedEntries(ls[..|ls| - 1]));
            MapOf(LockedEntries(ls)) ==
            if l.deleted then m[LockedHolder(l.staker, l.validator, l.epoch) := 0]
            else if l.amount < TWO_64 then m[LockedHolder(l.staker, l.validator, l.epoch) := l.amount]
            else m
  {
    var l, es := ls[|ls| - 1], LockedEntries(ls[..|ls| - 1]);
    hide MapOf;
    if l.deleted || l.amount < TWO_64 {
      EntriesSnoc(es, Entry(LockedHolder(l.staker, l.validator, l.epoch), if l.deleted then 0 else l.amount));
    } else {
      assert es + [] == es;
    }
  }

  /** The entry is for this staker, validator and epoch. */
  predicate IsOf(l: LockedEntry, staker: PublicKey, validator: PublicKey, epoch: UInt64) {
    l.staker == staker && l.validator == validator && l.epoch == epoch
  }

  lemma {:induction false} LockedDecided(ls: seq<LockedEntry>, staker: PublicKey, validator: PublicKey, epoch: UInt64, i: nat)
    requires i < |ls| && IsOf(ls[i], staker, validator, epoch) && (ls[i].deleted || ls[i].amount < TWO_64)
    requires forall j :: i < j < |ls| && IsOf(ls[j], staker, validator, epoch) ==> !ls[j].deleted && ls[j].amount >= TWO_64
    ensures LockedHolder(staker, validator, epoch) in MapOf(LockedEntries(ls))
    ensures MapOf(LockedEntries(ls))[LockedHolder(staker, validator, epoch)] == if ls[i].deleted then 0 else ls[i].amount
  {
    LockedSnoc(ls);
    hide MapOf, LockedEntries;
    if i < |ls| - 1 {
      LockedDecided(ls[..|ls| - 1], staker, validator, epoch, i);
    }
  }

  lemma {:induction false} LockedUnnamed(ls: seq<LockedEntry>, staker: PublicKey, validator: PublicKey, epoch: UInt64)
    requires forall i :: 0 <= i < |ls| && IsOf(ls[i], staker, validator, epoch) ==> !ls[i].deleted && ls[i].amount >= TWO_64
    ensures LockedHolder(staker, validator, epoch) !in MapOf(LockedEntries(ls))
  {
    if ls != [] {
      LockedSnoc(ls);
      LockedUnnamed(ls[..|ls| - 1], staker, validator, epoch);
    }
  }

  /** The locked stake of a triple after a commit, by the same rule. */
  lemma LockedStakeRecorded(env: Env, s: State, c: Commit, staker: PublicKey, validator: PublicKey, epoch: UInt64, i: nat, h: nat)
    requires Handled(env, c) && SnapsBelow(s, c.height) && c.height <= h
    requires var ls := c.view.value.lockedStakes;
             && i < |ls| && IsOf(ls[i], staker, validator, epoch) && (ls[i].deleted || ls[i].amount < TWO_64)
             && forall j :: i < j < |ls| && IsOf(ls[j], staker, validator, epoch) ==> !ls[j].deleted && ls[j].amount >= TWO_64
    ensures BalanceAt(AfterCommit(env, s, c).snaps, LockedStake, LockedHolder(staker, validator, epoch), h)
            == if c.view.value.lockedStakes[i].deleted then 0 else c.view.value.lockedStakes[i].amount
  {
    hide MapOf, BalanceAt, AfterCommit, IsOf;
    CommitStep(env, s, c, LockedStake, LockedHolder(staker, validator, epoch), h);
    LockedDecided(c.view.value.lockedStakes, staker, validator, epoch, i);
  }

  lemma LockedStakeKept(env: Env, s: State, c: Commit, staker: PublicKey, validator: PublicKey, epoch: UInt64, h: nat)
    requires Handled(env, c) && SnapsBelow(s, c.height) && c.height <= h
    requires var ls := c.view.value.lockedStakes;
             forall i :: 0 <= i < |ls| && IsOf(ls[i], staker, validator, epoch) ==> !ls[i].deleted && ls[i].amount >= TWO_64
    ensures BalanceAt(AfterCommit(env, s, c).snaps, LockedStake, LockedHolder(staker, validator, epoch), h)
            == BalanceAt(s.snaps, LockedStake, LockedHolder(staker, validator, epoch), h)
  {
    hide MapOf, BalanceAt, AfterCommit, IsOf;
    CommitStep(env, s, c, LockedStake, LockedHolder(staker, validator, epoch), h);
    LockedUnnamed(c.view.value.lockedStakes, staker, validator, epoch);
  }

  // ---------------------------------------------------------------- creator coins

  lemma {:induction false} ProfileDecides(ps: seq<Profile>, pk: PublicKey, i: nat)
    requires i < |ps| && ps[i].pk == pk && forall j :: i < j < |ps| ==> ps[j].pk != pk
    ensures KeyHolder(pk) in MapOf(ProfileEntries(ps))
    ensures MapOf(ProfileEntries(ps))[KeyHolder(pk)] == if ps[i].deleted then 0 else ps[i].locked
  {
    if i < |ps| - 1 {
      ProfileDecides(ps[..|ps| - 1], pk, i);
    }
  }

  lemma {:induction false} NoProfile(ps: seq<Profile>, pk: PublicKey)
    requires forall i :: 0 <= i < |ps| ==> ps[i].pk != pk
    ensures KeyHolder(pk) !in MapOf(ProfileEntries(ps))
  {
    if ps != [] {
      NoProfile(ps[..|ps| - 1], pk);
    }
  }

  lemma {:induction false} TouchedDecides(ts: seq<Touched>, pk: PublicKey, i: nat)
    requires i < |ts| && ts[i].pk == pk && forall j :: i < j < |ts| ==> ts[j].pk != pk
    ensures KeyHolder(pk) in MapOf(TouchedEntries(ts))
    ensures MapOf(TouchedEntries(ts))[KeyHolder(pk)] ==
            if ts[i].profile.None? || ts[i].profile.value.deleted then 0 else ts[i].profile.value.locked
  {
    if i < |ts| - 1 {
      TouchedDecides(ts[..|ts| - 1], pk, i);
    }
  }

  lemma {:induction false} NotTouched(ts: seq<Touched>, pk: PublicKey)
    requires forall i :: 0 <= i < |ts| ==> ts[i].pk != pk
    ensures KeyHolder(pk) !in MapOf(TouchedEntries(ts))
  {
    if ts != [] {
      NotTouched(ts[..|ts| - 1], pk);
    }
  }

  /** A key in neither sequence is not recorded; the profiles override what was
      found for the touched keys. */
  lemma CoinEntries(v: View, pk: PublicKey)
    ensures var m, ps, ts := Delta(v, CreatorCoinLocked), MapOf(ProfileEntries(v.profiles)), MapOf(TouchedEntries(v.touched));
            && (KeyHolder(pk) in ps ==> KeyHolder(pk) in m && m[KeyHolder(pk)] == ps[KeyHolder(pk)])
            && (KeyHolder(pk) !in ps && KeyHolder(pk) in ts ==> KeyHolder(pk) in m && m[KeyHolder(pk)] == ts[KeyHolder(pk)])
            && (KeyHolder(pk) !in ps && KeyHolder(pk) !in ts ==> KeyHolder(pk) !in m)
  {
    MapOfConcat(TouchedEntries(v.touched), ProfileEntries(v.profiles));
  }

  /** The creator coins of a key after a commit: a profile in the view decides. */
  lemma ProfileRecorded(env: Env, s: State, c: Commit, pk: PublicKey, i: nat, h: nat)
    requires Handled(env, c) && SnapsBelow(s, c.height) && c.height <= h
    requires var ps := c.view.value.profiles;
             i < |ps| && ps[i].pk == pk && forall j :: i < j < |ps| ==> ps[j].pk != pk
    ensures BalanceAt(AfterCommit(env, s, c).snaps, CreatorCoinLocked, KeyHolder(pk), h)
            == if c.view.value.profiles[i].deleted then 0 else c.view.value.profiles[i].locked
  {
    hide Delta, MapOf, BalanceAt, AfterCommit;
    CommitStep(env, s, c, CreatorCoinLocked, KeyHolder(pk), h);
    CoinEntries(c.view.value, pk);
    ProfileDecides(c.view.value.profiles, pk, i);
  }

  /** Without one, the profile found for a touched key; none or a deleted one means zero. */
  lemma TouchedRecorded(env: Env, s: State, c: Commit, pk: PublicKey, i: nat, h: nat)
    requires Handled(env, c) && SnapsBelow(s, c.height) && c.height <= h
    requires forall j :: 0 <= j < |c.view.value.profiles| ==> c.view.value.profiles[j].pk != pk
    requires var ts := c.view.value.touched;
             i < |ts| && ts[i].pk == pk && forall j :: i < j < |ts| ==> ts[j].pk != pk
    ensures BalanceAt(AfterCommit(env, s, c).snaps, CreatorCoinLocked, KeyHolder(pk), h)
            == match c.view.value.touched[i].profile
               case None => 0
               case Some(profile) => if profile.deleted then 0 else profile.locked
  {
    hide Delta, MapOf, BalanceAt, AfterCommit;
    CommitStep(env, s, c, CreatorCoinLocked, KeyHolder(pk), h);
    CoinEntries(c.view.value, pk);
    NoProfile(c.view.value.profiles, pk);
    TouchedDecides(c.view.value.touched, pk, i);
  }

  /** A key in neither keeps its balance. */
  lemma CoinsKept(env: Env, s: State, c: Commit, pk: PublicKey, h: nat)
    requires Handled(env, c) && SnapsBelow(s, c.height) && c.height <= h
    requires forall j :: 0 <= j < |c.view.value.profiles| ==> c.view.value.profiles[j].pk != pk
    requires forall j :: 0 <= j < |c.view.value.touched| ==> c.view.value.touched[j].pk != pk
    ensures BalanceAt(AfterCommit(env, s, c).snaps, CreatorCoinLocked, KeyHolder(pk), h)
            == BalanceAt(s.snaps, CreatorCoinLocked, KeyHolder(pk), h)
  {
    hide Delta, MapOf, BalanceAt, AfterCommit;
    CommitStep(env, s, c, CreatorCoinLocked, KeyHolder(pk), h);
    CoinEntries(c.view.value, pk);
    NoProfile(c.view.value.profiles, pk);
    NotTouched(c.view.value.touched, pk);
  }
}
