/** What stake operations should conserve, and exactly when they do: moving stake
    from a pool to a locked entry, and out of a locked entry. */
module Conservation {
  import opened ByteStrings
  import opened IndexState
  import opened Sums
  import opened Operations
  import opened Chain
  import opened Translation
  import opened Ledger
  import opened SubAccounts

  /** An unstake effect that names this pool or this locked entry. */
  predicate UnstakesHere(p: Params, o: UtxoOp, v: string, id: PartialId) {
    Unstakes(o)
    && (p.base58(o.unstakedFrom.value) == v
        || IdOf(LockedStakeAccount(p, o.prevStakers[0], o.unstakedFrom.value, o.epoch)) == id)
  }

  /** An unstake should move the amount from the pool to the locked entry. It
      credits both: for every list of effects, the total of a pool and a locked
      entry is conserved exactly when the amount is zero (or is not translated, not
      being a 64-bit number) or no unstake effect names either. */
  lemma UnstakeConservesExactlyWhen(p: Params, balanceModel: bool, txn: Txn, ops: seq<UtxoOp>, spent: map<UtxoKey, UInt64>,
                                    staker: Bytes, validator: Bytes, epoch: nat)
    requires txn.meta.Unstake?
    ensures var ds := LeafDrafts(p, balanceModel, txn, ops, spent);
            var id := IdOf(LockedStakeAccount(p, staker, validator, epoch));
            NetD(ds, IdOf(ValidatorAccount(p, validator))) + NetD(ds, id) == 0
            <==> !Fits64(txn.meta.unstaked) || txn.meta.unstaked.value == 0
                 || forall o :: o in ops ==> !UnstakesHere(p, o, p.base58(validator), id)
  {
    hide LeafDrafts, NetD, LockedStakeAccount, Sum;
    var v, id := p.base58(validator), IdOf(LockedStakeAccount(p, staker, validator, epoch));
    PoolLedger(p, balanceModel, txn, ops, spent, validator);
    LockedLedger(p, balanceModel, txn, ops, spent, staker, validator, epoch);
    if Fits64(txn.meta.unstaked) {
      UnstakedZero(p, ops, v, id, txn.meta.unstaked.value);
    }
  }

  lemma UnstakedZero(p: Params, ops: seq<UtxoOp>, v: string, id: PartialId, x: nat)
    ensures Sum(ops, UnstakedFn(p, v, x)) + Sum(ops, RelockedFn(p, id, x)) == 0 <==>
            x == 0 || forall o :: o in ops ==> !UnstakesHere(p, o, v, id)
  {
    hide Sum, LockedStakeAccount;
    SumAtLeast(ops, UnstakedFn(p, v, x));
    SumAtLeast(ops, RelockedFn(p, id, x));
    if x > 0 {
      forall i | 0 <= i < |ops|
        ensures UnstakedFn(p, v, x)(ops[i]) == RelockedFn(p, id, x)(ops[i]) == 0 <==> !UnstakesHere(p, ops[i], v, id)
      {
      }
      assert forall o :: o in ops <==> exists i :: 0 <= i < |ops| && ops[i] == o;
    }
  }

  /** A released entry of this account, with an amount. */
  predicate Releases(p: Params, o: UtxoOp, e: LockedStakeEntry, id: PartialId) {
    o.UnlockStakeOp? && e in o.prevLocked && 0 < e.amount < TWO_64
    && IdOf(LockedStakeAccount(p, e.staker, e.validator, e.epoch)) == id
  }

  /** An unlock should take what it releases out of the locked entry. It credits the
      entry's account instead: for every list of effects, the account goes down by
      what is released from it exactly when nothing is. */
  lemma UnlockReleasesExactlyWhen(p: Params, balanceModel: bool, txn: Txn, ops: seq<UtxoOp>, spent: map<UtxoKey, UInt64>,
                                  staker: Bytes, validator: Bytes, epoch: nat)
    requires txn.meta.UnlockStake?
    ensures var id := IdOf(LockedStakeAccount(p, staker, validator, epoch));
            NetD(LeafDrafts(p, balanceModel, txn, ops, spent), id) == 0 - Sum(ops, UnlockedFn(p, id, AsIs()))
            <==> forall o, e :: o in ops && o.UnlockStakeOp? && e in o.prevLocked ==> !Releases(p, o, e, id)
  {
    hide LeafDrafts, NetD, LockedStakeAccount, Sum;
    var id := IdOf(LockedStakeAccount(p, staker, validator, epoch));
    LockedLedger(p, balanceModel, txn, ops, spent, staker, validator, epoch);
    ReleasedZero(p, ops, id);
  }

  lemma ReleasedZero(p: Params, ops: seq<UtxoOp>, id: PartialId)
    ensures Sum(ops, UnlockedFn(p, id, AsIs())) == 0 <==>
            forall o, e :: o in ops && o.UnlockStakeOp? && e in o.prevLocked ==> !Releases(p, o, e, id)
  {
    hide Sum, LockedStakeAccount;
    forall i | 0 <= i < |ops|
      ensures UnlockedFn(p, id, AsIs())(ops[i]) >= 0
      ensures UnlockedFn(p, id, AsIs())(ops[i]) == 0 <==>
              (ops[i].UnlockStakeOp? ==> forall e :: e in ops[i].prevLocked ==> !Releases(p, ops[i], e, id))
    {
      if ops[i].UnlockStakeOp? {
        EntriesZero(p, ops[i], id);
      }
    }
    SumAtLeast(ops, UnlockedFn(p, id, AsIs()));
    assert forall o :: o in ops <==> exists i :: 0 <= i < |ops| && ops[i] == o;
  }

  lemma EntriesZero(p: Params, o: UtxoOp, id: PartialId)
    requires o.UnlockStakeOp?
    ensures Sum(o.prevLocked, EntryAmountFn(p, id, AsIs())) >= 0
    ensures Sum(o.prevLocked, EntryAmountFn(p, id, AsIs())) == 0 <==> forall e :: e in o.prevLocked ==> !Releases(p, o, e, id)
  {
    hide Sum, LockedStakeAccount;
    var es := o.prevLocked;
    forall j | 0 <= j < |es| ensures EntryAmountFn(p, id, AsIs())(es[j]) >= 0 {
      var e := es[j];
      assert EntryAmountFn(p, id, AsIs())(e) ==
             if e.amount < TWO_64 && IdOf(LockedStakeAccount(p, e.staker, e.validator, e.epoch)) == id then e.amount else 0;
    }
    SumAtLeast(es, EntryAmountFn(p, id, AsIs()));
    assert forall j :: 0 <= j < |es| ==> es[j] in es;
    assert forall j :: 0 <= j < |es| ==> (EntryAmountFn(p, id, AsIs())(es[j]) == 0 <==> !Releases(p, o, es[j], id));
    assert forall e :: e in es ==> exists j :: 0 <= j < |es| && es[j] == e;
  }
}
