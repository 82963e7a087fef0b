/** deso/block.go: the operation generators as they run, each appending freshly
    allocated operations and threading the operation counter. */
module Generators {
  import opened ByteStrings
  import opened IndexState
  import opened Sums
  import opened Int64
  import opened Operations
  import opened SquashInPlace
  import opened Chain
  import opened Translation

  /** Unshared objects that read as these operations. */
  ghost predicate Built(r: seq<Operation>, vs: seq<Op>)
    reads r, Amounts(r)
  {
    Separate(r) && Show(r, vs)
  }

  lemma NumberConcat(a: seq<Draft>, b: seq<Draft>, n: nat)
    ensures Number(a + b, n) == Number(a, n) + Number(b, n + |a|)
  {
  }

  lemma NumberSnoc(ds: seq<Draft>, d: Draft, n: nat)
    ensures Number(ds + [d], n) == Number(ds, n) + [Op(n + |ds|, d.account, d.value, d.kind)]
  {
  }

  /** Lists of separate objects, none in common, join to one. */
  lemma BuiltConcat(a: seq<Operation>, b: seq<Operation>, va: seq<Op>, vb: seq<Op>)
    requires Built(a, va) && Built(b, vb)
    requires forall x, y :: x in a && y in b ==> x != y && x.amount != y.amount
    ensures Built(a + b, va + vb)
  {
  }

  method Nothing(n: nat) returns (r: seq<Operation>)
    ensures r == [] && Built(r, Number([], n))
  {
    r := [];
  }

  /** A list of one. */
  method EmitOnly(n: nat, d: Draft) returns (r: seq<Operation>)
    ensures Built(r, Number([d], n)) && forall o :: o in r ==> fresh(o) && fresh(o.amount)
  {
    r := Nothing(n);
    r := Emit(r, n, d, [], n);
    assert [] + [d] == [d];
  }

  /** Allocates one operation and appends it. */
  method Emit(ops: seq<Operation>, index: nat, d: Draft, ghost ds: seq<Draft>, ghost n: nat) returns (r: seq<Operation>)
    requires Built(ops, Number(ds, n)) && index == n + |ds|
    ensures Built(r, Number(ds + [d], n)) && |r| == |ops| + 1
    ensures forall o :: o in r ==> o in ops || (fresh(o) && fresh(o.amount))
  {
    NumberSnoc(ds, d, n);
    var amount := new Amount(d.value);
    var op := new Operation(index, d.account, amount, d.kind);
    r := ops + [op];
  }

  lemma EmptyFlat<A, B>(xs: seq<A>, f: A -> seq<B>)
    ensures FlatMap(xs[..0], f) == []
  {
  }

  // ---------------------------------------------------------------- searches

  lemma {:induction false} FirstPrefix(ops: seq<UtxoOp>, test: UtxoOp -> bool, i: nat)
    requires i <= |ops| && First(ops[..i], test).Some?
    ensures First(ops, test) == First(ops[..i], test)
    decreases |ops|
  {
    if i < |ops| {
      assert ops[..|ops| - 1][..i] == ops[..i];
      FirstPrefix(ops[..|ops| - 1], test, i);
    } else {
      assert ops[..i] == ops;
    }
  }

  /** The loops that look for a transaction's own utxo operation. */
  method FindFirst(ops: seq<UtxoOp>, test: UtxoOp -> bool) returns (r: Option<UtxoOp>)
    ensures r == First(ops, test)
  {
    for i := 0 to |ops|
      invariant First(ops[..i], test) == None
    {
      assert ops[..i + 1][..i] == ops[..i];
      if test(ops[i]) {
        FirstPrefix(ops, test, i + 1);
        return Some(ops[i]);
      }
    }
    assert ops[..|ops|] == ops;
    return None;
  }

  method GetInputAmount(p: Params, k: UtxoKey, ops: seq<UtxoOp>) returns (r: Option<int>)
    requires InGenesisRange(p, k)
    ensures r == InputAmount(p, k, ops)
  {
    hide Negate64;
    if k.txid == ZERO_HASH {
      return Some(Negate64(p.genesisOutputs[k.index].amount));
    }
    var o := FindFirst(ops, Spends(k));
    if o.None? {
      return None;
    }
    return Some(Negate64(o.value.spent.amount));
  }

  // ---------------------------------------------------------------- generators

  method GetBalanceModelSpends(p: Params, ops: seq<UtxoOp>, n: nat) returns (r: seq<Operation>)
    ensures Built(r, Number(FlatMap(ops, SpendDraft(p)), n))
    ensures forall o :: o in r ==> fresh(o) && fresh(o.amount)
  {
    hide Built, Number, FlatMap, Negate64, Decimal;
    r := Nothing(n);
    EmptyFlat(ops, SpendDraft(p));
    var numOps := n;
    for i := 0 to |ops|
      invariant Built(r, Number(FlatMap(ops[..i], SpendDraft(p)), n))
      invariant numOps == n + |FlatMap(ops[..i], SpendDraft(p))|
      invariant forall o :: o in r ==> fresh(o) && fresh(o.amount)
    {
      FlatMapNext(ops, SpendDraft(p), i);
      ghost var ds := FlatMap(ops[..i], SpendDraft(p));
      var o := ops[i];
      if o.SpendBalance? {
        r := Emit(r, numOps, Draft(MainAccount(p, o.pk), Negate64(o.amount), InputOp), ds, n);
        numOps := numOps + 1;
      } else {
        assert ds + [] == ds;
      }
    }
    assert ops[..|ops|] == ops;
  }

  method GetImplicitOutputs(p: Params, numOutputs: nat, ops: seq<UtxoOp>, n: nat) returns (r: seq<Operation>)
    ensures Built(r, Number(FlatMap(ops, ImplicitDraft(p, numOutputs)), n))
    ensures forall o :: o in r ==> fresh(o) && fresh(o.amount)
  {
    hide Built, Number, FlatMap, Negate64, Decimal;
    r := Nothing(n);
    EmptyFlat(ops, ImplicitDraft(p, numOutputs));
    var numOps := n;
    for i := 0 to |ops|
      invariant Built(r, Number(FlatMap(ops[..i], ImplicitDraft(p, numOutputs)), n))
      invariant numOps == n + |FlatMap(ops[..i], ImplicitDraft(p, numOutputs))|
      invariant forall o :: o in r ==> fresh(o) && fresh(o.amount)
    {
      FlatMapNext(ops, ImplicitDraft(p, numOutputs), i);
      ghost var ds := FlatMap(ops[..i], ImplicitDraft(p, numOutputs));
      var o := ops[i];
      if o.AddUtxo? && o.added.Some? && o.added.value.key.index >= numOutputs {
        r := Emit(r, numOps, Draft(MainAccount(p, o.added.value.owner), o.added.value.amount, OutputOp), ds, n);
        numOps := numOps + 1;
      }
      if o.AddBalance? || o.PayToBalance? {
        r := Emit(r, numOps, Draft(MainAccount(p, o.pk), o.amount, OutputOp), ds, n);
        numOps := numOps + 1;
      }
      assert ds + [] == ds;
    }
    assert ops[..|ops|] == ops;
  }

  method GetStakeOps(p: Params, txn: Txn, ops: seq<UtxoOp>, n: nat) returns (r: seq<Operation>)
    ensures Built(r, Number(StakeDrafts(p, txn, ops), n))
    ensures forall o :: o in r ==> fresh(o) && fresh(o.amount)
  {
    hide Built, Number, FlatMap, Negate64, Decimal;
    r := Nothing(n);
    if !txn.meta.Stake? {
      return;
    }
    EmptyFlat(ops, StakeDraft(p, txn.meta.staked));
    var numOps := n;
    for i := 0 to |ops|
      invariant Built(r, Number(FlatMap(ops[..i], StakeDraft(p, txn.meta.staked)), n))
      invariant numOps == n + |FlatMap(ops[..i], StakeDraft(p, txn.meta.staked))|
      invariant forall o :: o in r ==> fresh(o) && fresh(o.amount)
    {
      FlatMapNext(ops, StakeDraft(p, txn.meta.staked), i);
      ghost var ds := FlatMap(ops[..i], StakeDraft(p, txn.meta.staked));
      var o := ops[i];
      assert ds + [] == ds;
      if o.StakeOp? {
        if o.stakedTo.None? || txn.meta.staked.None? || txn.meta.staked.value >= TWO_64 {
          continue;
        }
        r := Emit(r, numOps, Draft(ValidatorAccount(p, o.stakedTo.value), txn.meta.staked.value, OutputOp), ds, n);
        numOps := numOps + 1;
      }
    }
    assert ops[..|ops|] == ops;
  }

  method GetUnstakeOps(p: Params, txn: Txn, ops: seq<UtxoOp>, n: nat) returns (r: seq<Operation>)
    ensures Built(r, Number(UnstakeDrafts(p, txn, ops), n))
    ensures forall o :: o in r ==> fresh(o) && fresh(o.amount)
  {
    hide Built, Number, FlatMap, Negate64, Decimal;
    r := Nothing(n);
    if !txn.meta.Unstake? {
      return;
    }
    EmptyFlat(ops, UnstakeDraft(p, txn.meta.unstaked));
    var numOps := n;
    for i := 0 to |ops|
      invariant Built(r, Number(FlatMap(ops[..i], UnstakeDraft(p, txn.meta.unstaked)), n))
      invariant numOps == n + |FlatMap(ops[..i], UnstakeDraft(p, txn.meta.unstaked))|
      invariant forall o :: o in r ==> fresh(o) && fresh(o.amount)
    {
      FlatMapNext(ops, UnstakeDraft(p, txn.meta.unstaked), i);
      ghost var ds := FlatMap(ops[..i], UnstakeDraft(p, txn.meta.unstaked));
      var o := ops[i];
      assert ds + [] == ds;
      if o.UnstakeOp? {
        if o.unstakedFrom.None? || |o.prevStakers| != 1 || txn.meta.unstaked.None? || txn.meta.unstaked.value >= TWO_64 {
          continue;
        }
        var amount := txn.meta.unstaked.value;
        var input := Draft(ValidatorAccount(p, o.unstakedFrom.value), amount, InputOp);
        var output := Draft(LockedStakeAccount(p, o.prevStakers[0], o.unstakedFrom.value, o.epoch), amount, OutputOp);
        assert ds + [input] + [output] == ds + [input, output];
        r := Emit(r, numOps, input, ds, n);
        numOps := numOps + 1;
        r := Emit(r, numOps, output, ds + [input], n);
        numOps := numOps + 1;
      }
    }
    assert ops[..|ops|] == ops;
  }

  method GetStakingRewardDistributionOps(p: Params, ops: seq<UtxoOp>, n: nat) returns (r: seq<Operation>)
    ensures Built(r, Number(FlatMap(ops, RestakeDraft(p)), n))
    ensures forall o :: o in r ==> fresh(o) && fresh(o.amount)
  {
    hide Built, Number, FlatMap, Negate64, Decimal;
    r := Nothing(n);
    EmptyFlat(ops, RestakeDraft(p));
    var numOps := n;
    for i := 0 to |ops|
      invariant Built(r, Number(FlatMap(ops[..i], RestakeDraft(p)), n))
      invariant numOps == n + |FlatMap(ops[..i], RestakeDraft(p))|
      invariant forall o :: o in r ==> fresh(o) && fresh(o.amount)
    {
      FlatMapNext(ops, RestakeDraft(p), i);
      ghost var ds := FlatMap(ops[..i], RestakeDraft(p));
      var o := ops[i];
      if o.Restake? {
        r := Emit(r, numOps, Draft(ValidatorAccount(p, o.restaked), o.amount, OutputOp), ds, n);
        numOps := numOps + 1;
      } else {
        assert ds + [] == ds;
      }
    }
    assert ops[..|ops|] == ops;
  }

  method GetUnlockStakeOps(p: Params, txn: Txn, ops: seq<UtxoOp>, n: nat) returns (r: seq<Operation>)
    ensures Built(r, Number(UnlockDrafts(p, txn, ops), n))
    ensures forall o :: o in r ==> fresh(o) && fresh(o.amount)
  {
    hide Built, Number, FlatMap, Decimal, LockedStakeAccount;
    r := Nothing(n);
    if !txn.meta.UnlockStake? {
      return;
    }
    EmptyFlat(ops, UnlockDraft(p));
    var numOps := n;
    for i := 0 to |ops|
      invariant Built(r, Number(FlatMap(ops[..i], UnlockDraft(p)), n))
      invariant numOps == n + |FlatMap(ops[..i], UnlockDraft(p))|
      invariant forall o :: o in r ==> fresh(o) && fresh(o.amount)
    {
      FlatMapNext(ops, UnlockDraft(p), i);
      ghost var ds := FlatMap(ops[..i], UnlockDraft(p));
      if ops[i].UnlockStakeOp? {
        r, numOps := UnlockEntries(p, ops[i].prevLocked, r, numOps, ds, n);
      } else {
        assert ds + [] == ds;
      }
    }
    assert ops[..|ops|] == ops;
  }

  /** The inner loop of the unlock generator. */
  method UnlockEntries(p: Params, entries: seq<LockedStakeEntry>, ops: seq<Operation>, start: nat,
                       ghost ds: seq<Draft>, ghost n: nat) returns (r: seq<Operation>, numOps: nat)
    requires Built(ops, Number(ds, n)) && start == n + |ds|
    ensures Built(r, Number(ds + FlatMap(entries, UnlockedDraft(p)), n))
    ensures numOps == n + |ds + FlatMap(entries, UnlockedDraft(p))|
    ensures forall o :: o in r ==> o in ops || (fresh(o) && fresh(o.amount))
  {
    hide Built, Number, FlatMap, Decimal, LockedStakeAccount;
    r, numOps := ops, start;
    EmptyFlat(entries, UnlockedDraft(p));
    assert ds + [] == ds;
    for j := 0 to |entries|
      invariant Built(r, Number(ds + FlatMap(entries[..j], UnlockedDraft(p)), n))
      invariant numOps == n + |ds + FlatMap(entries[..j], UnlockedDraft(p))|
      invariant forall o :: o in r ==> o in ops || (fresh(o) && fresh(o.amount))
    {
      FlatMapNext(entries, UnlockedDraft(p), j);
      ghost var sofar := FlatMap(entries[..j], UnlockedDraft(p));
      var e := entries[j];
      assert sofar + [] == sofar;
      if e.amount >= TWO_64 {
        continue;
      }
      var d := Draft(LockedStakeAccount(p, e.staker, e.validator, e.epoch), e.amount, InputOp);
      assert ds + (sofar + [d]) == ds + sofar + [d];
      r := Emit(r, numOps, d, ds + sofar, n);
      numOps := numOps + 1;
    }
    assert entries[..|entries|] == entries;
  }

  method AddNFTRoyalties(p: Params, ops: seq<Operation>, start: nat, royalties: seq<Royalty>,
                         ghost ds: seq<Draft>, ghost n: nat) returns (r: seq<Operation>, numOps: nat)
    requires Built(ops, Number(ds, n)) && start == n + |ds|
    ensures Built(r, Number(ds + FlatMap(royalties, RoyaltyDraft(p)), n))
    ensures numOps == n + |ds + FlatMap(royalties, RoyaltyDraft(p))|
    ensures forall o :: o in r ==> o in ops || (fresh(o) && fresh(o.amount))
  {
    hide Built, Number, FlatMap;
    r, numOps := ops, start;
    EmptyFlat(royalties, RoyaltyDraft(p));
    assert ds + [] == ds;
    for j := 0 to |royalties|
      invariant Built(r, Number(ds + FlatMap(royalties[..j], RoyaltyDraft(p)), n))
      invariant numOps == n + |ds + FlatMap(royalties[..j], RoyaltyDraft(p))|
      invariant forall o :: o in r ==> o in ops || (fresh(o) && fresh(o.amount))
    {
      FlatMapNext(royalties, RoyaltyDraft(p), j);
      ghost var sofar := FlatMap(royalties[..j], RoyaltyDraft(p));
      assert sofar + [] == sofar;
      if royalties[j].amount == 0 {
        continue;
      }
      var d := Draft(CreatorAccount(p, royalties[j].pk), royalties[j].amount, OutputOp);
      assert ds + (sofar + [d]) == ds + sofar + [d];
      r := Emit(r, numOps, d, ds + sofar, n);
      numOps := numOps + 1;
    }
    assert royalties[..|royalties|] == royalties;
  }

  method GetCreatorCoinOps(p: Params, txn: Txn, ops: seq<UtxoOp>, n: nat) returns (r: seq<Operation>)
    ensures Built(r, Number(CreatorCoinDrafts(p, txn, ops), n))
    ensures forall o :: o in r ==> fresh(o) && fresh(o.amount)
  {
    hide Built, Number;
    if !txn.meta.CreatorCoinTxn? {
      r := Nothing(n);
      return;
    }
    var o := FindFirst(ops, IsCreatorCoin);
    r := Nothing(n);
    if o.None? {
      return;
    }
    var account := CreatorAccount(p, txn.meta.profile);
    if txn.meta.trade == Sell {
      r := EmitOnly(n, Draft(account, o.value.lockedDiff, InputOp));
    } else if txn.meta.trade == Buy {
      r := EmitOnly(n, Draft(account, o.value.lockedDiff, OutputOp));
    }
  }

  method GetSwapIdentityOps(p: Params, txn: Txn, ops: seq<UtxoOp>, n: nat) returns (r: seq<Operation>)
    ensures Built(r, Number(SwapIdentityDrafts(p, txn, ops), n))
    ensures forall o :: o in r ==> fresh(o) && fresh(o.amount)
  {
    hide Built, Number, Negate64;
    if !txn.meta.SwapIdentity? {
      r := Nothing(n);
      return;
    }
    var o := FindFirst(ops, IsSwapIdentity);
    r := Nothing(n);
    if o.None? {
      return;
    }
    var from, to := CreatorAccount(p, txn.meta.from), CreatorAccount(p, txn.meta.to);
    var d0, d1 := Draft(from, Negate64(o.value.fromLocked), InputOp), Draft(to, Negate64(o.value.toLocked), InputOp);
    var d2, d3 := Draft(from, o.value.toLocked, OutputOp), Draft(to, o.value.fromLocked, OutputOp);
    r := EmitOnly(n, d0);
    r := Emit(r, n + 1, d1, [d0], n);
    r := Emit(r, n + 2, d2, [d0] + [d1], n);
    r := Emit(r, n + 3, d3, [d0] + [d1] + [d2], n);
    assert [d0] + [d1] + [d2] + [d3] == [d0, d1, d2, d3];
  }

  method GetUpdateProfileOps(p: Params, txn: Txn, ops: seq<UtxoOp>, n: nat) returns (r: seq<Operation>)
    ensures Built(r, Number(UpdateProfileDrafts(p, txn, ops), n))
    ensures forall o :: o in r ==> fresh(o) && fresh(o.amount)
  {
    hide Built, Number, Negate64;
    if !txn.meta.UpdateProfile? {
      r := Nothing(n);
      return;
    }
    var o := FindFirst(ops, IsUpdateProfile);
    r := Nothing(n);
    if o.None? || o.value.clobbered == 0 {
      return;
    }
    r := EmitOnly(n, Draft(CreatorAccount(p, txn.pk), Negate64(o.value.clobbered), InputOp));
  }

  method GetBuyNowNFTBidOps(p: Params, txn: Txn, ops: seq<UtxoOp>, n: nat) returns (r: seq<Operation>)
    ensures Built(r, Number(NFTBidDrafts(p, txn, ops), n))
    ensures forall o :: o in r ==> fresh(o) && fresh(o.amount)
  {
    hide Built, Number, FlatMap;
    if !txn.meta.NFTBid? {
      r := Nothing(n);
      return;
    }
    var found := FindFirst(ops, IsNFTBid);
    r := Nothing(n);
    if found.None? {
      return;
    }
    var o, numOps := found.value, n;
    ghost var ds: seq<Draft> := [];
    if o.prevCirculation.Some? && o.prevCirculation.value % TWO_64 >= p.autoSellThreshold && o.creatorRoyalty > 0 {
      var d := Draft(CreatorAccount(p, o.creator), o.creatorRoyalty, OutputOp);
      r := EmitOnly(n, d);
      numOps, ds := numOps + 1, [d];
    }
    r, numOps := AddNFTRoyalties(p, r, numOps, o.royalties, ds, n);
  }

  // ---------------------------------------------------------------- bidder inputs

  /** One unresolved input and a bidder has no drafts at all. */
  lemma {:induction false} BidderPrefix(p: Params, bidder: Bytes, ks: seq<UtxoKey>, ops: seq<UtxoOp>, i: nat)
    requires i <= |ks| && BidderDrafts(p, bidder, ks[..i], ops).None?
    ensures BidderDrafts(p, bidder, ks, ops).None?
    decreases |ks|
  {
    if i < |ks| {
      assert ks[..|ks| - 1][..i] == ks[..i];
      BidderPrefix(p, bidder, ks[..|ks| - 1], ops, i);
    } else {
      assert ks[..i] == ks;
    }
  }

  lemma BidderNext(p: Params, bidder: Bytes, ks: seq<UtxoKey>, ops: seq<UtxoOp>, i: nat)
    requires i < |ks| && BidderDrafts(p, bidder, ks[..i], ops).Some?
    ensures BidderDrafts(p, bidder, ks[..i + 1], ops) ==
            if InputAmount(p, ks[i], ops).None? then None
            else Some(BidderDrafts(p, bidder, ks[..i], ops).value
                      + [Draft(MainAccount(p, bidder), InputAmount(p, ks[i], ops).value, InputOp)])
  {
    assert ks[..i + 1][..i] == ks[..i];
  }

  /** Appends one bidder's inputs, or reports an unresolved one. */
  method BidderInputs(p: Params, bidder: Bytes, ks: seq<UtxoKey>, utxoOps: seq<UtxoOp>, ops: seq<Operation>, start: nat,
                      ghost ds: seq<Draft>, ghost n: nat) returns (ok: bool, r: seq<Operation>, numOps: nat)
    requires forall k :: k in ks ==> InGenesisRange(p, k)
    requires Built(ops, Number(ds, n)) && start == n + |ds|
    ensures ok == BidderDrafts(p, bidder, ks, utxoOps).Some?
    ensures ok ==> Built(r, Number(ds + BidderDrafts(p, bidder, ks, utxoOps).value, n))
    ensures ok ==> numOps == n + |ds + BidderDrafts(p, bidder, ks, utxoOps).value|
    ensures forall o :: o in r ==> o in ops || (fresh(o) && fresh(o.amount))
  {
    r, numOps := ops, start;
    assert ks[..0] == [] && ds + [] == ds;
    hide Built, Number;
    for i := 0 to |ks|
      invariant BidderDrafts(p, bidder, ks[..i], utxoOps).Some?
      invariant Built(r, Number(ds + BidderDrafts(p, bidder, ks[..i], utxoOps).value, n))
      invariant numOps == n + |ds + BidderDrafts(p, bidder, ks[..i], utxoOps).value|
      invariant forall o :: o in r ==> o in ops || (fresh(o) && fresh(o.amount))
    {
      BidderNext(p, bidder, ks, utxoOps, i);
      hide BidderDrafts, InputAmount;
      ghost var sofar := BidderDrafts(p, bidder, ks[..i], utxoOps).value;
      assert ks[i] in ks;
      var inputAmount := GetInputAmount(p, ks[i], utxoOps);
      if inputAmount.None? {
        BidderPrefix(p, bidder, ks, utxoOps, i + 1);
        return false, ops, start;
      }
      var d := Draft(MainAccount(p, bidder), inputAmount.value, InputOp);
      assert ds + (sofar + [d]) == ds + sofar + [d];
      r := Emit(r, numOps, d, ds + sofar, n);
      numOps := numOps + 1;
    }
    assert ks[..|ks|] == ks;
    return true, r, numOps;
  }

  method GetAcceptNFTOps(p: Params, txn: Txn, ops: seq<UtxoOp>, n: nat) returns (r: seq<Operation>)
    requires GenesisInputsExist(p, txn)
    ensures Built(r, Number(AcceptNFTDrafts(p, txn, ops), n))
    ensures forall o :: o in r ==> fresh(o) && fresh(o.amount)
  {
    hide Built, Number, FlatMap, BidderDrafts;
    if !txn.meta.AcceptNFTBid? {
      r := Nothing(n);
      return;
    }
    var found := FindFirst(ops, IsAcceptNFTBid);
    r := Nothing(n);
    if found.None? {
      return;
    }
    var o := found.value;
    var ok, bids, numOps := BidderInputs(p, o.bidder, txn.meta.bidderInputs, ops, r, n, [], n);
    if !ok {
      r := Nothing(n);
      return;
    }
    ghost var ds := BidderDrafts(p, o.bidder, txn.meta.bidderInputs, ops).value;
    assert [] + ds == ds && ds + [] == ds;
    r := bids;
    if o.circulation % TWO_64 >= p.autoSellThreshold && o.creatorRoyalty > 0 {
      var d := Draft(CreatorAccount(p, o.creator), o.creatorRoyalty, OutputOp);
      r := Emit(r, numOps, d, ds, n);
      numOps, ds := numOps + 1, ds + [d];
    }
    r, numOps := AddNFTRoyalties(p, r, numOps, o.royalties, ds, n);
  }

  lemma {:induction false} AllBidderPrefix(p: Params, bs: seq<BidderInput>, ops: seq<UtxoOp>, i: nat)
    requires i <= |bs| && AllBidderDrafts(p, bs[..i], ops).None?
    ensures AllBidderDrafts(p, bs, ops).None?
    decreases |bs|
  {
    if i < |bs| {
      assert bs[..|bs| - 1][..i] == bs[..i];
      AllBidderPrefix(p, bs[..|bs| - 1], ops, i);
    } else {
      assert bs[..i] == bs;
    }
  }

  lemma AllBidderNext(p: Params, bs: seq<BidderInput>, ops: seq<UtxoOp>, i: nat)
    requires i < |bs| && AllBidderDrafts(p, bs[..i], ops).Some?
    ensures var last := BidderDrafts(p, bs[i].transactor, bs[i].inputs, ops);
            AllBidderDrafts(p, bs[..i + 1], ops) ==
            if last.None? then None else Some(AllBidderDrafts(p, bs[..i], ops).value + last.value)
  {
    assert bs[..i + 1][..i] == bs[..i];
  }

  method GetDAOCoinLimitOrderOps(p: Params, txn: Txn, ops: seq<UtxoOp>, n: nat) returns (r: seq<Operation>)
    requires GenesisInputsExist(p, txn)
    ensures Built(r, Number(DAOCoinDrafts(p, txn, ops), n))
    ensures forall o :: o in r ==> fresh(o) && fresh(o.amount)
  {
    r := Nothing(n);
    if !txn.meta.DAOCoinLimitOrder? {
      return;
    }
    var bs := txn.meta.bidders;
    var numOps := n;
    assert bs[..0] == [];
    hide Built, Number, BidderDrafts;
    for i := 0 to |bs|
      invariant AllBidderDrafts(p, bs[..i], ops).Some?
      invariant Built(r, Number(AllBidderDrafts(p, bs[..i], ops).value, n))
      invariant numOps == n + |AllBidderDrafts(p, bs[..i], ops).value|
      invariant forall o :: o in r ==> fresh(o) && fresh(o.amount)
    {
      AllBidderNext(p, bs, ops, i);
      hide AllBidderDrafts;
      assert bs[i] in bs;
      var ok, more, count := BidderInputs(p, bs[i].transactor, bs[i].inputs, ops, r, numOps,
                                          AllBidderDrafts(p, bs[..i], ops).value, n);
      if !ok {
        AllBidderPrefix(p, bs, ops, i + 1);
        r := Nothing(n);
        return;
      }
      r, numOps := more, count;
    }
    assert bs[..|bs|] == bs;
  }
}
