/** The order of a plain transaction's operations: inputs, outputs, spent balances,
    payments, and then what its type brings with it. */
module DraftOrder {
  import opened ByteStrings
  import opened IndexState
  import opened Sums
  import opened Int64
  import opened Operations
  import opened Chain
  import opened Translation
  import opened SubAccounts
  import opened Selections

  predicate IsSpend(o: UtxoOp) {
    o.SpendBalance?
  }

  /** An added balance, or an added output past the first n. */
  function IsPayment(n: nat): UtxoOp -> bool {
    (o: UtxoOp) => o.AddBalance? || o.PayToBalance? || (o.AddUtxo? && o.added.Some? && o.added.value.key.index >= n)
  }

  /** Inputs come first, each in its place, at the amount found for it or zero; then
      the outputs, where they are translated. */
  lemma PlainOrder(p: Params, balanceModel: bool, txn: Txn, spent: map<UtxoKey, UInt64>) returns (ins: seq<Draft>, outs: seq<Draft>)
    ensures |ins| == |txn.inputs| && forall i :: 0 <= i < |ins| ==> ins[i] == InputOf(p, txn, spent, i)
    ensures |outs| == if balanceModel then 0 else |txn.outputs|
    ensures !balanceModel ==> forall j :: 0 <= j < |outs| ==>
              outs[j] == Draft(Account(p.base58(txn.outputs[j].pk), None), txn.outputs[j].amount, OutputOp)
    ensures PlainDrafts(p, balanceModel, txn, spent) == ins + outs
  {
    hide FlatMap, Negate64;
    FlatMapSingles(txn.inputs, InputDraft(p, txn.pk, spent));
    FlatMapSingles(txn.outputs, OutputDraft(p));
    ins := FlatMap(txn.inputs, InputDraft(p, txn.pk, spent));
    outs := if balanceModel then [] else FlatMap(txn.outputs, OutputDraft(p));
  }

  function InputOf(p: Params, txn: Txn, spent: map<UtxoKey, UInt64>, i: nat): Draft
    requires i < |txn.inputs|
  {
    var found := if txn.inputs[i] in spent then spent[txn.inputs[i]] else 0;
    Draft(Account(p.base58(txn.pk), None), Negate64(found), InputOp)
  }

  /** At block level the payments come first, whatever their index, then the restaked
      rewards. */
  lemma BlockLevelInOrder(p: Params, ops: seq<UtxoOp>) returns (payments: seq<Draft>, rewards: seq<Draft>)
    ensures var q := Selected(ops, IsPayment(0));
            |payments| == |q| && forall j :: 0 <= j < |q| ==>
              payments[j] == if q[j].AddUtxo?
                             then Draft(Account(p.base58(q[j].added.value.owner), None), q[j].added.value.amount, OutputOp)
                             else Draft(Account(p.base58(q[j].pk), None), q[j].amount, OutputOp)
    ensures var r := Selected(ops, IsRestake);
            |rewards| == |r| && forall j :: 0 <= j < |r| ==>
              rewards[j] == Draft(Account(p.base58(r[j].restaked), Some("VALIDATOR_ENTRY")), r[j].amount, OutputOp)
    ensures BlockLevelDrafts(p, ops) == payments + rewards
  {
    hide FlatMap, Selected;
    FlatMapSelected(ops, ImplicitDraft(p, 0), IsPayment(0));
    FlatMapSelected(ops, RestakeDraft(p), IsRestake);
    payments, rewards := FlatMap(ops, ImplicitDraft(p, 0)), FlatMap(ops, RestakeDraft(p));
  }

  predicate IsRestake(o: UtxoOp) {
    o.Restake?
  }

  /** What the transaction's own type brings. */
  function OwnDrafts(p: Params, txn: Txn, ops: seq<UtxoOp>): seq<Draft> {
    CreatorCoinDrafts(p, txn, ops) + SwapIdentityDrafts(p, txn, ops) + AcceptNFTDrafts(p, txn, ops)
    + NFTBidDrafts(p, txn, ops) + UpdateProfileDrafts(p, txn, ops) + DAOCoinDrafts(p, txn, ops)
    + StakeDrafts(p, txn, ops) + UnstakeDrafts(p, txn, ops) + UnlockDrafts(p, txn, ops)
  }

  lemma SpecialSplits(p: Params, txn: Txn, ops: seq<UtxoOp>)
    ensures SpecialDrafts(p, txn, ops)
            == FlatMap(ops, SpendDraft(p)) + FlatMap(ops, ImplicitDraft(p, NumOutputs(txn))) + OwnDrafts(p, txn, ops)
  {
    hide FlatMap, CreatorCoinDrafts, SwapIdentityDrafts, AcceptNFTDrafts, NFTBidDrafts,
         UpdateProfileDrafts, DAOCoinDrafts, StakeDrafts, UnstakeDrafts, UnlockDrafts;
  }

  /** Then the spent balances, in the order of the effects, then the payments, and
      then what the transaction's own type brings. */
  lemma TransfersInOrder(p: Params, txn: Txn, ops: seq<UtxoOp>) returns (spends: seq<Draft>, payments: seq<Draft>)
    ensures var s := Selected(ops, IsSpend);
            |spends| == |s| && forall i :: 0 <= i < |s| ==>
              spends[i] == Draft(Account(p.base58(s[i].pk), None), Negate64(s[i].amount), InputOp)
    ensures var q := Selected(ops, IsPayment(|txn.outputs| % 0x1_0000_0000));
            |payments| == |q| && forall j :: 0 <= j < |q| ==>
              payments[j] == if q[j].AddUtxo?
                             then Draft(Account(p.base58(q[j].added.value.owner), None), q[j].added.value.amount, OutputOp)
                             else Draft(Account(p.base58(q[j].pk), None), q[j].amount, OutputOp)
    ensures SpecialDrafts(p, txn, ops) == spends + payments + OwnDrafts(p, txn, ops)
  {
    hide FlatMap, Selected, Negate64, OwnDrafts, SpecialDrafts;
    SpecialSplits(p, txn, ops);
    FlatMapSelected(ops, SpendDraft(p), IsSpend);
    FlatMapSelected(ops, ImplicitDraft(p, NumOutputs(txn)), IsPayment(NumOutputs(txn)));
    spends, payments := FlatMap(ops, SpendDraft(p)), FlatMap(ops, ImplicitDraft(p, NumOutputs(txn)));
  }

  /** What the types without bidders bring is for sub-accounts. */
  lemma OwnDraftsAreSub(p: Params, txn: Txn, ops: seq<UtxoOp>)
    requires !txn.meta.AcceptNFTBid? && !txn.meta.DAOCoinLimitOrder?
    ensures forall i :: 0 <= i < |OwnDrafts(p, txn, ops)| ==> OwnDrafts(p, txn, ops)[i].account.sub.Some?
  {
    CoinGenerators(p, txn, ops);
    StakeGenerators(p, txn, ops);
    assert AcceptNFTDrafts(p, txn, ops) == DAOCoinDrafts(p, txn, ops) == [];
    assert OnlyKinds(OwnDrafts(p, txn, ops), {Coin, Pool, Locked}) by {
      hide KindOf, CreatorCoinDrafts, SwapIdentityDrafts, AcceptNFTDrafts, NFTBidDrafts,
           UpdateProfileDrafts, DAOCoinDrafts, StakeDrafts, UnstakeDrafts, UnlockDrafts;
    }
    hide OwnDrafts;
    forall i | 0 <= i < |OwnDrafts(p, txn, ops)| ensures OwnDrafts(p, txn, ops)[i].account.sub.Some? {
      assert KindOf(OwnDrafts(p, txn, ops)[i].account) in {Coin, Pool, Locked};
    }
  }

  // ---------------------------------------------------------------- bidder inputs

  lemma {:induction false} AllBiddersResolve(p: Params, bs: seq<BidderInput>, ops: seq<UtxoOp>)
    ensures AllBidderDrafts(p, bs, ops).Some? <==> forall b, k :: b in bs && k in b.inputs ==> InputAmount(p, k, ops).Some?
  {
    if bs != [] {
      var init, last := bs[..|bs| - 1], bs[|bs| - 1];
      assert bs == init + [last];
      AllBiddersResolve(p, init, ops);
      BidderOnly(p, last.transactor, last.inputs, ops);
      hide InputAmount, BidderDrafts;
    }
  }

  /** One bidder input that does not resolve and there are no operations for any, nor
      for the royalties of the bid. */
  lemma UnresolvedMeansNothing(p: Params, txn: Txn, ops: seq<UtxoOp>)
    ensures txn.meta.AcceptNFTBid? && (exists k :: k in txn.meta.bidderInputs && InputAmount(p, k, ops).None?) ==>
              AcceptNFTDrafts(p, txn, ops) == []
    ensures txn.meta.DAOCoinLimitOrder?
            && (exists b, k :: b in txn.meta.bidders && k in b.inputs && InputAmount(p, k, ops).None?) ==>
              DAOCoinDrafts(p, txn, ops) == []
  {
    hide InputAmount, BidderDrafts, AllBidderDrafts;
    if txn.meta.AcceptNFTBid? {
      var o := First(ops, IsAcceptNFTBid);
      if o.Some? {
        BidderOnly(p, o.value.bidder, txn.meta.bidderInputs, ops);
      }
    } else if txn.meta.DAOCoinLimitOrder? {
      AllBiddersResolve(p, txn.meta.bidders, ops);
    }
  }

  lemma {:induction false} BiddersInOrder(p: Params, bidder: Bytes, ks: seq<UtxoKey>, ops: seq<UtxoOp>)
    requires BidderDrafts(p, bidder, ks, ops).Some?
    ensures var ds := BidderDrafts(p, bidder, ks, ops).value;
            |ds| == |ks| && forall i :: 0 <= i < |ks| ==>
              InputAmount(p, ks[i], ops).Some?
              && ds[i] == Draft(Account(p.base58(bidder), None), InputAmount(p, ks[i], ops).value, InputOp)
  {
    hide InputAmount;
    if ks != [] {
      BiddersInOrder(p, bidder, ks[..|ks| - 1], ops);
    }
  }

  /** An accepted bid that resolves takes the bidder's inputs first, in order, and
      pays royalties after that. */
  lemma AcceptInOrder(p: Params, txn: Txn, ops: seq<UtxoOp>) returns (bids: seq<Draft>, royalties: seq<Draft>)
    requires txn.meta.AcceptNFTBid? && First(ops, IsAcceptNFTBid).Some?
    requires forall k :: k in txn.meta.bidderInputs ==> InputAmount(p, k, ops).Some?
    ensures |bids| == |txn.meta.bidderInputs| && forall i :: 0 <= i < |bids| ==>
              var amount := InputAmount(p, txn.meta.bidderInputs[i], ops);
              amount.Some? && bids[i] == Draft(Account(p.base58(First(ops, IsAcceptNFTBid).value.bidder), None), amount.value, InputOp)
    ensures OnlyKinds(royalties, {Coin}) && forall i :: 0 <= i < |royalties| ==> royalties[i].kind == OutputOp
    ensures AcceptNFTDrafts(p, txn, ops) == bids + royalties
  {
    hide InputAmount, BidderDrafts, FlatMap, First;
    var o := First(ops, IsAcceptNFTBid).value;
    BidderOnly(p, o.bidder, txn.meta.bidderInputs, ops);
    BiddersInOrder(p, o.bidder, txn.meta.bidderInputs, ops);
    RoyaltiesOnly(p, o.royalties);
    RoyaltiesAreOutputs(p, o.royalties);
    bids := BidderDrafts(p, o.bidder, txn.meta.bidderInputs, ops).value;
    var share := CreatorRoyaltyDraft(p, o.creator, o.creatorRoyalty, o.circulation);
    royalties := share + FlatMap(o.royalties, RoyaltyDraft(p));
  }

  lemma {:induction false} RoyaltiesAreOutputs(p: Params, rs: seq<Royalty>)
    ensures forall i :: 0 <= i < |FlatMap(rs, RoyaltyDraft(p))| ==> FlatMap(rs, RoyaltyDraft(p))[i].kind == OutputOp
  {
    if rs != [] {
      RoyaltiesAreOutputs(p, rs[..|rs| - 1]);
    }
  }
}
