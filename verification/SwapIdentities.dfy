/** Swapping identities: two creator-coin balances change places. */
module SwapIdentities {
  import opened ByteStrings
  import opened IndexState
  import opened Int64
  import opened Operations
  import opened Chain
  import opened Translation
  import opened Ledger

  function SwapDrafts(p: Params, from: Bytes, to: Bytes, f: UInt64, t: UInt64): seq<Draft> {
    SwapIdentityDrafts(p, Txn("", [], [], [], SwapIdentity(from, to)), [SwapIdentityOp(f, t)])
  }

  /** The four operations of a swap, as the generator numbers them. */
  function SwapOps(p: Params, from: Bytes, to: Bytes, f: UInt64, t: UInt64): seq<Op> {
    Number(SwapDrafts(p, from, to, f, t), 0)
  }

  /** Balances f and t change places. */
  function SwapChange(p: Params, from: Bytes, to: Bytes, f: UInt64, t: UInt64, id: PartialId): int {
    if id == IdOf(CreatorAccount(p, from)) then t - f
    else if id == IdOf(CreatorAccount(p, to)) then f - t
    else 0
  }

  lemma SwapNet(p: Params, from: Bytes, to: Bytes, f: UInt64, t: UInt64, id: PartialId)
    requires f <= MAX_INT64 && t <= MAX_INT64 && p.base58(from) != p.base58(to)
    ensures NetD(SwapDrafts(p, from, to, f, t), id) == SwapChange(p, from, to, f, t, id)
  {
    var a, b := CreatorAccount(p, from), CreatorAccount(p, to);
    var d0, d1, d2, d3 := Draft(a, 0 - f, InputOp), Draft(b, 0 - t, InputOp), Draft(a, t, OutputOp), Draft(b, f, OutputOp);
    assert First([SwapIdentityOp(f, t)], IsSwapIdentity) == Some(SwapIdentityOp(f, t));
    assert SwapDrafts(p, from, to, f, t) == [d0] + [d1] + [d2] + [d3];
    NetConcat([d0] + [d1] + [d2], [d3], id);
    NetConcat([d0] + [d1], [d2], id);
    NetConcat([d0], [d1], id);
    OneDraft(d0, id);
    OneDraft(d1, id);
    OneDraft(d2, id);
    OneDraft(d3, id);
    hide NetD;
  }

  /** Swapping identities exchanges the two creator-coin balances and leaves
      everything else alone, before and after squashing. */
  lemma SwapExchanges(p: Params, from: Bytes, to: Bytes, f: UInt64, t: UInt64, id: PartialId)
    requires f <= MAX_INT64 && t <= MAX_INT64 && p.base58(from) != p.base58(to)
    ensures Net(SwapOps(p, from, to, f, t), id) == SwapChange(p, from, to, f, t, id)
    ensures Net(Squash(SwapOps(p, from, to, f, t)), id) == SwapChange(p, from, to, f, t, id)
  {
    var ds := SwapDrafts(p, from, to, f, t);
    assert forall i :: 0 <= i < |ds| ==> IsInt64(ds[i].value);
    SwapNet(p, from, to, f, t, id);
    NumberNet(ds, 0, id);
    hide Net, NetD, Squash, SwapDrafts;
    SquashInt64(Number(ds, 0), id);
  }

  lemma SquashTwo(x: Op, y: Op)
    requires IdOf(x.account) != IdOf(y.account) && x.index == 0 && y.index == 1
    ensures Squash([x, y]) == [x, y]
  {
    SquashNone();
    SquashSnoc([], x);
    SquashSnoc([x], y);
    assert [] + [x] == [x] && [x] + [y] == [x, y];
    hide Squash;
    FirstOfIs([], IdOf(x.account), -1);
    FirstOfIs([x], IdOf(y.account), -1);
    hide FirstOf;
  }

  /** Merging a 64-bit amount into one of two operations. */
  lemma StepOfTwo(x: Op, y: Op, op: Op)
    requires IsInt64(x.value) && IsInt64(y.value) && IsInt64(op.value) && IdOf(x.account) != IdOf(y.account)
    ensures IdOf(op.account) == IdOf(x.account) && IsInt64(x.value + op.value) ==>
              SquashStep([x, y], op) == [x.(value := x.value + op.value), y]
    ensures IdOf(op.account) == IdOf(y.account) && IsInt64(y.value + op.value) ==>
              SquashStep([x, y], op) == [x, y.(value := y.value + op.value)]
  {
    hide FirstOf;
    if IdOf(op.account) == IdOf(x.account) {
      FirstOfIs([x, y], IdOf(x.account), 0);
    } else if IdOf(op.account) == IdOf(y.account) {
      FirstOfIs([x, y], IdOf(y.account), 1);
    }
  }

  /** What a swap serves: two operations, each typed as an input. */
  lemma SwapServed(p: Params, from: Bytes, to: Bytes, f: UInt64, t: UInt64)
    requires f <= MAX_INT64 && t <= MAX_INT64 && p.base58(from) != p.base58(to)
    ensures Squash(SwapOps(p, from, to, f, t)) ==
            [Op(0, Account(p.base58(from), Some("CREATOR_COIN")), t - f, InputOp),
             Op(1, Account(p.base58(to), Some("CREATOR_COIN")), f - t, InputOp)]
  {
    var a, b := Account(p.base58(from), Some("CREATOR_COIN")), Account(p.base58(to), Some("CREATOR_COIN"));
    var o0, o1, o2, o3 := Op(0, a, 0 - f, InputOp), Op(1, b, 0 - t, InputOp), Op(2, a, t, OutputOp), Op(3, b, f, OutputOp);
    hide SwapOps, Squash, SquashStep;
    SwapOpsAre(p, from, to, f, t);
    SquashTwo(o0, o1);
    SquashSnoc([o0, o1], o2);
    StepOfTwo(o0, o1, o2);
    SquashSnoc([o0, o1] + [o2], o3);
    StepOfTwo(o0.(value := t - f), o1, o3);
  }

  lemma SwapOpsAre(p: Params, from: Bytes, to: Bytes, f: UInt64, t: UInt64)
    requires f <= MAX_INT64 && t <= MAX_INT64
    ensures var a, b := Account(p.base58(from), Some("CREATOR_COIN")), Account(p.base58(to), Some("CREATOR_COIN"));
            SwapOps(p, from, to, f, t) ==
            [Op(0, a, 0 - f, InputOp), Op(1, b, 0 - t, InputOp)] + [Op(2, a, t, OutputOp)] + [Op(3, b, f, OutputOp)]
  {
    var a, b := CreatorAccount(p, from), CreatorAccount(p, to);
    var ds := [Draft(a, 0 - f, InputOp), Draft(b, 0 - t, InputOp), Draft(a, t, OutputOp), Draft(b, f, OutputOp)];
    assert First([SwapIdentityOp(f, t)], IsSwapIdentity) == Some(SwapIdentityOp(f, t));
    assert SwapDrafts(p, from, to, f, t) == ds;
    hide SwapDrafts;
  }

  /** A swap nets to zero over its two accounts, and the swap of the exchanged
      balances restores the start. */
  lemma SwapTwiceRestores(p: Params, from: Bytes, to: Bytes, f: UInt64, t: UInt64, id: PartialId)
    requires f <= MAX_INT64 && t <= MAX_INT64 && p.base58(from) != p.base58(to)
    ensures Net(Squash(SwapOps(p, from, to, f, t)), id) + Net(Squash(SwapOps(p, from, to, t, f)), id) == 0
    ensures Net(Squash(SwapOps(p, from, to, f, t)), IdOf(CreatorAccount(p, from)))
            + Net(Squash(SwapOps(p, from, to, f, t)), IdOf(CreatorAccount(p, to))) == 0
  {
    hide Net, Squash, SwapOps;
    SwapExchanges(p, from, to, f, t, id);
    SwapExchanges(p, from, to, t, f, id);
    SwapExchanges(p, from, to, f, t, IdOf(CreatorAccount(p, from)));
    SwapExchanges(p, from, to, f, t, IdOf(CreatorAccount(p, to)));
  }
}
