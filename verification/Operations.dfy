/** Rosetta operations and the squashing of a transaction's operations: one per
    account, in order of first occurrence, renumbered. */
module Operations {
  import opened IndexState
  import opened Sums
  import opened Int64

  datatype OpType = InputOp | OutputOp

  datatype Account = Account(address: string, sub: Option<string>)

  /** Accounts compare by address and sub-address; no sub-account reads as "". */
  datatype PartialId = PartialId(address: string, subAddress: string)

  function IdOf(a: Account): PartialId {
    PartialId(a.address, if a.sub.Some? then a.sub.value else "")
  }

  function MainId(address: string): PartialId {
    PartialId(address, "")
  }

  /** An operation; value is the integer its decimal amount denotes. */
  datatype Op = Op(index: int, account: Account, value: int, kind: OpType)

  function Credit(p: PartialId): Op -> int {
    (o: Op) => if IdOf(o.account) == p then o.value else 0
  }

  /** What a list of operations does to one account. */
  function Net(ops: seq<Op>, p: PartialId): int {
    Sum(ops, Credit(p))
  }

  /** Position of the first operation of an account, or -1. */
  function FirstOf(ops: seq<Op>, p: PartialId): (r: int)
    ensures -1 <= r < |ops|
  {
    if ops == [] then -1
    else
      var r := FirstOf(ops[..|ops| - 1], p);
      if r >= 0 then r else if IdOf(ops[|ops| - 1].account) == p then |ops| - 1 else -1
  }

  lemma {:induction false} FirstOfIsFirst(ops: seq<Op>, p: PartialId)
    ensures var r := FirstOf(ops, p);
            && (r >= 0 ==> IdOf(ops[r].account) == p)
            && forall i :: 0 <= i < |ops| && (r < 0 || i < r) ==> IdOf(ops[i].account) != p
  {
    if ops != [] {
      FirstOfIsFirst(ops[..|ops| - 1], p);
    }
  }

  lemma FirstOfSnoc(init: seq<Op>, op: Op, p: PartialId)
    ensures FirstOf(init + [op], p) ==
            if FirstOf(init, p) >= 0 then FirstOf(init, p) else if IdOf(op.account) == p then |init| else -1
  {
    assert (init + [op])[..|init|] == init;
  }

  /** FirstOf is determined by what it promises. */
  lemma FirstOfIs(ops: seq<Op>, p: PartialId, r: int)
    requires -1 <= r < |ops| && (r >= 0 ==> IdOf(ops[r].account) == p)
    requires forall i :: 0 <= i < |ops| && (r < 0 || i < r) ==> IdOf(ops[i].account) != p
    ensures FirstOf(ops, p) == r
  {
    FirstOfIsFirst(ops, p);
    hide FirstOf;
  }

  // ---------------------------------------------------------------- squashing

  /** One round of the merge loop. */
  function SquashStep(s: seq<Op>, op: Op): seq<Op> {
    var i := FirstOf(s, IdOf(op.account));
    if i >= 0
    then s[i := s[i].(value := Wrap64(ParseInt64(s[i].value) + ParseInt64(op.value)))]
    else s + [op.(index := |s|)]
  }

  function Squash(ops: seq<Op>): seq<Op> {
    if ops == [] then [] else SquashStep(Squash(ops[..|ops| - 1]), ops[|ops| - 1])
  }

  lemma SquashSnoc(init: seq<Op>, op: Op)
    ensures Squash(init + [op]) == SquashStep(Squash(init), op)
  {
    assert (init + [op])[..|init|] == init;
  }

  lemma SquashNone()
    ensures Squash([]) == []
  {
  }

  /** Distinct accounts, numbered 0..n-1: what squashing produces and leaves alone. */
  ghost predicate Squashed(s: seq<Op>) {
    && (forall i :: 0 <= i < |s| ==> s[i].index == i)
    && (forall i, j :: 0 <= i < j < |s| ==> IdOf(s[i].account) != IdOf(s[j].account))
  }

  /** One round keeps accounts distinct and leaves every account where it first was. */
  lemma StepShape(s: seq<Op>, op: Op, p: PartialId)
    requires Squashed(s)
    ensures Squashed(SquashStep(s, op))
    ensures FirstOf(SquashStep(s, op), p) == FirstOf(s + [op], p)
  {
    FirstOfSnoc(s, op, p);
    FirstOfIsFirst(s + [op], p);
    FirstOfIsFirst(s, IdOf(op.account));
    hide FirstOf;
    var i, r := FirstOf(s, IdOf(op.account)), SquashStep(s, op);
    assert forall j :: 0 <= j < |s| ==> r[j].account == s[j].account;
    assert forall j :: 0 <= j < |r| ==> r[j].account == (s + [op])[j].account;
    FirstOfIs(r, p, FirstOf(s + [op], p));
  }

  /** s lists the accounts of ops in the order in which they first occur, each
      with the account and type of its first operation. */
  ghost predicate FirstOccurrences(s: seq<Op>, ops: seq<Op>) {
    && (forall p :: FirstOf(s, p) >= 0 <==> FirstOf(ops, p) >= 0)
    && (forall i :: 0 <= i < |s| ==> Leads(s[i], ops))
    && Rising(Ranks(s, ops))
  }

  ghost function Ranks(s: seq<Op>, ops: seq<Op>): (r: seq<int>)
    ensures |r| == |s|
  {
    seq(|s|, i requires 0 <= i < |s| => FirstOf(ops, IdOf(s[i].account)))
  }

  ghost predicate Rising(r: seq<int>) {
    forall i, j :: 0 <= i < j < |r| ==> r[i] < r[j]
  }

  ghost predicate Leads(o: Op, ops: seq<Op>) {
    var f := FirstOf(ops, IdOf(o.account));
    f >= 0 && o.account == ops[f].account && o.kind == ops[f].kind
  }

  lemma StepOccurrences(s: seq<Op>, init: seq<Op>, op: Op)
    requires Squashed(s) && FirstOccurrences(s, init)
    ensures FirstOccurrences(SquashStep(s, op), init + [op])
  {
    var r, ops := SquashStep(s, op), init + [op];
    hide FirstOf, Leads, Rising, Squashed;
    forall p ensures FirstOf(r, p) >= 0 <==> FirstOf(ops, p) >= 0 {
      StepAccounts(s, init, op, p);
    }
    forall i | 0 <= i < |r| ensures Leads(r[i], ops) {
      if i < |s| {
        StillLeads(s, init, op, i);
      } else {
        NewLeads(init, op, r[i]);
      }
    }
    StepRanks(s, init, op);
  }

  lemma StepAccounts(s: seq<Op>, init: seq<Op>, op: Op, p: PartialId)
    requires Squashed(s) && (FirstOf(s, p) >= 0 <==> FirstOf(init, p) >= 0)
    ensures FirstOf(SquashStep(s, op), p) >= 0 <==> FirstOf(init + [op], p) >= 0
  {
    StepShape(s, op, p);
    FirstOfSnoc(init, op, p);
    FirstOfSnoc(s, op, p);
    hide FirstOf;
  }

  /** A new account ranks after all the others. */
  lemma StepRanks(s: seq<Op>, init: seq<Op>, op: Op)
    requires FirstOccurrences(s, init)
    ensures Rising(Ranks(SquashStep(s, op), init + [op]))
  {
    var r, ops := SquashStep(s, op), init + [op];
    forall i | 0 <= i < |s| ensures Ranks(r, ops)[i] == Ranks(s, init)[i] {
      StillLeads(s, init, op, i);
    }
    if FirstOf(s, IdOf(op.account)) < 0 {
      FirstOfSnoc(init, op, IdOf(op.account));
      assert Ranks(r, ops)[|s|] == |init|;
    }
    RisingSnoc(Ranks(s, init), Ranks(r, ops), |init|);
  }

  lemma RisingSnoc(a: seq<int>, b: seq<int>, n: int)
    requires Rising(a) && |a| <= |b| <= |a| + 1
    requires forall i :: 0 <= i < |a| ==> b[i] == a[i] < n
    requires |b| == |a| + 1 ==> b[|a|] == n
    ensures Rising(b)
  {
  }

  lemma NewLeads(init: seq<Op>, op: Op, o: Op)
    requires o.account == op.account && o.kind == op.kind && FirstOf(init, IdOf(op.account)) < 0
    ensures Leads(o, init + [op])
  {
    FirstOfSnoc(init, op, IdOf(op.account));
  }

  lemma StillLeads(s: seq<Op>, init: seq<Op>, op: Op, i: nat)
    requires i < |s| && Leads(s[i], init)
    ensures i < |SquashStep(s, op)| && SquashStep(s, op)[i].account == s[i].account
    ensures Leads(SquashStep(s, op)[i], init + [op])
    ensures FirstOf(init + [op], IdOf(s[i].account)) == FirstOf(init, IdOf(s[i].account))
  {
    FirstOfSnoc(init, op, IdOf(s[i].account));
    hide FirstOf;
  }

  /** Squashing leaves each account exactly once, in the order in which the
      accounts first occur, with the account and the type of that first
      operation, numbered 0..n-1. */
  lemma {:induction false} SquashShape(ops: seq<Op>)
    ensures Squashed(Squash(ops)) && FirstOccurrences(Squash(ops), ops)
  {
    if ops != [] {
      var init, op := ops[..|ops| - 1], ops[|ops| - 1];
      assert ops == init + [op];
      SquashShape(init);
      StepShape(Squash(init), op, IdOf(op.account));
      StepOccurrences(Squash(init), init, op);
    }
  }

  ghost predicate AllInt64(ops: seq<Op>, p: PartialId) {
    forall i :: 0 <= i < |ops| && IdOf(ops[i].account) == p ==> IsInt64(ops[i].value)
  }

  lemma NetSnoc(init: seq<Op>, op: Op, p: PartialId)
    ensures Net(init + [op], p) == Net(init, p) + if IdOf(op.account) == p then op.value else 0
  {
    assert (init + [op])[..|init|] == init;
  }

  /** What one round does to the squashed sum of an account. */
  lemma StepNet(s: seq<Op>, op: Op, p: PartialId)
    requires Squashed(s)
    ensures Squashed(SquashStep(s, op))
    ensures Net(SquashStep(s, op), p) ==
            if IdOf(op.account) != p then Net(s, p)
            else if FirstOf(s, p) < 0 then op.value
            else Wrap64(ParseInt64(Net(s, p)) + ParseInt64(op.value))
  {
    hide FirstOf, Net, Squashed, Wrap64, ParseInt64, SquashStep;
    StepShape(s, op, p);
    SquashedNet(s, p);
    SquashedNet(SquashStep(s, op), p);
    StepValue(s, op, p);
  }

  /** What one round does to the amount of an account's operation. */
  lemma StepValue(s: seq<Op>, op: Op, p: PartialId)
    requires Squashed(s)
    ensures var r, i := SquashStep(s, op), FirstOf(SquashStep(s, op), p);
            && (i >= 0 <==> FirstOf(s, p) >= 0 || IdOf(op.account) == p)
            && (i >= 0 && FirstOf(s, p) < 0 ==> r[i].value == op.value)
            && (FirstOf(s, p) >= 0 ==>
                  i == FirstOf(s, p)
                  && r[i].value == if IdOf(op.account) != p then s[i].value
                                   else Wrap64(ParseInt64(s[i].value) + ParseInt64(op.value)))
  {
    StepShape(s, op, p);
    FirstOfSnoc(s, op, p);
    FirstOfIsFirst(s, p);
    FirstOfIsFirst(s, IdOf(op.account));
    hide FirstOf, Squashed, Wrap64, ParseInt64;
  }

  /** The number of operations of an account. */
  function Count(ops: seq<Op>, p: PartialId): int {
    Sum(ops, OneOf(p))
  }

  function OneOf(p: PartialId): Op -> int {
    (o: Op) => if IdOf(o.account) == p then 1 else 0
  }

  /** The sum of an account's amounts as the merge parses them. */
  function ParsedNet(ops: seq<Op>, p: PartialId): int {
    Sum(ops, ParsedCredit(p))
  }

  function ParsedCredit(p: PartialId): Op -> int {
    (o: Op) => if IdOf(o.account) == p then ParseInt64(o.value) else 0
  }

  lemma {:induction false} CountCases(ops: seq<Op>, p: PartialId)
    ensures Count(ops, p) >= 0
    ensures Count(ops, p) == 0 <==> FirstOf(ops, p) < 0
    ensures Count(ops, p) == 0 ==> Net(ops, p) == ParsedNet(ops, p) == 0
    ensures Count(ops, p) == 1 ==> ParsedNet(ops, p) == ParseInt64(Net(ops, p))
  {
    if ops != [] {
      CountCases(ops[..|ops| - 1], p);
    }
  }

  /** What one more operation adds. */
  lemma CountSnoc(init: seq<Op>, op: Op, p: PartialId)
    ensures Count(init + [op], p) == Count(init, p) + if IdOf(op.account) == p then 1 else 0
    ensures ParsedNet(init + [op], p) == ParsedNet(init, p) + if IdOf(op.account) == p then ParseInt64(op.value) else 0
  {
    assert (init + [op])[..|init|] == init;
  }

  /** What squashing makes of an account, for every list of operations: a lone
      operation passes through; two or more leave the wrapped sum of what their
      amounts parse to, however the partial sums wrapped on the way. */
  lemma {:induction false} SquashLaw(ops: seq<Op>, p: PartialId)
    ensures Net(Squash(ops), p) == if Count(ops, p) <= 1 then Net(ops, p) else Wrap64(ParsedNet(ops, p))
  {
    hide Net, Count, ParsedNet, Squash, Wrap64, ParseInt64, SquashStep;
    if ops == [] {
      SquashNothing(p);
    } else {
      var init, op := ops[..|ops| - 1], ops[|ops| - 1];
      assert ops == init + [op];
      SquashLaw(init, p);
      SquashNext(init, op, p);
      NetSnoc(init, op, p);
      CountSnoc(init, op, p);
      CountCases(init, p);
      WrapAdd(ParsedNet(init, p), ParseInt64(op.value));
    }
  }

  lemma SquashNothing(p: PartialId)
    ensures Squash([]) == [] && Net([], p) == Count([], p) == 0
  {
  }

  lemma SquashNext(init: seq<Op>, op: Op, p: PartialId)
    ensures Net(Squash(init + [op]), p) ==
            if IdOf(op.account) != p then Net(Squash(init), p)
            else if Count(init, p) == 0 then op.value
            else Wrap64(ParseInt64(Net(Squash(init), p)) + ParseInt64(op.value))
  {
    hide Net, Count, Squash, Wrap64, ParseInt64, SquashStep, Leads, Rising;
    SquashShape(init);
    SquashSnoc(init, op);
    CountCases(init, p);
    StepNet(Squash(init), op, p);
  }

  lemma SquashedNet(s: seq<Op>, p: PartialId)
    requires Squashed(s)
    ensures Net(s, p) == if FirstOf(s, p) >= 0 then s[FirstOf(s, p)].value else 0
  {
    var i := FirstOf(s, p);
    FirstOfIsFirst(s, p);
    if i >= 0 {
      SumOnly(s, Credit(p), i);
    } else {
      SumZero(s, Credit(p));
    }
  }

  /** Squashing keeps an account's sum exactly when it has at most one operation,
      or the sum is a 64-bit number and what parsing cut off its amounts is a
      multiple of 2^64 (nothing, for 64-bit amounts). */
  lemma SquashExactWhen(ops: seq<Op>, p: PartialId)
    ensures Net(Squash(ops), p) == Net(ops, p) <==>
            Count(ops, p) <= 1
            || (IsInt64(Net(ops, p)) && (Net(ops, p) - ParsedNet(ops, p)) % 0x1_0000_0000_0000_0000 == 0)
  {
    hide Net, Squash, Count, ParsedNet;
    SquashLaw(ops, p);
    WrapsTo(Net(ops, p), ParsedNet(ops, p));
  }

  lemma {:induction false} ParsedInt64(ops: seq<Op>, p: PartialId)
    requires AllInt64(ops, p)
    ensures ParsedNet(ops, p) == Net(ops, p)
    ensures Count(ops, p) <= 1 ==> IsInt64(Net(ops, p))
  {
    if ops != [] {
      ParsedInt64(ops[..|ops| - 1], p);
      CountCases(ops[..|ops| - 1], p);
    }
  }

  /** For 64-bit amounts the squashed amount is the wrapped true sum. */
  lemma SquashInt64(ops: seq<Op>, p: PartialId)
    requires AllInt64(ops, p)
    ensures Net(Squash(ops), p) == Wrap64(Net(ops, p))
  {
    hide Net, Squash, Count, ParsedNet;
    SquashLaw(ops, p);
    ParsedInt64(ops, p);
  }

  /** An account's only operation is passed through, whatever its amount. */
  lemma {:induction false} SquashSingle(ops: seq<Op>, k: nat)
    requires k < |ops|
    requires forall i :: 0 <= i < |ops| && i != k ==> IdOf(ops[i].account) != IdOf(ops[k].account)
    ensures Net(Squash(ops), IdOf(ops[k].account)) == ops[k].value
  {
    hide FirstOf, Wrap64, ParseInt64, Squashed, Net;
    var p := IdOf(ops[k].account);
    var init, op := ops[..|ops| - 1], ops[|ops| - 1];
    assert ops == init + [op];
    assert forall i :: 0 <= i < |init| ==> init[i] == ops[i];
    SquashShape(init);
    SquashSnoc(init, op);
    StepNet(Squash(init), op, p);
    if k < |ops| - 1 {
      SquashSingle(init, k);
    } else {
      FirstOfIsFirst(init, p);
      assert forall i :: 0 <= i < |init| ==> IdOf(init[i].account) != p;
    }
  }

  /** Amounts of 2^63 and more are clamped when they meet another operation. */
  lemma SquashClampsLargeAmounts(a: Account)
    ensures var ops := [Op(0, a, MAX_INT64 + 1, OutputOp)] + [Op(1, a, -MAX_INT64, InputOp)];
            Net(ops, IdOf(a)) == 1 && Net(Squash(ops), IdOf(a)) == 0
  {
    var x, y, p := Op(0, a, MAX_INT64 + 1, OutputOp), Op(1, a, -MAX_INT64, InputOp), IdOf(a);
    SumOnly([x], Credit(p), 0);
    NetSnoc([x], y, p);
    assert FirstOf([x], p) == 0;
    SquashFixpoint([x]);
    SquashSnoc([x], y);
    StepNet([x], y, p);
  }

  // ---------------------------------------------------------------- squashing in pieces

  function SquashFrom(s: seq<Op>, ops: seq<Op>): seq<Op> {
    if ops == [] then s else SquashStep(SquashFrom(s, ops[..|ops| - 1]), ops[|ops| - 1])
  }

  lemma {:induction false} SquashConcat(xs: seq<Op>, ys: seq<Op>)
    ensures Squash(xs + ys) == SquashFrom(Squash(xs), ys)
  {
    if ys == [] {
      assert xs + ys == xs;
    } else {
      assert (xs + ys)[..|xs + ys| - 1] == xs + ys[..|ys| - 1];
      SquashConcat(xs, ys[..|ys| - 1]);
    }
  }

  /** What is squashed already is left as it is. */
  lemma {:induction false} SquashFixpoint(s: seq<Op>)
    requires Squashed(s)
    ensures Squash(s) == s
  {
    if s != [] {
      var init, op := s[..|s| - 1], s[|s| - 1];
      SquashFixpoint(init);
      FirstOfIsFirst(init, IdOf(op.account));
      hide FirstOf;
      assert s == init + [op];
      assert FirstOf(init, IdOf(op.account)) < 0;
    }
  }

  /** Squashing is idempotent, and squashing a squashed head with a tail is
      squashing the whole. */
  lemma SquashInPieces(xs: seq<Op>, ys: seq<Op>)
    ensures Squash(Squash(xs)) == Squash(xs)
    ensures Squash(Squash(xs) + ys) == Squash(xs + ys)
  {
    SquashShape(xs);
    SquashFixpoint(Squash(xs));
    SquashConcat(xs, ys);
    SquashConcat(Squash(xs), ys);
  }
}
