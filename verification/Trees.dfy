/** From one plain transaction to trees of wrapped transactions, and through
    squashing: the operations of a whole tree against its recorded effects. */
module Trees {
  import opened ByteStrings
  import opened Sums
  import opened Int64
  import opened Operations
  import opened Chain
  import opened Translation
  import opened Ledger

  // ---------------------------------------------------------------- weights of operations

  function OpWeight(w: Weight): Op -> int {
    (o: Op) => if IdOf(o.account).subAddress == "" then w(o.account.address, o.value, o.kind) else 0
  }

  /** The weight of what a list of operations does to main accounts. */
  function WeighOps(ops: seq<Op>, w: Weight): int {
    Sum(ops, OpWeight(w))
  }

  lemma NumberWeight(ds: seq<Draft>, n: nat, w: Weight)
    ensures WeighOps(Number(ds, n), w) == Weigh(ds, w)
  {
    SumPointwise(Number(ds, n), ds, OpWeight(w), MainWeight(w));
  }

  lemma WeightIsNet(ops: seq<Op>, a: string)
    ensures WeighOps(ops, At(a)) == Net(ops, MainId(a))
  {
    SumPointwise(ops, ops, OpWeight(At(a)), Credit(MainId(a)));
  }

  /** The weights that count an address's amounts as the merge parses them, and its
      operations. */
  function ParsedAt(a: string): Weight {
    (b: string, x: int, k: OpType) => if b == a then ParseInt64(x) else 0
  }

  function CountAt(a: string): Weight {
    (b: string, x: int, k: OpType) => if b == a then 1 else 0
  }

  lemma WeightIsParsed(ops: seq<Op>, a: string)
    ensures WeighOps(ops, ParsedAt(a)) == ParsedNet(ops, MainId(a))
  {
    hide ParseInt64;
    SumPointwise(ops, ops, OpWeight(ParsedAt(a)), ParsedCredit(MainId(a)));
  }

  lemma WeightIsCount(ops: seq<Op>, a: string)
    ensures WeighOps(ops, CountAt(a)) == Count(ops, MainId(a))
  {
    SumPointwise(ops, ops, OpWeight(CountAt(a)), OneOf(MainId(a)));
  }

  /** What squashing makes of an account with this many operations, this sum, and
      this sum of parsed amounts. */
  function Merged(count: int, net: int, parsed: int): int {
    if count <= 1 then net else Wrap64(parsed)
  }

  /** So what squashed operations do to a main account follows from three weights. */
  lemma SquashedWeights(ops: seq<Op>, a: string)
    ensures Net(Squash(ops), MainId(a))
            == Merged(WeighOps(ops, CountAt(a)), WeighOps(ops, At(a)), WeighOps(ops, ParsedAt(a)))
  {
    hide Net, Squash, WeighOps, Count, ParsedNet, Wrap64;
    SquashLaw(ops, MainId(a));
    WeightIsNet(ops, a);
    WeightIsParsed(ops, a);
    WeightIsCount(ops, a);
  }

  // ---------------------------------------------------------------- wrappers

  /** An effect that leaves main balances alone. */
  predicate Inert(o: UtxoOp) {
    !o.SpendUtxo? && !o.AddUtxo? && !o.SpendBalance? && !o.AddBalance? && !o.PayToBalance? && !o.AtomicWrapperOp?
  }

  ghost predicate OneWrapper(ops: seq<UtxoOp>) {
    exists w :: 0 <= w < |ops| && ops[w].AtomicWrapperOp? && forall i :: 0 <= i < |ops| && i != w ==> Inert(ops[i])
  }

  lemma {:induction false} InertList(p: Params, ops: seq<UtxoOp>, n: int, w: Weight)
    requires forall i :: 0 <= i < |ops| && i != n ==> Inert(ops[i])
    ensures LedgerOfList(p, ops, w) == if 0 <= n < |ops| then LedgerOf(p, ops[n], w) else 0
  {
    if ops != [] {
      InertList(p, ops[..|ops| - 1], n, w);
    }
  }

  /** A wrapper's own list means what its inner lists mean. */
  lemma WrapperLedger(p: Params, ops: seq<UtxoOp>, w: Weight)
    requires OneWrapper(ops)
    ensures LedgerOfList(p, ops, w) == LedgerOfLists(p, InnerLists(ops), w)
  {
    var n :| 0 <= n < |ops| && ops[n].AtomicWrapperOp? && forall i :: 0 <= i < |ops| && i != n ==> Inert(ops[i]);
    InertList(p, ops, n, w);
    WrapperFound(ops, n);
  }

  lemma WrapperFound(ops: seq<UtxoOp>, n: nat)
    requires n < |ops| && ops[n].AtomicWrapperOp? && forall i :: 0 <= i < |ops| && i != n ==> Inert(ops[i])
    ensures InnerLists(ops) == ops[n].inner
  {
    var o := First(ops, IsAtomicWrapper);
    assert ops[n] in ops;
    assert o.Some?;
    var i :| 0 <= i < |ops| && ops[i] == o.value;
    assert i == n;
  }

  /** What a wrapper's own list says besides its first wrapper effect. None of it is
      translated. */
  function Besides(p: Params, ops: seq<UtxoOp>, w: Weight): int {
    if ops == [] then 0
    else
      var init, o := ops[..|ops| - 1], ops[|ops| - 1];
      Besides(p, init, w)
      + if IsAtomicWrapper(o) && First(init, IsAtomicWrapper).None? then 0 else LedgerOf(p, o, w)
  }

  lemma {:induction false} WrapperSays(p: Params, ops: seq<UtxoOp>, w: Weight)
    ensures LedgerOfList(p, ops, w) == LedgerOfLists(p, InnerLists(ops), w) + Besides(p, ops, w)
  {
    if ops != [] {
      WrapperSays(p, ops[..|ops| - 1], w);
    }
  }

  /** By how much the translation of a tree is off: through inputs anywhere in it that
      the map does not have, and, at wrappers, through what the own list says besides
      the wrapper effect and through inner lists that do not match in number. */
  function TreeMissing(p: Params, txn: Txn, ops: seq<UtxoOp>, spent: map<UtxoKey, UInt64>, w: Weight): int
    decreases txn, 1
  {
    match txn.meta
    case AtomicWrapper(txns) =>
      (if |InnerLists(ops)| != |txns| then 0 - LedgerOfLists(p, InnerLists(ops), w)
       else TreesMissing(p, txns, InnerLists(ops), spent, w))
      - Besides(p, ops, w)
    case _ => Missing(p, txn, ops, spent, w)
  }

  function TreesMissing(p: Params, txns: seq<Txn>, lists: seq<OpList>, spent: map<UtxoKey, UInt64>, w: Weight): int
    requires |lists| == |txns|
    decreases txns, 0
  {
    if txns == [] then 0
    else
      TreesMissing(p, txns[..|txns| - 1], lists[..|txns| - 1], spent, w)
      + TreeMissing(p, txns[|txns| - 1], lists[|txns| - 1].ops, spent, w)
  }

  /** Ledger meaning survives nesting: for every transaction tree that its recorded
      effects account for, and under every weight, the translated operations do to
      main accounts what the effects do, plus what is missing. */
  lemma {:induction false} TreeLedger(p: Params, balanceModel: bool, txn: Txn, ops: seq<UtxoOp>,
                                      spent: map<UtxoKey, UInt64>, w: Weight)
    requires Accounts(p, balanceModel, txn, ops)
    ensures WeighOps(OpsOf(p, balanceModel, txn, ops, spent), w)
            == LedgerOfList(p, ops, w) + TreeMissing(p, txn, ops, spent, w)
    decreases txn, 1
  {
    hide LedgerOfList, LedgerOfLists, InnerLists, LeafAccounts, LeafDrafts, WeighOps, Missing, Besides;
    match txn.meta
    case AtomicWrapper(txns) =>
      WrapperSays(p, ops, w);
      if |InnerLists(ops)| == |txns| {
        TreesLedger(p, balanceModel, txns, InnerLists(ops), spent, w);
      } else {
        NoWeight(w);
      }
    case _ =>
      LeafLedger(p, balanceModel, txn, ops, spent, w);
      NumberWeight(LeafDrafts(p, balanceModel, txn, ops, spent), 0, w);
  }

  lemma NoWeight(w: Weight)
    ensures WeighOps([], w) == 0
  {
  }

  lemma {:induction false} TreesLedger(p: Params, balanceModel: bool, txns: seq<Txn>, lists: seq<OpList>,
                                       spent: map<UtxoKey, UInt64>, w: Weight)
    requires |lists| == |txns| && AccountsAll(p, balanceModel, txns, lists)
    ensures WeighOps(OpsOfAll(p, balanceModel, txns, lists, spent), w)
            == LedgerOfLists(p, lists, w) + TreesMissing(p, txns, lists, spent, w)
    decreases txns, 0
  {
    NoSum(OpWeight(w));
    if txns != [] {
      hide Sum, OpsOf, TreeMissing, Accounts, LedgerOfList;
      var n := |txns| - 1;
      TreesLedger(p, balanceModel, txns[..n], lists[..n], spent, w);
      TreeLedger(p, balanceModel, txns[n], lists[n].ops, spent, w);
      SumConcat(OpsOfAll(p, balanceModel, txns[..n], lists[..n], spent),
                OpsOf(p, balanceModel, txns[n], lists[n].ops, spent), OpWeight(w));
    }
  }

  // ---------------------------------------------------------------- exactly once

  lemma NothingBesides(p: Params, ops: seq<UtxoOp>, w: Weight)
    requires OneWrapper(ops)
    ensures Besides(p, ops, w) == 0
  {
    hide LedgerOfList, LedgerOfLists, InnerLists, Besides, OneWrapper;
    WrapperLedger(p, ops, w);
    WrapperSays(p, ops, w);
  }

  /** A wrapper that is translated in full: as many inner lists as transactions, and
      nothing else about main balances in its own list. */
  ghost predicate FullWrapper(txns: seq<Txn>, ops: seq<UtxoOp>) {
    OneWrapper(ops) && |InnerLists(ops)| == |txns|
  }

  /** A tree of which nothing is missing. */
  ghost predicate KnownInside(p: Params, txn: Txn, ops: seq<UtxoOp>, spent: map<UtxoKey, UInt64>)
    decreases txn, 1
  {
    match txn.meta
    case AtomicWrapper(txns) => FullWrapper(txns, ops) && KnownInsideAll(p, txns, InnerLists(ops), spent)
    case _ => Plain(p, txn, ops, spent)
  }

  ghost predicate KnownInsideAll(p: Params, txns: seq<Txn>, lists: seq<OpList>, spent: map<UtxoKey, UInt64>)
    requires |lists| == |txns|
    decreases txns, 0
  {
    txns == [] ||
    (KnownInsideAll(p, txns[..|txns| - 1], lists[..|txns| - 1], spent)
     && KnownInside(p, txns[|txns| - 1], lists[|txns| - 1].ops, spent))
  }

  lemma {:induction false} KnownTree(p: Params, balanceModel: bool, txn: Txn, ops: seq<UtxoOp>,
                                     spent: map<UtxoKey, UInt64>, w: Weight)
    requires Accounts(p, balanceModel, txn, ops) && KnownInside(p, txn, ops, spent)
    ensures TreeMissing(p, txn, ops, spent, w) == 0
    decreases txn, 1
  {
    hide InnerLists, OneWrapper, Missing, Plain, LeafAccounts, Besides;
    match txn.meta
    case AtomicWrapper(txns) =>
      NothingBesides(p, ops, w);
      KnownTrees(p, balanceModel, txns, InnerLists(ops), spent, w);
    case _ => KnownNotMissing(p, balanceModel, txn, ops, spent, w);
  }

  lemma {:induction false} KnownTrees(p: Params, balanceModel: bool, txns: seq<Txn>, lists: seq<OpList>,
                                      spent: map<UtxoKey, UInt64>, w: Weight)
    requires |lists| == |txns| && AccountsAll(p, balanceModel, txns, lists) && KnownInsideAll(p, txns, lists, spent)
    ensures TreesMissing(p, txns, lists, spent, w) == 0
    decreases txns, 0
  {
    if txns != [] {
      KnownTrees(p, balanceModel, txns[..|txns| - 1], lists[..|txns| - 1], spent, w);
      KnownTree(p, balanceModel, txns[|txns| - 1], lists[|txns| - 1].ops, spent, w);
    }
  }

  /** Money that moves at an address, signed, as an input or as an output. */
  datatype Transfer = Transfer(address: string, amount: int, kind: OpType)

  function TransferOf(): Op -> seq<Transfer> {
    (o: Op) => if IdOf(o.account).subAddress == "" then [Transfer(o.account.address, o.value, o.kind)] else []
  }

  /** What a list of operations moves on main accounts, operation by operation. */
  function Transfers(ops: seq<Op>): seq<Transfer> {
    FlatMap(ops, TransferOf())
  }

  /** What recorded effects move, effect by effect. */
  function EffectsOf(p: Params, o: UtxoOp): seq<Transfer>
    decreases o, 0
  {
    match o
    case SpendUtxo(e) => [Transfer(p.base58(e.owner), 0 - e.amount, InputOp)]
    case AddUtxo(e) => if e.Some? then [Transfer(p.base58(e.value.owner), e.value.amount, OutputOp)] else []
    case SpendBalance(pk, x) => [Transfer(p.base58(pk), 0 - x, InputOp)]
    case AddBalance(pk, x) => [Transfer(p.base58(pk), x, OutputOp)]
    case PayToBalance(pk, x) => [Transfer(p.base58(pk), x, OutputOp)]
    case AtomicWrapperOp(inner) => EffectsOfLists(p, inner)
    case _ => []
  }

  function EffectsOfList(p: Params, ops: seq<UtxoOp>): seq<Transfer>
    decreases ops, 1
  {
    if ops == [] then [] else EffectsOfList(p, ops[..|ops| - 1]) + EffectsOf(p, ops[|ops| - 1])
  }

  function EffectsOfLists(p: Params, lists: seq<OpList>): seq<Transfer>
    decreases lists, 2
  {
    if lists == [] then [] else EffectsOfLists(p, lists[..|lists| - 1]) + EffectsOfList(p, lists[|lists| - 1].ops)
  }

  function TransferWeight(w: Weight): Transfer -> int {
    (t: Transfer) => w(t.address, t.amount, t.kind)
  }

  lemma {:induction false} EffectsWeigh(p: Params, o: UtxoOp, w: Weight)
    ensures Sum(EffectsOf(p, o), TransferWeight(w)) == LedgerOf(p, o, w)
    decreases o, 0
  {
    hide Sum;
    NoSum(TransferWeight(w));
    if o.AtomicWrapperOp? {
      ListsWeigh(p, o.inner, w);
    } else {
      var ts := EffectsOf(p, o);
      if |ts| == 1 {
        OneSum(ts[0], TransferWeight(w));
      }
    }
  }

  lemma {:induction false} ListWeighs(p: Params, ops: seq<UtxoOp>, w: Weight)
    ensures Sum(EffectsOfList(p, ops), TransferWeight(w)) == LedgerOfList(p, ops, w)
    decreases ops, 1
  {
    hide Sum, EffectsOf, LedgerOf;
    NoSum(TransferWeight(w));
    if ops != [] {
      ListWeighs(p, ops[..|ops| - 1], w);
      EffectsWeigh(p, ops[|ops| - 1], w);
      SumConcat(EffectsOfList(p, ops[..|ops| - 1]), EffectsOf(p, ops[|ops| - 1]), TransferWeight(w));
    }
  }

  lemma {:induction false} ListsWeigh(p: Params, lists: seq<OpList>, w: Weight)
    ensures Sum(EffectsOfLists(p, lists), TransferWeight(w)) == LedgerOfLists(p, lists, w)
    decreases lists, 2
  {
    hide Sum, EffectsOfList, LedgerOfList;
    NoSum(TransferWeight(w));
    if lists != [] {
      ListsWeigh(p, lists[..|lists| - 1], w);
      ListWeighs(p, lists[|lists| - 1].ops, w);
      SumConcat(EffectsOfLists(p, lists[..|lists| - 1]), EffectsOfList(p, lists[|lists| - 1].ops), TransferWeight(w));
    }
  }

  lemma TransfersWeigh(ops: seq<Op>, w: Weight)
    ensures Sum(Transfers(ops), TransferWeight(w)) == WeighOps(ops, w)
  {
    hide Sum, FlatMap;
    NoSum(TransferWeight(w));
    forall i | 0 <= i < |ops| ensures Sum(TransferOf()(ops[i]), TransferWeight(w)) == OpWeight(w)(ops[i]) {
      if TransferOf()(ops[i]) != [] {
        OneSum(TransferOf()(ops[i])[0], TransferWeight(w));
      }
    }
    SumFlatMap(ops, TransferOf(), TransferWeight(w), OpWeight(w));
  }

  /** The weight that counts one movement. */
  function Exactly(t: Transfer): Weight {
    (b: string, x: int, k: OpType) => if Transfer(b, x, k) == t then 1 else 0
  }

  lemma {:induction false} WeightCounts(ts: seq<Transfer>, t: Transfer)
    ensures Sum(ts, TransferWeight(Exactly(t))) == multiset(ts)[t]
  {
    if ts != [] {
      WeightCounts(ts[..|ts| - 1], t);
      assert ts == ts[..|ts| - 1] + [ts[|ts| - 1]];
      assert TransferWeight(Exactly(t))(ts[|ts| - 1]) == if ts[|ts| - 1] == t then 1 else 0;
    }
  }

  /** Every spent, added or paid amount is in exactly one operation, and every
      operation on a main account is one of them: for every transaction tree of
      which nothing is missing, operations and effects move the same amounts at the same
      addresses, as multisets, spends as inputs and additions as outputs. */
  lemma EffectsExactlyOnce(p: Params, balanceModel: bool, txn: Txn, ops: seq<UtxoOp>, spent: map<UtxoKey, UInt64>)
    requires Accounts(p, balanceModel, txn, ops) && KnownInside(p, txn, ops, spent)
    ensures multiset(Transfers(OpsOf(p, balanceModel, txn, ops, spent))) == multiset(EffectsOfList(p, ops))
  {
    hide Transfers, OpsOf, EffectsOfList, Accounts, KnownInside;
    forall t ensures multiset(Transfers(OpsOf(p, balanceModel, txn, ops, spent)))[t] == multiset(EffectsOfList(p, ops))[t] {
      var translated := OpsOf(p, balanceModel, txn, ops, spent);
      TreeLedger(p, balanceModel, txn, ops, spent, Exactly(t));
      KnownTree(p, balanceModel, txn, ops, spent, Exactly(t));
      TransfersWeigh(translated, Exactly(t));
      ListWeighs(p, ops, Exactly(t));
      WeightCounts(Transfers(translated), t);
      WeightCounts(EffectsOfList(p, ops), t);
    }
  }

  // ---------------------------------------------------------------- wrapped inputs

  /** A plain transaction that misses its inputs and nothing else. */
  ghost predicate Bare(p: Params, txn: Txn, ops: seq<UtxoOp>, spent: map<UtxoKey, UInt64>) {
    && (forall k :: k in txn.inputs ==> k !in spent) && AllSmall(ops) && GenesisRecorded(p, txn, ops)
    && forall i :: 0 <= i < |ops| ==> !ops[i].AtomicWrapperOp?
  }

  /** No input anywhere in the tree is in the map; nothing else is missing. */
  ghost predicate AbsentInside(p: Params, txn: Txn, ops: seq<UtxoOp>, spent: map<UtxoKey, UInt64>)
    decreases txn, 1
  {
    match txn.meta
    case AtomicWrapper(txns) => FullWrapper(txns, ops) && AbsentInsideAll(p, txns, InnerLists(ops), spent)
    case _ => Bare(p, txn, ops, spent)
  }

  ghost predicate AbsentInsideAll(p: Params, txns: seq<Txn>, lists: seq<OpList>, spent: map<UtxoKey, UInt64>)
    requires |lists| == |txns|
    decreases txns, 0
  {
    txns == [] ||
    (AbsentInsideAll(p, txns[..|txns| - 1], lists[..|txns| - 1], spent)
     && AbsentInside(p, txns[|txns| - 1], lists[|txns| - 1].ops, spent))
  }

  function OwnedInput(p: Params, pk: Bytes, ops: seq<UtxoOp>, a: string): UtxoKey -> int {
    (k: UtxoKey) => Owned(p, pk, a, Recorded(ops, k))
  }

  /** The recorded amounts of the inputs anywhere in a tree that one address owns. */
  function InputsOwned(p: Params, txn: Txn, ops: seq<UtxoOp>, a: string): int
    decreases txn, 1
  {
    match txn.meta
    case AtomicWrapper(txns) =>
      if |InnerLists(ops)| != |txns| then 0 else InputsOwnedAll(p, txns, InnerLists(ops), a)
    case _ => Sum(txn.inputs, OwnedInput(p, txn.pk, ops, a))
  }

  function InputsOwnedAll(p: Params, txns: seq<Txn>, lists: seq<OpList>, a: string): int
    requires |lists| == |txns|
    decreases txns, 0
  {
    if txns == [] then 0
    else
      InputsOwnedAll(p, txns[..|txns| - 1], lists[..|txns| - 1], a)
      + InputsOwned(p, txns[|txns| - 1], lists[|txns| - 1].ops, a)
  }

  lemma {:induction false} OwnedAtLeast(p: Params, txn: Txn, ops: seq<UtxoOp>, a: string)
    ensures InputsOwned(p, txn, ops, a) >= 0
    decreases txn, 1
  {
    hide InnerLists, Recorded, Sum;
    match txn.meta
    case AtomicWrapper(txns) =>
      if |InnerLists(ops)| == |txns| {
        OwnedAllAtLeast(p, txns, InnerLists(ops), a);
      }
    case _ => SumAtLeast(txn.inputs, OwnedInput(p, txn.pk, ops, a));
  }

  lemma {:induction false} OwnedAllAtLeast(p: Params, txns: seq<Txn>, lists: seq<OpList>, a: string)
    requires |lists| == |txns|
    ensures InputsOwnedAll(p, txns, lists, a) >= 0
    decreases txns, 0
  {
    if txns != [] {
      OwnedAllAtLeast(p, txns[..|txns| - 1], lists[..|txns| - 1], a);
      OwnedAtLeast(p, txns[|txns| - 1], lists[|txns| - 1].ops, a);
    }
  }

  /** A weight that counts 64-bit amounts at one address as they are. */
  ghost predicate CountsAt(w: Weight, a: string) {
    forall b: string, x: int, k: OpType :: IsInt64(x) ==> w(b, x, k) == if b == a then x else 0
  }

  lemma WeightsCount(a: string)
    ensures CountsAt(At(a), a) && CountsAt(ParsedAt(a), a)
  {
  }

  lemma {:induction false} AbsentMissing(p: Params, balanceModel: bool, txn: Txn, ops: seq<UtxoOp>,
                                         spent: map<UtxoKey, UInt64>, a: string, w: Weight)
    requires Accounts(p, balanceModel, txn, ops) && AbsentInside(p, txn, ops, spent) && CountsAt(w, a)
    ensures TreeMissing(p, txn, ops, spent, w) == InputsOwned(p, txn, ops, a)
    decreases txn, 1
  {
    hide InnerLists, Sum, Recorded, OneWrapper, Besides, Bare, LeafAccounts, Missing, CountsAt;
    match txn.meta
    case AtomicWrapper(txns) =>
      NothingBesides(p, ops, w);
      AbsentMissings(p, balanceModel, txns, InnerLists(ops), spent, a, w);
    case _ => LeafAbsent(p, balanceModel, txn, ops, spent, a, w);
  }

  lemma LeafAbsent(p: Params, balanceModel: bool, txn: Txn, ops: seq<UtxoOp>, spent: map<UtxoKey, UInt64>, a: string, w: Weight)
    requires LeafAccounts(p, balanceModel, txn, ops) && Bare(p, txn, ops, spent) && CountsAt(w, a)
    ensures Missing(p, txn, ops, spent, w) == Sum(txn.inputs, OwnedInput(p, txn.pk, ops, a))
  {
    hide Sum, LeafAccounts, GenesisRecorded, BidderClaims, SmallAmount, LedgerOf, CountsAt;
    InputsAbsent(p, txn, ops, spent, a, w);
    BidsNotOff(p, balanceModel, txn, ops, w);
    SpendsNotOff(p, ops, w);
    SumZero(ops, WrapperFn(p, w));
  }

  lemma InputsAbsent(p: Params, txn: Txn, ops: seq<UtxoOp>, spent: map<UtxoKey, UInt64>, a: string, w: Weight)
    requires (forall k :: k in txn.inputs ==> k !in spent) && AllSmall(ops) && CountsAt(w, a)
    ensures InputsMissing(p, txn, ops, spent, w) == Sum(txn.inputs, OwnedInput(p, txn.pk, ops, a))
  {
    hide Sum, Negate64, Recorded, AllSmall;
    forall i | 0 <= i < |txn.inputs|
      ensures MissingFn(p, txn.pk, ops, spent, w)(txn.inputs[i]) == OwnedInput(p, txn.pk, ops, a)(txn.inputs[i])
    {
      var k := txn.inputs[i];
      assert k in txn.inputs;
      RecordedSmall(ops, k);
      assert Negate64(Found(spent, k)) == 0;
      assert FoundFn(p, txn.pk, spent, w)(k) == w(p.base58(txn.pk), 0, InputOp) == 0;
      assert RecordedFn(p, txn.pk, ops, w)(k) == w(p.base58(txn.pk), 0 - Recorded(ops, k), InputOp);
    }
    SumPointwise(txn.inputs, txn.inputs, MissingFn(p, txn.pk, ops, spent, w), OwnedInput(p, txn.pk, ops, a));
  }

  lemma {:induction false} AbsentMissings(p: Params, balanceModel: bool, txns: seq<Txn>, lists: seq<OpList>,
                                          spent: map<UtxoKey, UInt64>, a: string, w: Weight)
    requires |lists| == |txns| && AccountsAll(p, balanceModel, txns, lists) && AbsentInsideAll(p, txns, lists, spent)
    requires CountsAt(w, a)
    ensures TreesMissing(p, txns, lists, spent, w) == InputsOwnedAll(p, txns, lists, a)
    decreases txns, 0
  {
    hide CountsAt;
    if txns != [] {
      AbsentMissings(p, balanceModel, txns[..|txns| - 1], lists[..|txns| - 1], spent, a, w);
      AbsentMissing(p, balanceModel, txns[|txns| - 1], lists[|txns| - 1].ops, spent, a, w);
    }
  }

  /** Inputs that the map of spent outputs does not have count as zero, so the
      operations of a tree of such transactions mean what its effects mean exactly
      when the inputs the account owns in it sum to zero. Inputs of wrapped
      transactions are of this kind: the map is built from a block's own lists. */
  lemma AbsentInputsCountAsZero(p: Params, balanceModel: bool, txn: Txn, ops: seq<UtxoOp>,
                                spent: map<UtxoKey, UInt64>, a: string)
    requires Accounts(p, balanceModel, txn, ops) && AbsentInside(p, txn, ops, spent)
    ensures Net(OpsOf(p, balanceModel, txn, ops, spent), MainId(a)) == LedgerOfList(p, ops, At(a)) + InputsOwned(p, txn, ops, a)
    ensures Net(OpsOf(p, balanceModel, txn, ops, spent), MainId(a)) == LedgerOfList(p, ops, At(a))
            <==> InputsOwned(p, txn, ops, a) == 0
  {
    hide *;
    TreeLedger(p, balanceModel, txn, ops, spent, At(a));
    WeightsCount(a);
    AbsentMissing(p, balanceModel, txn, ops, spent, a, At(a));
    WeightIsNet(OpsOf(p, balanceModel, txn, ops, spent), a);
  }

  function OneInput(k: UtxoKey, pk: Bytes): Txn {
    Txn("", pk, [k], [], OtherMeta)
  }

  function OneSpend(k: UtxoKey, pk: Bytes, amount: UInt64): OpList {
    OpList([SpendUtxo(UtxoEntry(k, pk, amount))])
  }

  /** A wrapped transaction with one input: its operations say nothing, its effects
      say that the amount is gone. */
  lemma WrappedInputIsLost(p: Params, k: UtxoKey, pk: Bytes, amount: UInt64)
    requires 0 < amount <= MAX_INT64
    ensures var txn, ops := Txn("", [], [], [], AtomicWrapper([OneInput(k, pk)])), [AtomicWrapperOp([OneSpend(k, pk, amount)])];
            var spent := SpentUtxos([OpList(ops)]);
            && Accounts(p, true, txn, ops)
            && LedgerOfList(p, ops, At(p.base58(pk))) == 0 - amount
            && Net(OpsOf(p, true, txn, ops, spent), MainId(p.base58(pk))) == 0
  {
    var txns, lists := [OneInput(k, pk)], [OneSpend(k, pk, amount)];
    var txn, ops := Txn("", [], [], [], AtomicWrapper(txns)), [AtomicWrapperOp(lists)];
    var a := p.base58(pk);
    NothingSpent(ops[0]);
    WrapperAccounts(p, k, pk, amount);
    OneInputOwned(p, k, pk, amount);
    OneEffect(p, ops[0], At(a));
    OneEffect(p, SpendUtxo(UtxoEntry(k, pk, amount)), At(a));
    hide Accounts, LedgerOfList, LedgerOf, SpentUtxos, InputsOwned, OpsOf, Net, AbsentInside;
    AbsentInputsCountAsZero(p, true, txn, ops, map[], a);
  }

  lemma OneEffect(p: Params, o: UtxoOp, w: Weight)
    ensures LedgerOfList(p, [o], w) == LedgerOf(p, o, w)
    ensures o.AtomicWrapperOp? && |o.inner| == 1 ==> LedgerOf(p, o, w) == LedgerOfList(p, o.inner[0].ops, w)
  {
    assert [o][..0] == [];
    if o.AtomicWrapperOp? && |o.inner| == 1 {
      assert o.inner[..0] == [];
      assert LedgerOfLists(p, o.inner, w) == LedgerOfLists(p, [], w) + LedgerOfList(p, o.inner[0].ops, w);
    }
  }

  lemma NothingSpent(o: UtxoOp)
    requires !o.SpendUtxo?
    ensures SpentUtxos([OpList([o])]) == map[]
  {
    assert [o][..0] == [] && [OpList([o])][..0] == [];
    assert SpentIn([o], map[]) == SpentIn([], map[]);
  }

  lemma WrapperAccounts(p: Params, k: UtxoKey, pk: Bytes, amount: UInt64)
    requires amount <= MAX_INT64
    ensures var txn, ops := Txn("", [], [], [], AtomicWrapper([OneInput(k, pk)])), [AtomicWrapperOp([OneSpend(k, pk, amount)])];
            Accounts(p, true, txn, ops) && AbsentInside(p, txn, ops, map[])
  {
    var txns, lists := [OneInput(k, pk)], [OneSpend(k, pk, amount)];
    WrapperFound([AtomicWrapperOp(lists)], 0);
    OneInputAccounts(p, k, pk, amount);
    hide LeafAccounts, InnerLists, Bare;
    assert txns[..0] == [] && lists[..0] == [];
    assert AccountsAll(p, true, txns[..0], lists[..0]) && AbsentInsideAll(p, txns[..0], lists[..0], map[]);
    assert Accounts(p, true, txns[0], lists[0].ops) && AbsentInside(p, txns[0], lists[0].ops, map[]);
    assert AccountsAll(p, true, txns, lists) && AbsentInsideAll(p, txns, lists, map[]);
  }

  lemma OneInputAccounts(p: Params, k: UtxoKey, pk: Bytes, amount: UInt64)
    requires amount <= MAX_INT64
    ensures LeafAccounts(p, true, OneInput(k, pk), OneSpend(k, pk, amount).ops)
    ensures Bare(p, OneInput(k, pk), OneSpend(k, pk, amount).ops, map[])
  {
    var e, o, txn := UtxoEntry(k, pk, amount), SpendUtxo(UtxoEntry(k, pk, amount)), OneInput(k, pk);
    FlatMapOne(o, SpentEntry());
    FlatMapOne(o, CoveredOut(0));
    hide FlatMap;
    OneClaim(e);
    hide Map, First;
    assert BidderClaims(txn, [o]) == [];
    assert Claims(txn, [o]) == Map([k], ClaimBy(pk)) + [] == [Claim(k, pk)];
    assert CoveredOut(0)(o) == [];
  }

  lemma OneClaim(e: UtxoEntry)
    ensures Map([e], ClaimOf()) == [Claim(e.key, e.owner)] == Map([e.key], ClaimBy(e.owner))
  {
  }

  lemma OneInputOwned(p: Params, k: UtxoKey, pk: Bytes, amount: UInt64)
    ensures InputsOwned(p, Txn("", [], [], [], AtomicWrapper([OneInput(k, pk)])), [AtomicWrapperOp([OneSpend(k, pk, amount)])],
                        p.base58(pk)) == amount
  {
    var txns, lists := [OneInput(k, pk)], [OneSpend(k, pk, amount)];
    WrapperFound([AtomicWrapperOp(lists)], 0);
    RecordedIs(lists[0].ops, 0);
    OneSum(k, OwnedInput(p, pk, lists[0].ops, p.base58(pk)));
    hide InnerLists, Sum, Recorded;
    assert txns[..0] == [] && lists[..0] == [];
    assert InputsOwnedAll(p, txns, lists, p.base58(pk)) == InputsOwned(p, txns[0], lists[0].ops, p.base58(pk));
  }

  // ---------------------------------------------------------------- squashed trees

  /** What the operations of a transaction weigh. */
  function Done(p: Params, txn: Txn, ops: seq<UtxoOp>, spent: map<UtxoKey, UInt64>, w: Weight): int {
    LedgerOfList(p, ops, w) + TreeMissing(p, txn, ops, spent, w)
  }

  /** What a transaction's squashed operations do to a main account, for all amounts:
      with at most one operation, what they weigh; with more, the wrap of what their
      parsed amounts weigh. That is what the effects say exactly when nothing is
      missing in the first case, and in the second when what they say is a 64-bit
      number that differs from the parsed weight by a multiple of 2^64. */
  lemma SquashedTreeLedger(p: Params, balanceModel: bool, txn: Txn, ops: seq<UtxoOp>,
                           spent: map<UtxoKey, UInt64>, a: string)
    requires Accounts(p, balanceModel, txn, ops)
    ensures var net, said := Net(Squash(OpsOf(p, balanceModel, txn, ops, spent)), MainId(a)), LedgerOfList(p, ops, At(a));
            var count, parsed := Done(p, txn, ops, spent, CountAt(a)), Done(p, txn, ops, spent, ParsedAt(a));
            && net == Merged(count, Done(p, txn, ops, spent, At(a)), parsed)
            && (net == said <==> if count <= 1 then TreeMissing(p, txn, ops, spent, At(a)) == 0
                                 else IsInt64(said) && (said - parsed) % 0x1_0000_0000_0000_0000 == 0)
  {
    hide Squash, OpsOf, LedgerOfList, TreeMissing, Net, Accounts, WeighOps, Wrap64;
    TreeLedger(p, balanceModel, txn, ops, spent, At(a));
    TreeLedger(p, balanceModel, txn, ops, spent, ParsedAt(a));
    TreeLedger(p, balanceModel, txn, ops, spent, CountAt(a));
    SquashedWeights(OpsOf(p, balanceModel, txn, ops, spent), a);
    WrapsTo(LedgerOfList(p, ops, At(a)), Done(p, txn, ops, spent, ParsedAt(a)));
  }

  /** Small amounts parse to themselves. */
  lemma {:induction false} SmallParses(p: Params, o: UtxoOp, a: string)
    requires SmallAmount(o)
    ensures LedgerOf(p, o, ParsedAt(a)) == LedgerOf(p, o, At(a))
    decreases o, 0
  {
    if o.AtomicWrapperOp? {
      SmallListsParse(p, o.inner, a);
    }
  }

  lemma {:induction false} SmallListParses(p: Params, ops: seq<UtxoOp>, a: string)
    requires AllSmall(ops)
    ensures LedgerOfList(p, ops, ParsedAt(a)) == LedgerOfList(p, ops, At(a))
    decreases ops, 1
  {
    hide LedgerOf, SmallAmount;
    if ops != [] {
      SmallListParses(p, ops[..|ops| - 1], a);
      SmallParses(p, ops[|ops| - 1], a);
    }
  }

  lemma {:induction false} SmallListsParse(p: Params, lists: seq<OpList>, a: string)
    requires forall i, j :: 0 <= i < |lists| && 0 <= j < |lists[i].ops| ==> SmallAmount(lists[i].ops[j])
    ensures LedgerOfLists(p, lists, ParsedAt(a)) == LedgerOfLists(p, lists, At(a))
    decreases lists, 2
  {
    hide LedgerOfList, SmallAmount;
    if lists != [] {
      SmallListsParse(p, lists[..|lists| - 1], a);
      SmallListParses(p, lists[|lists| - 1].ops, a);
    }
  }
}
