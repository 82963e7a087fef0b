/** What the chain's recorded effects do to an account's balance, read off the
    effects alone, and that the translated operations do exactly that. */
module Ledger {
  import opened ByteStrings
  import opened IndexState
  import opened Sums
  import opened Int64
  import opened Operations
  import opened Chain
  import opened Translation

  // ---------------------------------------------------------------- the ledger meaning

  /** A weight for amounts that move at addresses, as inputs or as outputs. Sums for
      every weight say as much as the multiset of the movements. */
  type Weight = (string, int, OpType) -> int

  /** The weight that counts the balance of one address. */
  function At(a: string): Weight {
    (b: string, x: int, k: OpType) => if b == a then x else 0
  }

  function Owned(p: Params, pk: Bytes, a: string, x: int): int {
    if p.base58(pk) == a then x else 0
  }

  /** One recorded effect on main balances: money moves to or from addresses. */
  function LedgerOf(p: Params, o: UtxoOp, w: Weight): int
    decreases o, 0
  {
    match o
    case SpendUtxo(e) => w(p.base58(e.owner), 0 - e.amount, InputOp)
    case AddUtxo(e) => if e.Some? then w(p.base58(e.value.owner), e.value.amount, OutputOp) else 0
    case SpendBalance(pk, x) => w(p.base58(pk), 0 - x, InputOp)
    case AddBalance(pk, x) => w(p.base58(pk), x, OutputOp)
    case PayToBalance(pk, x) => w(p.base58(pk), x, OutputOp)
    case AtomicWrapperOp(inner) => LedgerOfLists(p, inner, w)
    case _ => 0
  }

  function LedgerOfList(p: Params, ops: seq<UtxoOp>, w: Weight): int
    decreases ops, 1
  {
    if ops == [] then 0 else LedgerOfList(p, ops[..|ops| - 1], w) + LedgerOf(p, ops[|ops| - 1], w)
  }

  function LedgerOfLists(p: Params, lists: seq<OpList>, w: Weight): int
    decreases lists, 2
  {
    if lists == [] then 0 else LedgerOfLists(p, lists[..|lists| - 1], w) + LedgerOfList(p, lists[|lists| - 1].ops, w)
  }

  // ---------------------------------------------------------------- sums over drafts

  function CreditD(id: PartialId): Draft -> int {
    (d: Draft) => if IdOf(d.account) == id then d.value else 0
  }

  function NetD(ds: seq<Draft>, id: PartialId): int {
    Sum(ds, CreditD(id))
  }

  function MainWeight(w: Weight): Draft -> int {
    (d: Draft) => if IdOf(d.account).subAddress == "" then w(d.account.address, d.value, d.kind) else 0
  }

  /** The weight of what a list of drafts does to main accounts. */
  function Weigh(ds: seq<Draft>, w: Weight): int {
    Sum(ds, MainWeight(w))
  }

  lemma {:induction false} NumberNet(ds: seq<Draft>, n: nat, id: PartialId)
    ensures Net(Number(ds, n), id) == NetD(ds, id)
  {
    if ds != [] {
      var init := ds[..|ds| - 1];
      NumberNet(init, n, id);
      assert Number(ds, n)[..|ds| - 1] == Number(init, n);
    }
  }

  ghost predicate SubOnly(ds: seq<Draft>) {
    forall i :: 0 <= i < |ds| ==> ds[i].account.sub.Some? && ds[i].account.sub.value != ""
  }

  lemma SubOnlyWeight(ds: seq<Draft>, w: Weight)
    requires SubOnly(ds)
    ensures Weigh(ds, w) == 0
  {
    forall i | 0 <= i < |ds| ensures MainWeight(w)(ds[i]) == 0 {
      assert IdOf(ds[i].account).subAddress != "";
    }
    SumZero(ds, MainWeight(w));
  }

  lemma {:induction false} SubOnlyFlatMap<T>(xs: seq<T>, f: T -> seq<Draft>)
    requires forall x :: SubOnly(f(x))
    ensures SubOnly(FlatMap(xs, f))
  {
    if xs != [] {
      SubOnlyFlatMap(xs[..|xs| - 1], f);
    }
  }

  lemma OneDraft(d: Draft, id: PartialId)
    ensures NetD([d], id) == if IdOf(d.account) == id then d.value else 0
  {
    OneSum(d, CreditD(id));
  }

  lemma OneSum<T>(x: T, f: T -> int)
    ensures Sum([x], f) == f(x)
  {
    assert Sum([x], f) == Sum([], f) + f(x);
  }

  lemma NoSum<T>(f: T -> int)
    ensures Sum([], f) == 0
  {
  }

  // ---------------------------------------------------------------- the four kinds of effect

  function SpendFn(p: Params, w: Weight): UtxoOp -> int {
    (o: UtxoOp) => if o.SpendBalance? then w(p.base58(o.pk), 0 - o.amount, InputOp) else 0
  }

  function ImplicitFn(p: Params, n: nat, w: Weight): UtxoOp -> int {
    (o: UtxoOp) =>
      if o.AddUtxo? && o.added.Some? && o.added.value.key.index >= n
      then w(p.base58(o.added.value.owner), o.added.value.amount, OutputOp)
      else if o.AddBalance? || o.PayToBalance? then w(p.base58(o.pk), o.amount, OutputOp)
      else 0
  }

  /** Added entries that stand for the transaction's own outputs. */
  function CoveredOut(n: nat): UtxoOp -> seq<TxOutput> {
    (o: UtxoOp) =>
      if o.AddUtxo? && o.added.Some? && o.added.value.key.index < n
      then [TxOutput(o.added.value.owner, o.added.value.amount)]
      else []
  }

  function OutFn(p: Params, w: Weight): TxOutput -> int {
    (o: TxOutput) => w(p.base58(o.pk), o.amount, OutputOp)
  }

  function CoveredFn(p: Params, n: nat, w: Weight): UtxoOp -> int {
    (o: UtxoOp) => Sum(CoveredOut(n)(o), OutFn(p, w))
  }

  function SpentEntry(): UtxoOp -> seq<UtxoEntry> {
    (o: UtxoOp) => if o.SpendUtxo? then [o.spent] else []
  }

  function EntryFn(p: Params, w: Weight): UtxoEntry -> int {
    (e: UtxoEntry) => w(p.base58(e.owner), 0 - e.amount, InputOp)
  }

  function SpentFn(p: Params, w: Weight): UtxoOp -> int {
    (o: UtxoOp) => Sum(SpentEntry()(o), EntryFn(p, w))
  }

  /** Wrapper effects, which the list of a plain transaction does not translate. */
  function WrapperFn(p: Params, w: Weight): UtxoOp -> int {
    (o: UtxoOp) => if o.AtomicWrapperOp? then LedgerOf(p, o, w) else 0
  }

  lemma LedgerOfFlat(p: Params, o: UtxoOp, n: nat, w: Weight)
    requires !o.AtomicWrapperOp?
    ensures LedgerOf(p, o, w) == SpendFn(p, w)(o) + ImplicitFn(p, n, w)(o) + CoveredFn(p, n, w)(o) + SpentFn(p, w)(o)
    ensures WrapperFn(p, w)(o) == 0
  {
    hide Sum;
    var covered, entries := CoveredOut(n)(o), SpentEntry()(o);
    NoSum(OutFn(p, w));
    NoSum(EntryFn(p, w));
    if covered != [] {
      OneSum(covered[0], OutFn(p, w));
    }
    if entries != [] {
      OneSum(entries[0], EntryFn(p, w));
    }
  }

  lemma LedgerOfWrapper(p: Params, o: UtxoOp, n: nat, w: Weight)
    requires o.AtomicWrapperOp?
    ensures SpendFn(p, w)(o) == ImplicitFn(p, n, w)(o) == CoveredFn(p, n, w)(o) == SpentFn(p, w)(o) == 0
    ensures WrapperFn(p, w)(o) == LedgerOf(p, o, w)
  {
    hide Sum;
    assert CoveredOut(n)(o) == [] && SpentEntry()(o) == [];
    NoSum(OutFn(p, w));
    NoSum(EntryFn(p, w));
  }

  /** What a list says, kind by kind. */
  lemma {:induction false} LedgerSplits(p: Params, ops: seq<UtxoOp>, n: nat, w: Weight)
    ensures LedgerOfList(p, ops, w) == Sum(ops, SpendFn(p, w)) + Sum(ops, ImplicitFn(p, n, w)) + Sum(ops, CoveredFn(p, n, w))
                                       + Sum(ops, SpentFn(p, w)) + Sum(ops, WrapperFn(p, w))
  {
    if ops != [] {
      LedgerSplits(p, ops[..|ops| - 1], n, w);
      if ops[|ops| - 1].AtomicWrapperOp? {
        LedgerOfWrapper(p, ops[|ops| - 1], n, w);
      } else {
        LedgerOfFlat(p, ops[|ops| - 1], n, w);
      }
    }
  }

  // ---------------------------------------------------------------- when effects mirror a transaction

  /** An output claimed by a transaction, with the key the code charges for it. */
  datatype Claim = Claim(key: UtxoKey, owner: Bytes)

  function ClaimOf(): UtxoEntry -> Claim {
    (e: UtxoEntry) => Claim(e.key, e.owner)
  }

  function ClaimBy(owner: Bytes): UtxoKey -> Claim {
    (k: UtxoKey) => Claim(k, owner)
  }

  function BidderClaimsOf(): BidderInput -> seq<Claim> {
    (b: BidderInput) => Map(b.inputs, ClaimBy(b.transactor))
  }

  /** The bidder inputs of the two transaction types that have them. */
  function BidderClaims(txn: Txn, ops: seq<UtxoOp>): seq<Claim> {
    match txn.meta
    case AcceptNFTBid(ks) =>
      var o := First(ops, IsAcceptNFTBid);
      if o.Some? then Map(ks, ClaimBy(o.value.bidder)) else []
    case DAOCoinLimitOrder(bs) => FlatMap(bs, BidderClaimsOf())
    case _ => []
  }

  ghost predicate DistinctSpends(ops: seq<UtxoOp>) {
    forall i, j :: 0 <= i < j < |ops| && ops[i].SpendUtxo? && ops[j].SpendUtxo? ==> ops[i].spent.key != ops[j].spent.key
  }

  function Recorded(ops: seq<UtxoOp>, k: UtxoKey): UInt64 {
    var o := First(ops, Spends(k));
    if o.Some? then o.value.spent.amount else 0
  }

  /** The recorded effects of a plain transaction account for it: the spent outputs
      are its inputs and bidder inputs, each owned by the key the code charges, and
      the added entries below the output count are its outputs where those are
      translated (before the balance model). In the balance model this says that
      nothing is spent or created outside balances. Bidder inputs that name the
      genesis block name outputs it has. */
  ghost predicate LeafAccounts(p: Params, balanceModel: bool, txn: Txn, ops: seq<UtxoOp>) {
    && DistinctSpends(ops)
    && multiset(Map(FlatMap(ops, SpentEntry()), ClaimOf())) == multiset(Claims(txn, ops))
    && (forall c :: c in BidderClaims(txn, ops) ==> InGenesisRange(p, c.key))
    && multiset(FlatMap(ops, CoveredOut(|txn.outputs| % 0x1_0000_0000))) == multiset(if balanceModel then [] else txn.outputs)
  }

  function Claims(txn: Txn, ops: seq<UtxoOp>): seq<Claim> {
    Map(txn.inputs, ClaimBy(txn.pk)) + BidderClaims(txn, ops)
  }

  /** The amount at which an input is translated: what the map of spent outputs has
      for it, or zero. */
  function Found(spent: map<UtxoKey, UInt64>, k: UtxoKey): UInt64 {
    if k in spent then spent[k] else 0
  }

  function MissingFn(p: Params, pk: Bytes, ops: seq<UtxoOp>, spent: map<UtxoKey, UInt64>, w: Weight): UtxoKey -> int {
    (k: UtxoKey) => FoundFn(p, pk, spent, w)(k) - RecordedFn(p, pk, ops, w)(k)
  }

  function FoundFn(p: Params, pk: Bytes, spent: map<UtxoKey, UInt64>, w: Weight): UtxoKey -> int {
    (k: UtxoKey) => w(p.base58(pk), Negate64(Found(spent, k)), InputOp)
  }

  function RecordedFn(p: Params, pk: Bytes, ops: seq<UtxoOp>, w: Weight): UtxoKey -> int {
    (k: UtxoKey) => w(p.base58(pk), 0 - Recorded(ops, k), InputOp)
  }

  /** A spent balance is off where its amount does not survive 64-bit negation. */
  function SpendOffFn(p: Params, w: Weight): UtxoOp -> int {
    (o: UtxoOp) => NegatedFn(p, w)(o) - SpendFn(p, w)(o)
  }

  function NegatedFn(p: Params, w: Weight): UtxoOp -> int {
    (o: UtxoOp) => if o.SpendBalance? then w(p.base58(o.pk), Negate64(o.amount), InputOp) else 0
  }

  /** A bidder input is off where the amount found for it is not the recorded one. */
  function BidOffFn(p: Params, ops: seq<UtxoOp>, w: Weight): Claim -> int {
    (c: Claim) => BidFn(p, ops, w)(c) - ClaimFn(p, ops, w)(c)
  }

  function BidFn(p: Params, ops: seq<UtxoOp>, w: Weight): Claim -> int {
    (c: Claim) => w(p.base58(c.owner), if InputAmount(p, c.key, ops).Some? then InputAmount(p, c.key, ops).value else 0, InputOp)
  }

  function ClaimFn(p: Params, ops: seq<UtxoOp>, w: Weight): Claim -> int {
    (c: Claim) => w(p.base58(c.owner), 0 - Recorded(ops, c.key), InputOp)
  }

  /** By how much the translation of a plain transaction is off: inputs where the map
      of spent outputs differs from what its own list records, amounts that do not
      survive negation, and wrapper effects in its list. */
  function Missing(p: Params, txn: Txn, ops: seq<UtxoOp>, spent: map<UtxoKey, UInt64>, w: Weight): int {
    InputsMissing(p, txn, ops, spent, w) + Sum(ops, SpendOffFn(p, w)) + Sum(BidderClaims(txn, ops), BidOffFn(p, ops, w))
    - Sum(ops, WrapperFn(p, w))
  }

  function InputsMissing(p: Params, txn: Txn, ops: seq<UtxoOp>, spent: map<UtxoKey, UInt64>, w: Weight): int {
    Sum(txn.inputs, MissingFn(p, txn.pk, ops, spent, w))
  }

  /** The map of spent outputs has every input, at the amount recorded for it. */
  ghost predicate InputsKnown(txn: Txn, ops: seq<UtxoOp>, spent: map<UtxoKey, UInt64>) {
    forall k :: k in txn.inputs ==> k in spent && spent[k] == Recorded(ops, k)
  }

  /** The effects account for a transaction tree: wherever a wrapper is translated,
      which it is if it has as many inner lists as inner transactions, they account
      for its inner transactions; and they account for every plain one. */
  ghost predicate Accounts(p: Params, balanceModel: bool, txn: Txn, ops: seq<UtxoOp>)
    decreases txn, 1
  {
    match txn.meta
    case AtomicWrapper(txns) =>
      |InnerLists(ops)| == |txns| ==> AccountsAll(p, balanceModel, txns, InnerLists(ops))
    case _ => LeafAccounts(p, balanceModel, txn, ops)
  }

  ghost predicate AccountsAll(p: Params, balanceModel: bool, txns: seq<Txn>, lists: seq<OpList>)
    requires |lists| == |txns|
    decreases txns, 0
  {
    txns == [] ||
    (AccountsAll(p, balanceModel, txns[..|txns| - 1], lists[..|txns| - 1])
     && Accounts(p, balanceModel, txns[|txns| - 1], lists[|txns| - 1].ops))
  }

  // ---------------------------------------------------------------- leaves, part by part

  /** Balances are spent at their negated amounts. */
  lemma SpendNet(p: Params, ops: seq<UtxoOp>, w: Weight)
    ensures Weigh(FlatMap(ops, SpendDraft(p)), w) == Sum(ops, SpendFn(p, w)) + Sum(ops, SpendOffFn(p, w))
  {
    hide Sum, FlatMap, Negate64;
    NoSum(MainWeight(w));
    forall i | 0 <= i < |ops| ensures Sum(SpendDraft(p)(ops[i]), MainWeight(w)) == NegatedFn(p, w)(ops[i]) {
      if ops[i].SpendBalance? {
        OneSum(SpendDraft(p)(ops[i])[0], MainWeight(w));
      }
    }
    SumFlatMap(ops, SpendDraft(p), MainWeight(w), NegatedFn(p, w));
    SumPlus(ops, NegatedFn(p, w), SpendFn(p, w), SpendOffFn(p, w));
  }

  lemma ImplicitNet(p: Params, n: nat, ops: seq<UtxoOp>, w: Weight)
    ensures Weigh(FlatMap(ops, ImplicitDraft(p, n)), w) == Sum(ops, ImplicitFn(p, n, w))
  {
    hide Sum, FlatMap;
    NoSum(MainWeight(w));
    forall i | 0 <= i < |ops|
      ensures Sum(ImplicitDraft(p, n)(ops[i]), MainWeight(w)) == ImplicitFn(p, n, w)(ops[i])
    {
      if ImplicitDraft(p, n)(ops[i]) != [] {
        OneSum(ImplicitDraft(p, n)(ops[i])[0], MainWeight(w));
      }
    }
    SumFlatMap(ops, ImplicitDraft(p, n), MainWeight(w), ImplicitFn(p, n, w));
  }

  lemma OutputNet(p: Params, outs: seq<TxOutput>, w: Weight)
    ensures Weigh(FlatMap(outs, OutputDraft(p)), w) == Sum(outs, OutFn(p, w))
  {
    hide Sum, FlatMap;
    forall i | 0 <= i < |outs| ensures Sum(OutputDraft(p)(outs[i]), MainWeight(w)) == OutFn(p, w)(outs[i]) {
      OneSum(OutputDraft(p)(outs[i])[0], MainWeight(w));
    }
    SumFlatMap(outs, OutputDraft(p), MainWeight(w), OutFn(p, w));
  }

  /** The outputs of a transaction are the entries its list adds below the output count. */
  lemma CoveredNet(p: Params, outs: seq<TxOutput>, n: nat, ops: seq<UtxoOp>, w: Weight)
    requires multiset(FlatMap(ops, CoveredOut(n))) == multiset(outs)
    ensures Weigh(FlatMap(outs, OutputDraft(p)), w) == Sum(ops, CoveredFn(p, n, w))
  {
    OutputNet(p, outs, w);
    SumPermutation(FlatMap(ops, CoveredOut(n)), outs, OutFn(p, w));
    SumFlatMap(ops, CoveredOut(n), OutFn(p, w), CoveredFn(p, n, w));
  }

  lemma RecordedIs(ops: seq<UtxoOp>, i: nat)
    requires DistinctSpends(ops) && i < |ops| && ops[i].SpendUtxo?
    ensures First(ops, Spends(ops[i].spent.key)) == Some(ops[i])
    ensures Recorded(ops, ops[i].spent.key) == ops[i].spent.amount
  {
    var f := First(ops, Spends(ops[i].spent.key));
    assert ops[i] in ops && Spends(ops[i].spent.key)(ops[i]);
    var j :| 0 <= j < |ops| && ops[j] == f.value;
    assert j == i;
  }

  lemma {:induction false} SumMap<A, B>(xs: seq<A>, m: A -> B, f: A -> int, g: B -> int)
    requires forall i :: 0 <= i < |xs| ==> f(xs[i]) == g(m(xs[i]))
    ensures Sum(xs, f) == Sum(Map(xs, m), g)
  {
    if xs != [] {
      SumMap(xs[..|xs| - 1], m, f, g);
    }
  }

  lemma {:induction false} EntriesFromOps(ops: seq<UtxoOp>, e: UtxoEntry)
    ensures e in FlatMap(ops, SpentEntry()) <==> SpendUtxo(e) in ops
  {
    if ops != [] {
      var init := ops[..|ops| - 1];
      EntriesFromOps(init, e);
      assert ops == init + [ops[|ops| - 1]];
    }
  }

  /** What the list spends, summed by claims. */
  lemma SpentNet(p: Params, ops: seq<UtxoOp>, w: Weight)
    requires DistinctSpends(ops)
    ensures Sum(ops, SpentFn(p, w)) == Sum(Map(FlatMap(ops, SpentEntry()), ClaimOf()), ClaimFn(p, ops, w))
  {
    hide Sum, FlatMap, Map;
    var es := FlatMap(ops, SpentEntry());
    SumFlatMap(ops, SpentEntry(), EntryFn(p, w), SpentFn(p, w));
    forall i | 0 <= i < |es| ensures EntryFn(p, w)(es[i]) == ClaimFn(p, ops, w)(ClaimOf()(es[i])) {
      SpentAmount(ops, es[i]);
    }
    SumMap(es, ClaimOf(), EntryFn(p, w), ClaimFn(p, ops, w));
  }

  lemma SpentAmount(ops: seq<UtxoOp>, e: UtxoEntry)
    requires DistinctSpends(ops) && e in FlatMap(ops, SpentEntry())
    ensures Recorded(ops, e.key) == e.amount
  {
    EntriesFromOps(ops, e);
    var j :| 0 <= j < |ops| && ops[j] == SpendUtxo(e);
    RecordedIs(ops, j);
  }

  /** Inputs are charged at the amounts found for them. */
  lemma InputNet(p: Params, txn: Txn, ops: seq<UtxoOp>, spent: map<UtxoKey, UInt64>, w: Weight)
    ensures Weigh(FlatMap(txn.inputs, InputDraft(p, txn.pk, spent)), w)
            == Sum(Map(txn.inputs, ClaimBy(txn.pk)), ClaimFn(p, ops, w)) + InputsMissing(p, txn, ops, spent, w)
  {
    hide Sum, FlatMap, Map, Negate64;
    var f, g := FoundFn(p, txn.pk, spent, w), RecordedFn(p, txn.pk, ops, w);
    forall i | 0 <= i < |txn.inputs|
      ensures Sum(InputDraft(p, txn.pk, spent)(txn.inputs[i]), MainWeight(w)) == f(txn.inputs[i])
    {
      var d := Draft(MainAccount(p, txn.pk), Negate64(Found(spent, txn.inputs[i])), InputOp);
      assert InputDraft(p, txn.pk, spent)(txn.inputs[i]) == [d];
      assert MainWeight(w)(d) == w(p.base58(txn.pk), d.value, InputOp);
      OneSum(d, MainWeight(w));
    }
    SumFlatMap(txn.inputs, InputDraft(p, txn.pk, spent), MainWeight(w), f);
    SumPlus(txn.inputs, f, g, MissingFn(p, txn.pk, ops, spent, w));
    SumMap(txn.inputs, ClaimBy(txn.pk), g, ClaimFn(p, ops, w));
  }

  lemma {:induction false} BidderNet(p: Params, bidder: Bytes, ks: seq<UtxoKey>, ops: seq<UtxoOp>, w: Weight)
    requires forall c :: c in Map(ks, ClaimBy(bidder)) ==> InputAmount(p, c.key, ops).Some?
    ensures BidderDrafts(p, bidder, ks, ops).Some?
    ensures Weigh(BidderDrafts(p, bidder, ks, ops).value, w) == Sum(Map(ks, ClaimBy(bidder)), BidFn(p, ops, w))
  {
    if ks != [] {
      var init, k := ks[..|ks| - 1], ks[|ks| - 1];
      var m := Map(ks, ClaimBy(bidder));
      assert m == Map(init, ClaimBy(bidder)) + [Claim(k, bidder)];
      assert Claim(k, bidder) in m;
      BidderNet(p, bidder, init, ops, w);
      OneBidderNet(p, bidder, k, ops, w);
      hide Sum, InputAmount, Map;
      SumConcat(BidderDrafts(p, bidder, init, ops).value,
                [Draft(MainAccount(p, bidder), InputAmount(p, k, ops).value, InputOp)], MainWeight(w));
      SumConcat(Map(init, ClaimBy(bidder)), [Claim(k, bidder)], BidFn(p, ops, w));
    }
  }

  lemma OneBidderNet(p: Params, bidder: Bytes, k: UtxoKey, ops: seq<UtxoOp>, w: Weight)
    requires InputAmount(p, k, ops).Some?
    ensures Weigh([Draft(MainAccount(p, bidder), InputAmount(p, k, ops).value, InputOp)], w)
            == Sum([Claim(k, bidder)], BidFn(p, ops, w))
  {
    hide Sum, InputAmount;
    OneSum(Draft(MainAccount(p, bidder), InputAmount(p, k, ops).value, InputOp), MainWeight(w));
    OneSum(Claim(k, bidder), BidFn(p, ops, w));
  }

  lemma {:induction false} AllBidderNet(p: Params, bs: seq<BidderInput>, ops: seq<UtxoOp>, w: Weight)
    requires forall c :: c in FlatMap(bs, BidderClaimsOf()) ==> InputAmount(p, c.key, ops).Some?
    ensures AllBidderDrafts(p, bs, ops).Some?
    ensures Weigh(AllBidderDrafts(p, bs, ops).value, w) == Sum(FlatMap(bs, BidderClaimsOf()), BidFn(p, ops, w))
  {
    if bs != [] {
      var init, b := bs[..|bs| - 1], bs[|bs| - 1];
      var l, r := FlatMap(init, BidderClaimsOf()), Map(b.inputs, ClaimBy(b.transactor));
      assert FlatMap(bs, BidderClaimsOf()) == l + r;
      AllBidderNet(p, init, ops, w);
      BidderNet(p, b.transactor, b.inputs, ops, w);
      SumConcat(AllBidderDrafts(p, init, ops).value, BidderDrafts(p, b.transactor, b.inputs, ops).value, MainWeight(w));
      SumConcat(l, r, BidFn(p, ops, w));
    }
  }

  /** What the two generators with bidder inputs add to main accounts. */
  lemma BiddersNet(p: Params, txn: Txn, ops: seq<UtxoOp>, w: Weight)
    requires forall c :: c in BidderClaims(txn, ops) ==> InputAmount(p, c.key, ops).Some?
    ensures Weigh(AcceptNFTDrafts(p, txn, ops), w) + Weigh(DAOCoinDrafts(p, txn, ops), w)
            == Sum(BidderClaims(txn, ops), BidFn(p, ops, w))
  {
    NoSum(MainWeight(w));
    NoSum(BidFn(p, ops, w));
    hide Sum, FlatMap, BidderDrafts, AllBidderDrafts, InputAmount, Map;
    if txn.meta.AcceptNFTBid? {
      AcceptMainNet(p, txn, ops, w);
    } else if txn.meta.DAOCoinLimitOrder? {
      AllBidderNet(p, txn.meta.bidders, ops, w);
    }
  }

  lemma AcceptMainNet(p: Params, txn: Txn, ops: seq<UtxoOp>, w: Weight)
    requires txn.meta.AcceptNFTBid?
    requires forall c :: c in BidderClaims(txn, ops) ==> InputAmount(p, c.key, ops).Some?
    ensures Weigh(AcceptNFTDrafts(p, txn, ops), w) == Sum(BidderClaims(txn, ops), BidFn(p, ops, w))
  {
    NoSum(MainWeight(w));
    NoSum(BidFn(p, ops, w));
    hide Sum, FlatMap, BidderDrafts, InputAmount, Map;
    var o := First(ops, IsAcceptNFTBid);
    if o.Some? {
      var bids := BidderDrafts(p, o.value.bidder, txn.meta.bidderInputs, ops);
      BidderNet(p, o.value.bidder, txn.meta.bidderInputs, ops, w);
      var r1 := CreatorRoyaltyDraft(p, o.value.creator, o.value.creatorRoyalty, o.value.circulation);
      var r2 := FlatMap(o.value.royalties, RoyaltyDraft(p));
      RoyaltiesSubOnly(p, o.value.royalties);
      SubOnlyWeight(r1, w);
      SubOnlyWeight(r2, w);
      SumConcat(bids.value + r1, r2, MainWeight(w));
      SumConcat(bids.value, r1, MainWeight(w));
    }
  }

  lemma RoyaltiesSubOnly(p: Params, rs: seq<Royalty>)
    ensures SubOnly(FlatMap(rs, RoyaltyDraft(p)))
  {
    SubOnlyFlatMap(rs, RoyaltyDraft(p));
  }

  lemma NFTBidSubOnly(p: Params, txn: Txn, ops: seq<UtxoOp>)
    ensures SubOnly(NFTBidDrafts(p, txn, ops))
  {
    var o := First(ops, IsNFTBid);
    if o.Some? {
      RoyaltiesSubOnly(p, o.value.royalties);
    }
  }

  lemma StakesSubOnly(p: Params, txn: Txn, ops: seq<UtxoOp>)
    ensures SubOnly(StakeDrafts(p, txn, ops)) && SubOnly(UnstakeDrafts(p, txn, ops)) && SubOnly(UnlockDrafts(p, txn, ops))
  {
    hide FlatMap, Decimal;
    if txn.meta.Stake? {
      SubOnlyFlatMap(ops, StakeDraft(p, txn.meta.staked));
    }
    if txn.meta.Unstake? {
      SubOnlyFlatMap(ops, UnstakeDraft(p, txn.meta.unstaked));
    }
    forall x ensures SubOnly(UnlockDraft(p)(x)) {
      if x.UnlockStakeOp? {
        SubOnlyFlatMap(x.prevLocked, UnlockedDraft(p));
      }
    }
    SubOnlyFlatMap(ops, UnlockDraft(p));
  }

  /** The generators that only touch sub-accounts. */
  lemma SubGenerators(p: Params, txn: Txn, ops: seq<UtxoOp>)
    ensures SubOnly(CreatorCoinDrafts(p, txn, ops)) && SubOnly(SwapIdentityDrafts(p, txn, ops))
    ensures SubOnly(NFTBidDrafts(p, txn, ops)) && SubOnly(UpdateProfileDrafts(p, txn, ops))
    ensures SubOnly(StakeDrafts(p, txn, ops)) && SubOnly(UnstakeDrafts(p, txn, ops)) && SubOnly(UnlockDrafts(p, txn, ops))
  {
    NFTBidSubOnly(p, txn, ops);
    StakesSubOnly(p, txn, ops);
    hide FlatMap, NFTBidDrafts, StakeDrafts, UnstakeDrafts, UnlockDrafts, Negate64;
  }

  lemma SubGeneratorsNet(p: Params, txn: Txn, ops: seq<UtxoOp>, w: Weight)
    ensures Weigh(CreatorCoinDrafts(p, txn, ops), w) == 0 && Weigh(SwapIdentityDrafts(p, txn, ops), w) == 0
    ensures Weigh(NFTBidDrafts(p, txn, ops), w) == 0 && Weigh(UpdateProfileDrafts(p, txn, ops), w) == 0
    ensures Weigh(StakeDrafts(p, txn, ops), w) == 0 && Weigh(UnstakeDrafts(p, txn, ops), w) == 0
    ensures Weigh(UnlockDrafts(p, txn, ops), w) == 0
  {
    hide *;
    SubGenerators(p, txn, ops);
    SubOnlyWeight(CreatorCoinDrafts(p, txn, ops), w);
    SubOnlyWeight(SwapIdentityDrafts(p, txn, ops), w);
    SubOnlyWeight(NFTBidDrafts(p, txn, ops), w);
    SubOnlyWeight(UpdateProfileDrafts(p, txn, ops), w);
    SubOnlyWeight(StakeDrafts(p, txn, ops), w);
    SubOnlyWeight(UnstakeDrafts(p, txn, ops), w);
    SubOnlyWeight(UnlockDrafts(p, txn, ops), w);
  }

  lemma NetConcat(x: seq<Draft>, y: seq<Draft>, id: PartialId)
    ensures NetD(x + y, id) == NetD(x, id) + NetD(y, id)
  {
    SumConcat(x, y, CreditD(id));
  }

  lemma SumConcat11(x1: seq<Draft>, x2: seq<Draft>, x3: seq<Draft>, x4: seq<Draft>, x5: seq<Draft>, x6: seq<Draft>,
                    x7: seq<Draft>, x8: seq<Draft>, x9: seq<Draft>, x10: seq<Draft>, x11: seq<Draft>, f: Draft -> int)
    ensures Sum(x1 + x2 + x3 + x4 + x5 + x6 + x7 + x8 + x9 + x10 + x11, f)
            == Sum(x1, f) + Sum(x2, f) + Sum(x3, f) + Sum(x4, f) + Sum(x5, f) + Sum(x6, f)
               + Sum(x7, f) + Sum(x8, f) + Sum(x9, f) + Sum(x10, f) + Sum(x11, f)
  {
    hide Sum;
    SumConcat(x1, x2, f);
    SumConcat(x1 + x2, x3, f);
    SumConcat(x1 + x2 + x3, x4, f);
    SumConcat(x1 + x2 + x3 + x4, x5, f);
    SumConcat(x1 + x2 + x3 + x4 + x5, x6, f);
    SumConcat(x1 + x2 + x3 + x4 + x5 + x6, x7, f);
    SumConcat(x1 + x2 + x3 + x4 + x5 + x6 + x7, x8, f);
    SumConcat(x1 + x2 + x3 + x4 + x5 + x6 + x7 + x8, x9, f);
    SumConcat(x1 + x2 + x3 + x4 + x5 + x6 + x7 + x8 + x9, x10, f);
    SumConcat(x1 + x2 + x3 + x4 + x5 + x6 + x7 + x8 + x9 + x10, x11, f);
  }

  /** The eleven generators, one by one, under any measure of drafts. */
  lemma SpecialConcat(p: Params, txn: Txn, ops: seq<UtxoOp>, f: Draft -> int)
    ensures Sum(SpecialDrafts(p, txn, ops), f)
            == Sum(FlatMap(ops, SpendDraft(p)), f) + Sum(FlatMap(ops, ImplicitDraft(p, NumOutputs(txn))), f)
               + Sum(CreatorCoinDrafts(p, txn, ops), f) + Sum(SwapIdentityDrafts(p, txn, ops), f)
               + Sum(AcceptNFTDrafts(p, txn, ops), f) + Sum(NFTBidDrafts(p, txn, ops), f)
               + Sum(UpdateProfileDrafts(p, txn, ops), f) + Sum(DAOCoinDrafts(p, txn, ops), f)
               + Sum(StakeDrafts(p, txn, ops), f) + Sum(UnstakeDrafts(p, txn, ops), f) + Sum(UnlockDrafts(p, txn, ops), f)
  {
    hide Sum, FlatMap, CreatorCoinDrafts, SwapIdentityDrafts, AcceptNFTDrafts, NFTBidDrafts, UpdateProfileDrafts,
         DAOCoinDrafts, StakeDrafts, UnstakeDrafts, UnlockDrafts;
    SumConcat11(FlatMap(ops, SpendDraft(p)), FlatMap(ops, ImplicitDraft(p, NumOutputs(txn))),
                CreatorCoinDrafts(p, txn, ops), SwapIdentityDrafts(p, txn, ops), AcceptNFTDrafts(p, txn, ops),
                NFTBidDrafts(p, txn, ops), UpdateProfileDrafts(p, txn, ops), DAOCoinDrafts(p, txn, ops),
                StakeDrafts(p, txn, ops), UnstakeDrafts(p, txn, ops), UnlockDrafts(p, txn, ops), f);
  }

  /** A plain transaction, part by part, under any measure of drafts. */
  lemma AssembleLeaf(p: Params, balanceModel: bool, txn: Txn, ops: seq<UtxoOp>, spent: map<UtxoKey, UInt64>, f: Draft -> int)
    ensures Sum(LeafDrafts(p, balanceModel, txn, ops, spent), f)
            == Sum(FlatMap(txn.inputs, InputDraft(p, txn.pk, spent)), f)
               + Sum(if balanceModel then [] else FlatMap(txn.outputs, OutputDraft(p)), f)
               + Sum(if |ops| > 0 then SpecialDrafts(p, txn, ops) else [], f)
  {
    hide Sum, SpecialDrafts, FlatMap;
    var ins := FlatMap(txn.inputs, InputDraft(p, txn.pk, spent));
    var outs := if balanceModel then [] else FlatMap(txn.outputs, OutputDraft(p));
    SumConcat(ins + outs, if |ops| > 0 then SpecialDrafts(p, txn, ops) else [], f);
    SumConcat(ins, outs, f);
  }

  /** On main accounts the generators amount to balance effects, added entries
      beyond the outputs, and bidder inputs. */
  lemma SpecialNet(p: Params, txn: Txn, ops: seq<UtxoOp>, w: Weight)
    requires forall c :: c in BidderClaims(txn, ops) ==> InputAmount(p, c.key, ops).Some?
    ensures Weigh(SpecialDrafts(p, txn, ops), w)
            == Sum(ops, SpendFn(p, w)) + Sum(ops, SpendOffFn(p, w)) + Sum(ops, ImplicitFn(p, NumOutputs(txn), w))
               + Sum(BidderClaims(txn, ops), BidFn(p, ops, w))
  {
    hide Sum, SpecialDrafts, FlatMap, CreatorCoinDrafts, SwapIdentityDrafts, AcceptNFTDrafts, NFTBidDrafts,
         UpdateProfileDrafts, DAOCoinDrafts, StakeDrafts, UnstakeDrafts, UnlockDrafts, BidderClaims, InputAmount;
    SpecialConcat(p, txn, ops, MainWeight(w));
    SpendNet(p, ops, w);
    ImplicitNet(p, NumOutputs(txn), ops, w);
    BiddersNet(p, txn, ops, w);
    SubGeneratorsNet(p, txn, ops, w);
  }

  /** Every claimed output is spent in the transaction's own list. */
  lemma ClaimIsSpent(p: Params, balanceModel: bool, txn: Txn, ops: seq<UtxoOp>, c: Claim) returns (e: UtxoEntry)
    requires LeafAccounts(p, balanceModel, txn, ops) && c in Claims(txn, ops)
    ensures SpendUtxo(e) in ops && e.key == c.key
  {
    var entries := FlatMap(ops, SpentEntry());
    assert c in multiset(Claims(txn, ops));
    assert c in multiset(Map(entries, ClaimOf()));
    var i :| 0 <= i < |entries| && Map(entries, ClaimOf())[i] == c;
    e := entries[i];
    assert e in entries;
    EntriesFromOps(ops, e);
  }

  /** Bidder claims resolve: in the transaction's own list or in the genesis block. */
  lemma ClaimsResolve(p: Params, balanceModel: bool, txn: Txn, ops: seq<UtxoOp>)
    requires LeafAccounts(p, balanceModel, txn, ops)
    ensures forall c :: c in BidderClaims(txn, ops) ==> InputAmount(p, c.key, ops).Some?
  {
    forall c | c in BidderClaims(txn, ops) ensures InputAmount(p, c.key, ops).Some? {
      assert c in Claims(txn, ops);
      var e := ClaimIsSpent(p, balanceModel, txn, ops, c);
      assert Spends(c.key)(SpendUtxo(e));
    }
  }

  /** One plain transaction, in either ledger model and under every weight: what its
      operations do to main accounts is what the recorded effects do, plus what is
      missing. */
  lemma LeafLedger(p: Params, balanceModel: bool, txn: Txn, ops: seq<UtxoOp>, spent: map<UtxoKey, UInt64>, w: Weight)
    requires LeafAccounts(p, balanceModel, txn, ops)
    ensures Weigh(LeafDrafts(p, balanceModel, txn, ops, spent), w)
            == LedgerOfList(p, ops, w) + Missing(p, txn, ops, spent, w)
  {
    hide Sum, LeafAccounts, LeafDrafts, SpecialDrafts, FlatMap, InputsMissing, LedgerOfList, BidderClaims;
    LeafSpends(p, balanceModel, txn, ops, spent, w);
    LeafAdds(p, balanceModel, txn, ops, w);
    AssembleLeaf(p, balanceModel, txn, ops, spent, MainWeight(w));
    LedgerSplits(p, ops, NumOutputs(txn), w);
    SumPlus(BidderClaims(txn, ops), BidFn(p, ops, w), ClaimFn(p, ops, w), BidOffFn(p, ops, w));
  }

  /** Inputs and bidder inputs together are what the list spends. */
  lemma LeafSpends(p: Params, balanceModel: bool, txn: Txn, ops: seq<UtxoOp>, spent: map<UtxoKey, UInt64>, w: Weight)
    requires LeafAccounts(p, balanceModel, txn, ops)
    ensures Weigh(FlatMap(txn.inputs, InputDraft(p, txn.pk, spent)), w) + Sum(BidderClaims(txn, ops), ClaimFn(p, ops, w))
            == Sum(ops, SpentFn(p, w)) + InputsMissing(p, txn, ops, spent, w)
  {
    hide Sum, Weigh, InputsMissing, Map, FlatMap, BidderClaims;
    InputNet(p, txn, ops, spent, w);
    SpentNet(p, ops, w);
    var entries, own, bid := Map(FlatMap(ops, SpentEntry()), ClaimOf()), Map(txn.inputs, ClaimBy(txn.pk)), BidderClaims(txn, ops);
    SumPermutation(entries, own + bid, ClaimFn(p, ops, w));
    SumConcat(own, bid, ClaimFn(p, ops, w));
  }

  /** Outputs and generated operations are the rest of the effects. */
  lemma LeafAdds(p: Params, balanceModel: bool, txn: Txn, ops: seq<UtxoOp>, w: Weight)
    requires LeafAccounts(p, balanceModel, txn, ops)
    ensures Weigh(if balanceModel then [] else FlatMap(txn.outputs, OutputDraft(p)), w)
            == Sum(ops, CoveredFn(p, NumOutputs(txn), w))
    ensures Weigh(if |ops| > 0 then SpecialDrafts(p, txn, ops) else [], w)
            == Sum(ops, SpendFn(p, w)) + Sum(ops, SpendOffFn(p, w)) + Sum(ops, ImplicitFn(p, NumOutputs(txn), w))
               + Sum(BidderClaims(txn, ops), BidFn(p, ops, w))
  {
    var outs := if balanceModel then [] else txn.outputs;
    assert FlatMap([], OutputDraft(p)) == [];
    ClaimsResolve(p, balanceModel, txn, ops);
    hide FlatMap, BidderClaims, SpecialDrafts, InputAmount;
    CoveredNet(p, outs, NumOutputs(txn), ops, w);
    if ops == [] {
      NoBidders(p, balanceModel, txn);
    } else {
      hide Sum;
      SpecialNet(p, txn, ops, w);
    }
  }

  lemma NoBidders(p: Params, balanceModel: bool, txn: Txn)
    requires LeafAccounts(p, balanceModel, txn, [])
    ensures BidderClaims(txn, []) == []
  {
    var claimed := Map(txn.inputs, ClaimBy(txn.pk)) + BidderClaims(txn, []);
    assert Map(FlatMap([], SpentEntry()), ClaimOf()) == [];
    assert |claimed| == |multiset(claimed)| == 0;
  }

  // ---------------------------------------------------------------- when nothing is missing

  /** The amounts that the code negates, or parses back, fit in 63 bits, also in the
      lists inside wrapper effects. */
  ghost predicate SmallAmount(o: UtxoOp)
    decreases o
  {
    match o
    case SpendUtxo(e) => e.amount <= MAX_INT64
    case AddUtxo(e) => e.Some? ==> e.value.amount <= MAX_INT64
    case SpendBalance(_, x) => x <= MAX_INT64
    case AddBalance(_, x) => x <= MAX_INT64
    case PayToBalance(_, x) => x <= MAX_INT64
    case AtomicWrapperOp(inner) => forall i, j :: 0 <= i < |inner| && 0 <= j < |inner[i].ops| ==> SmallAmount(inner[i].ops[j])
    case _ => true
  }

  ghost predicate AllSmall(ops: seq<UtxoOp>) {
    forall i :: 0 <= i < |ops| ==> SmallAmount(ops[i])
  }

  lemma RecordedSmall(ops: seq<UtxoOp>, k: UtxoKey)
    requires AllSmall(ops)
    ensures Recorded(ops, k) <= MAX_INT64
  {
    var o := First(ops, Spends(k));
    if o.Some? {
      assert o.value in ops;
    }
  }

  /** A genesis output has the amount recorded where a bidder input spends it. */
  ghost predicate GenesisRecorded(p: Params, txn: Txn, ops: seq<UtxoOp>) {
    forall c :: c in BidderClaims(txn, ops) && c.key.txid == ZERO_HASH ==>
      InGenesisRange(p, c.key) && p.genesisOutputs[c.key.index].amount == Recorded(ops, c.key)
  }

  /** A plain transaction of which nothing is missing: its inputs are known, amounts
      are small, bidder inputs from the genesis block have their recorded amounts,
      and its list holds no wrapper effect. */
  ghost predicate Plain(p: Params, txn: Txn, ops: seq<UtxoOp>, spent: map<UtxoKey, UInt64>) {
    && InputsKnown(txn, ops, spent) && AllSmall(ops) && GenesisRecorded(p, txn, ops)
    && forall i :: 0 <= i < |ops| ==> !ops[i].AtomicWrapperOp?
  }

  lemma KnownNotMissing(p: Params, balanceModel: bool, txn: Txn, ops: seq<UtxoOp>, spent: map<UtxoKey, UInt64>, w: Weight)
    requires LeafAccounts(p, balanceModel, txn, ops) && Plain(p, txn, ops, spent)
    ensures Missing(p, txn, ops, spent, w) == 0
  {
    hide Sum, LeafAccounts, GenesisRecorded, InputsKnown, BidderClaims, Negate64, SmallAmount, LedgerOf;
    InputsNotMissing(p, txn, ops, spent, w);
    BidsNotOff(p, balanceModel, txn, ops, w);
    SpendsNotOff(p, ops, w);
    SumZero(ops, WrapperFn(p, w));
  }

  lemma InputsNotMissing(p: Params, txn: Txn, ops: seq<UtxoOp>, spent: map<UtxoKey, UInt64>, w: Weight)
    requires InputsKnown(txn, ops, spent) && AllSmall(ops)
    ensures InputsMissing(p, txn, ops, spent, w) == 0
  {
    hide Negate64;
    forall i | 0 <= i < |txn.inputs| ensures MissingFn(p, txn.pk, ops, spent, w)(txn.inputs[i]) == 0 {
      assert txn.inputs[i] in txn.inputs;
      RecordedSmall(ops, txn.inputs[i]);
      assert Negate64(Found(spent, txn.inputs[i])) == 0 - Recorded(ops, txn.inputs[i]);
      assert FoundFn(p, txn.pk, spent, w)(txn.inputs[i]) == w(p.base58(txn.pk), 0 - Recorded(ops, txn.inputs[i]), InputOp);
    }
    SumZero(txn.inputs, MissingFn(p, txn.pk, ops, spent, w));
  }

  lemma SpendsNotOff(p: Params, ops: seq<UtxoOp>, w: Weight)
    requires AllSmall(ops)
    ensures Sum(ops, SpendOffFn(p, w)) == 0
  {
    hide Negate64, Sum;
    forall i | 0 <= i < |ops| ensures SpendOffFn(p, w)(ops[i]) == 0 {
      if ops[i].SpendBalance? {
        assert SmallAmount(ops[i]);
        assert Negate64(ops[i].amount) == 0 - ops[i].amount;
        assert NegatedFn(p, w)(ops[i]) == w(p.base58(ops[i].pk), 0 - ops[i].amount, InputOp);
      }
      assert NegatedFn(p, w)(ops[i]) == SpendFn(p, w)(ops[i]);
    }
    SumZero(ops, SpendOffFn(p, w));
  }

  lemma BidsNotOff(p: Params, balanceModel: bool, txn: Txn, ops: seq<UtxoOp>, w: Weight)
    requires LeafAccounts(p, balanceModel, txn, ops) && AllSmall(ops) && GenesisRecorded(p, txn, ops)
    ensures Sum(BidderClaims(txn, ops), BidOffFn(p, ops, w)) == 0
  {
    hide Sum, LeafAccounts, BidderClaims, InputAmount, AllSmall, BidOffFn;
    ClaimsResolve(p, balanceModel, txn, ops);
    var cs := BidderClaims(txn, ops);
    forall i | 0 <= i < |cs| ensures BidOffFn(p, ops, w)(cs[i]) == 0 {
      assert cs[i] in cs;
      OneBidNotOff(p, ops, cs[i], w);
    }
    SumZero(cs, BidOffFn(p, ops, w));
  }

  lemma OneBidNotOff(p: Params, ops: seq<UtxoOp>, c: Claim, w: Weight)
    requires AllSmall(ops) && InputAmount(p, c.key, ops).Some?
    requires c.key.txid == ZERO_HASH ==>
               InGenesisRange(p, c.key) && p.genesisOutputs[c.key.index].amount == Recorded(ops, c.key)
    ensures BidOffFn(p, ops, w)(c) == 0
  {
    hide Negate64;
    RecordedSmall(ops, c.key);
    assert InputAmount(p, c.key, ops).value == 0 - Recorded(ops, c.key);
    assert BidFn(p, ops, w)(c) == w(p.base58(c.owner), 0 - Recorded(ops, c.key), InputOp);
  }
}
