/** The types that are served. Squashing keeps the type of an account's first
    operation, so the order of a transaction's operations decides them. */
module ServedTypes {
  import opened ByteStrings
  import opened IndexState
  import opened Sums
  import opened Int64
  import opened Operations
  import opened Chain
  import opened Translation
  import opened SubAccounts
  import opened Selections
  import opened DraftOrder

  /** The keys that a balance-model transaction takes from: its sender, if it has
      inputs, and the owners of spent balances. */
  ghost predicate Pays(p: Params, txn: Txn, ops: seq<UtxoOp>, a: string) {
    (txn.inputs != [] && p.base58(txn.pk) == a) || exists o :: o in ops && o.SpendBalance? && p.base58(o.pk) == a
  }

  /** The operation is one of those that the transaction is served with. */
  ghost predicate Serves(p: Params, txn: Txn, ops: seq<UtxoOp>, spent: map<UtxoKey, UInt64>, o: Op) {
    o in Squash(OpsOf(p, true, txn, ops, spent))
  }

  lemma TypeOfFirst(ds: seq<Draft>, o: Op) returns (r: nat)
    requires o in Squash(Number(ds, 0))
    ensures r < |ds| && ds[r].account == o.account && ds[r].kind == o.kind
    ensures forall i :: 0 <= i < r ==> IdOf(ds[i].account) != IdOf(o.account)
  {
    var ops := Number(ds, 0);
    SquashShape(ops);
    FirstOfIsFirst(ops, IdOf(o.account));
    hide Squash, FirstOf;
    var i :| 0 <= i < |Squash(ops)| && Squash(ops)[i] == o;
    assert Leads(Squash(ops)[i], ops);
    r := FirstOf(ops, IdOf(o.account));
    forall i | 0 <= i < r ensures IdOf(ds[i].account) != IdOf(o.account) {
      assert IdOf(ops[i].account) != IdOf(o.account);
    }
  }

  ghost predicate AllInputs(ds: seq<Draft>) {
    forall i :: 0 <= i < |ds| ==> ds[i].kind == InputOp && ds[i].account.sub.None?
  }

  /** Operations on main accounts here are outputs. */
  ghost predicate MainOutputs(ds: seq<Draft>) {
    forall i :: 0 <= i < |ds| && ds[i].account.sub.None? ==> ds[i].kind == OutputOp
  }

  ghost predicate Mentions(ds: seq<Draft>, a: string) {
    exists i :: 0 <= i < |ds| && ds[i].account == Account(a, None)
  }

  /** Inputs in front decide the type. */
  lemma FrontDecides(front: seq<Draft>, back: seq<Draft>, o: Op)
    requires AllInputs(front) && MainOutputs(back)
    requires o in Squash(Number(front + back, 0)) && o.account.sub.None?
    ensures o.kind == if Mentions(front, o.account.address) then InputOp else OutputOp
  {
    var ds := front + back;
    hide Squash, Number;
    var r := TypeOfFirst(ds, o);
    assert ds[r] == if r < |front| then front[r] else back[r - |front|];
    if Mentions(front, o.account.address) {
      var i :| 0 <= i < |front| && front[i].account == Account(o.account.address, None);
      assert ds[i] == front[i];
    }
  }

  lemma InputsMention(p: Params, txn: Txn, spent: map<UtxoKey, UInt64>, ins: seq<Draft>, a: string)
    requires |ins| == |txn.inputs| && forall i :: 0 <= i < |ins| ==> ins[i] == InputOf(p, txn, spent, i)
    ensures AllInputs(ins)
    ensures Mentions(ins, a) <==> txn.inputs != [] && p.base58(txn.pk) == a
  {
    hide Negate64;
    if txn.inputs != [] && p.base58(txn.pk) == a {
      assert ins[0].account == Account(a, None);
    }
  }

  lemma SpendsMention(p: Params, ops: seq<UtxoOp>, spends: seq<Draft>, a: string)
    requires var s := Selected(ops, IsSpend);
             |spends| == |s| && forall i :: 0 <= i < |s| ==>
               spends[i] == Draft(Account(p.base58(s[i].pk), None), Negate64(s[i].amount), InputOp)
    ensures AllInputs(spends)
    ensures Mentions(spends, a) <==> exists o :: o in ops && o.SpendBalance? && p.base58(o.pk) == a
  {
    var s := Selected(ops, IsSpend);
    SelectedAre(ops, IsSpend);
    hide Selected, Negate64;
    if o :| o in ops && o.SpendBalance? && p.base58(o.pk) == a {
      assert IsSpend(o);
      var i :| 0 <= i < |s| && s[i] == o;
      assert spends[i].account == Account(a, None);
    }
  }

  lemma MentionsConcat(x: seq<Draft>, y: seq<Draft>, a: string)
    ensures Mentions(x + y, a) <==> Mentions(x, a) || Mentions(y, a)
    ensures AllInputs(x) && AllInputs(y) ==> AllInputs(x + y)
    ensures MainOutputs(x) && MainOutputs(y) ==> MainOutputs(x + y)
  {
    if Mentions(x, a) {
      var i :| 0 <= i < |x| && x[i].account == Account(a, None);
      assert (x + y)[i] == x[i];
    }
    if Mentions(y, a) {
      var i :| 0 <= i < |y| && y[i].account == Account(a, None);
      assert (x + y)[|x| + i] == y[i];
    }
  }

  /** The drafts of a balance-model transaction: what it takes, and then the rest. */
  lemma TakesFirst(p: Params, txn: Txn, ops: seq<UtxoOp>, spent: map<UtxoKey, UInt64>, a: string)
    returns (front: seq<Draft>, back: seq<Draft>)
    requires !txn.meta.AcceptNFTBid? && !txn.meta.DAOCoinLimitOrder?
    ensures AllInputs(front) && MainOutputs(back) && (Mentions(front, a) <==> Pays(p, txn, ops, a))
    ensures LeafDrafts(p, true, txn, ops, spent) == front + back
  {
    hide SpecialDrafts, PlainDrafts, FlatMap, Negate64, AllInputs, Mentions, Selected, InputOf, OwnDrafts, Pays, MainOutputs;
    var ins, outs := PlainOrder(p, true, txn, spent);
    InputsMention(p, txn, spent, ins, a);
    var spends, payments := TransfersInOrder(p, txn, ops);
    SpendsMention(p, ops, spends, a);
    PaysIs(p, txn, ops, a);
    MentionsConcat(ins, spends, a);
    BackIsOutputs(p, txn, ops, payments);
    if |ops| == 0 {
      front, back := ins, [];
      NoOutputs();
    } else {
      front, back := ins + spends, payments + OwnDrafts(p, txn, ops);
      assert ins + (spends + payments + OwnDrafts(p, txn, ops)) == front + back;
    }
  }

  lemma PaysIs(p: Params, txn: Txn, ops: seq<UtxoOp>, a: string)
    ensures Pays(p, txn, ops, a) <==>
            (txn.inputs != [] && p.base58(txn.pk) == a) || exists o :: o in ops && o.SpendBalance? && p.base58(o.pk) == a
  {
  }

  lemma NoOutputs()
    ensures MainOutputs([])
  {
  }

  lemma BackIsOutputs(p: Params, txn: Txn, ops: seq<UtxoOp>, payments: seq<Draft>)
    requires !txn.meta.AcceptNFTBid? && !txn.meta.DAOCoinLimitOrder?
    requires forall j :: 0 <= j < |payments| ==> payments[j].kind == OutputOp
    ensures MainOutputs(payments + OwnDrafts(p, txn, ops))
  {
    hide OwnDrafts;
    OwnDraftsAreSub(p, txn, ops);
  }

  /** The type that a balance-model transaction serves for a main account, after
      squashing: INPUT if it takes from the account at all, OUTPUT otherwise. */
  lemma ServedType(p: Params, txn: Txn, ops: seq<UtxoOp>, spent: map<UtxoKey, UInt64>, o: Op)
    requires !txn.meta.AtomicWrapper? && !txn.meta.AcceptNFTBid? && !txn.meta.DAOCoinLimitOrder?
    requires Serves(p, txn, ops, spent, o) && o.account.sub.None?
    ensures o.kind == if Pays(p, txn, ops, o.account.address) then InputOp else OutputOp
  {
    hide LeafDrafts, Squash, Number, AllInputs, MainOutputs, Mentions, Pays;
    var front, back := TakesFirst(p, txn, ops, spent, o.account.address);
    FrontDecides(front, back, o);
  }
}
