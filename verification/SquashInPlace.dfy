/** deso/block.go squashOperations: the merge as it runs, over shared mutable
    operation and amount objects. */
module SquashInPlace {
  import opened Int64
  import opened Operations

  class Amount {
    var value: int

    constructor (value: int)
      ensures this.value == value
    {
      this.value := value;
    }
  }

  class Operation {
    var index: int
    const account: Account
    const amount: Amount
    const kind: OpType

    constructor (index: int, account: Account, amount: Amount, kind: OpType)
      ensures this.index == index && this.account == account && this.amount == amount && this.kind == kind
    {
      this.index, this.account, this.amount, this.kind := index, account, amount, kind;
    }

    ghost predicate Is(o: Op)
      reads this, amount
    {
      index == o.index && account == o.account && amount.value == o.value && kind == o.kind
    }
  }

  ghost function Amounts(ops: seq<Operation>): set<Amount> {
    set o | o in ops :: o.amount
  }

  /** No operation or amount object is shared. */
  ghost predicate Separate(ops: seq<Operation>) {
    forall i, j :: 0 <= i < j < |ops| ==> ops[i] != ops[j] && ops[i].amount != ops[j].amount
  }

  /** The objects currently read as these operations. */
  ghost predicate Show(ops: seq<Operation>, vs: seq<Op>)
    reads ops, Amounts(ops)
  {
    |ops| == |vs| && forall i :: 0 <= i < |ops| ==> ops[i].Is(vs[i])
  }

  /** squashed picks objects of ops[..i], in order. */
  ghost predicate Picks(squashed: seq<Operation>, ops: seq<Operation>, from: seq<nat>, i: nat) {
    && |from| == |squashed| && i <= |ops|
    && (forall k :: 0 <= k < |from| ==> from[k] < i && squashed[k] == ops[from[k]])
    && (forall k, l :: 0 <= k < l < |from| ==> from[k] < from[l])
  }

  /** The map of the loop: every account seen so far, at its position. */
  ghost predicate Maps(opMap: map<PartialId, nat>, s: seq<Op>) {
    && (forall p :: p in opMap <==> FirstOf(s, p) >= 0)
    && (forall p :: p in opMap ==> opMap[p] == FirstOf(s, p))
  }

  /** What the map tells the loop about the next operation. */
  ghost predicate Tells(opMap: map<PartialId, nat>, s: seq<Op>, op: Op, r: seq<Op>) {
    var p := IdOf(op.account);
    if p in opMap
    then opMap[p] < |s| && Maps(opMap, r)
         && r == s[opMap[p] := s[opMap[p]].(value := Wrap64(ParseInt64(s[opMap[p]].value) + ParseInt64(op.value)))]
    else Maps(opMap[p := |s|], r) && r == s + [op.(index := |s|)]
  }

  lemma StepMaps(opMap: map<PartialId, nat>, s: seq<Op>, op: Op)
    requires Maps(opMap, s) && Squashed(s)
    ensures Tells(opMap, s, op, SquashStep(s, op))
  {
    var r := SquashStep(s, op);
    forall p ensures FirstOf(r, p) == if FirstOf(s, p) >= 0 then FirstOf(s, p)
                                      else if IdOf(op.account) == p then |s| else -1
    {
      StepShape(s, op, p);
      FirstOfSnoc(s, op, p);
    }
    hide FirstOf;
  }

  /** Merging into an earlier operation writes one amount and nothing else. */
  method MergeInto(ops: seq<Operation>, squashed: seq<Operation>, i: nat, pos: nat,
                   ghost from: seq<nat>, ghost s: seq<Op>, ghost vs: seq<Op>)
    requires Separate(ops) && i < |ops| == |vs| && pos < |squashed|
    requires Picks(squashed, ops, from, i) && Show(squashed, s)
    requires forall j :: i <= j < |ops| ==> ops[j].Is(vs[j])
    modifies squashed[pos].amount
    ensures Show(squashed, s[pos := s[pos].(value := Wrap64(ParseInt64(s[pos].value) + ParseInt64(vs[i].value)))])
    ensures forall j :: i < j < |ops| ==> ops[j].Is(vs[j])
  {
    var existingOp := squashed[pos];
    assert existingOp.Is(s[pos]) && ops[i].Is(vs[i]);
    var oldAmount := ParseInt64(existingOp.amount.value);
    var addAmount := ParseInt64(ops[i].amount.value);
    assert forall k :: 0 <= k < |squashed| && k != pos ==> squashed[k].amount != existingOp.amount by {
      assert forall k, l :: 0 <= k < l < |squashed| ==> ops[from[k]].amount != ops[from[l]].amount;
    }
    assert forall j :: i < j < |ops| ==> ops[j].amount != existingOp.amount by {
      assert existingOp == ops[from[pos]];
    }
    existingOp.amount.value := Wrap64(oldAmount + addAmount);
  }

  /** Keeping a new operation renumbers it and touches nothing else. */
  method Keep(ops: seq<Operation>, squashed: seq<Operation>, i: nat,
              ghost from: seq<nat>, ghost s: seq<Op>, ghost vs: seq<Op>) returns (r: seq<Operation>)
    requires Separate(ops) && i < |ops| == |vs|
    requires Picks(squashed, ops, from, i) && Show(squashed, s)
    requires forall j :: i <= j < |ops| ==> ops[j].Is(vs[j])
    modifies ops[i]
    ensures r == squashed + [ops[i]] && Picks(r, ops, from + [i], i + 1)
    ensures Show(r, s + [vs[i].(index := |s|)])
    ensures forall j :: i < j < |ops| ==> ops[j].Is(vs[j])
  {
    assert ops[i].Is(vs[i]);
    assert forall k :: 0 <= k < |squashed| ==> squashed[k].Is(s[k]) && squashed[k] != ops[i];
    ops[i].index := |squashed|;
    r := squashed + [ops[i]];
  }

  /** The result is the squashing of what the operations read as, made of the
      objects of each account's first operation. */
  method SquashOperations(ops: seq<Operation>, ghost vs: seq<Op>)
    returns (squashed: seq<Operation>, ghost from: seq<nat>)
    requires Separate(ops) && Show(ops, vs)
    modifies ops, Amounts(ops)
    ensures Show(squashed, Squash(vs)) && Separate(squashed)
    ensures Picks(squashed, ops, from, |ops|)
  {
    hide FirstOf, Separate, Squash, Maps, Wrap64, ParseInt64;
    var opMap: map<PartialId, nat> := map[];
    squashed, from := [], [];
    var nextOp := 0;
    Start(vs);
    for i := 0 to |ops|
      invariant Picks(squashed, ops, from, i) && nextOp == |squashed|
      invariant Show(squashed, Squash(vs[..i]))
      invariant forall j :: i <= j < |ops| ==> ops[j].Is(vs[j])
      invariant Maps(opMap, Squash(vs[..i]))
    {
      ghost var s := Squash(vs[..i]);
      LoopStep(opMap, vs, i);
      assert ops[i].Is(vs[i]);
      var account := IdOf(ops[i].account);
      if account in opMap {
        MergeInto(ops, squashed, i, opMap[account], from, s, vs);
      } else {
        opMap := opMap[account := nextOp];
        squashed := Keep(ops, squashed, i, from, s, vs);
        from := from + [i];
        nextOp := nextOp + 1;
      }
    }
    assert vs[..|ops|] == vs;
    PicksSeparate(squashed, ops, from, |ops|);
  }

  lemma Start(vs: seq<Op>)
    ensures Squash(vs[..0]) == [] && Maps(map[], [])
  {
  }

  lemma LoopStep(opMap: map<PartialId, nat>, vs: seq<Op>, i: nat)
    requires i < |vs| && Maps(opMap, Squash(vs[..i]))
    ensures Tells(opMap, Squash(vs[..i]), vs[i], Squash(vs[..i + 1]))
  {
    hide FirstOf, Squash, Squashed, FirstOccurrences, Tells, Maps, SquashStep;
    assert vs[..i + 1] == vs[..i] + [vs[i]];
    SquashShape(vs[..i]);
    SquashSnoc(vs[..i], vs[i]);
    StepMaps(opMap, Squash(vs[..i]), vs[i]);
  }

  lemma PicksSeparate(squashed: seq<Operation>, ops: seq<Operation>, from: seq<nat>, i: nat)
    requires Separate(ops) && Picks(squashed, ops, from, i)
    ensures Separate(squashed)
  {
  }
}
