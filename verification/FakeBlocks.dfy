/** deso/block.go getBlockTransactionsWithHypersync: the synthetic blocks that
    stand in for the history before the first snapshot. */
module FakeBlocks {
  import opened ByteStrings
  import opened Keys
  import opened IndexState
  import opened RosettaIndex
  import opened Sums
  import opened Operations
  import opened Chain
  import opened Translation

  /** The account identifier emitted for a holder's balance of one type. Locked
      stake is held by triples alone, so the last case is never emitted. */
  function AccountOf(p: Params, t: BalanceType, holder: Holder): Account {
    match holder
    case LockedHolder(staker, validator, epoch) => LockedStakeAccount(p, staker, validator, epoch)
    case KeyHolder(pk) =>
      match t
      case DESOBalance => MainAccount(p, pk)
      case CreatorCoinLocked => CreatorAccount(p, pk)
      case ValidatorStaked => ValidatorAccount(p, pk)
      case LockedStake => LockedStakeAccount(p, pk, [], 0)
  }

  datatype Gift = Gift(account: Account, amount: UInt64)

  /** An order in which a map may be ranged over. */
  ghost predicate IsOrderOf(ks: seq<Holder>, m: BalanceMap) {
    && (forall i, j :: 0 <= i < j < |ks| ==> ks[i] != ks[j])
    && (forall k :: k in ks <==> k in m)
  }

  /** Zero balances are left out. */
  function GiftOf(p: Params, t: BalanceType, m: BalanceMap): Holder -> seq<Gift> {
    (k: Holder) => if k in m && m[k] != 0 then [Gift(AccountOf(p, t, k), m[k])] else []
  }

  datatype Orders = Orders(deso: seq<Holder>, coins: seq<Holder>, staked: seq<Holder>, locked: seq<Holder>)
  datatype Maps = Maps(deso: BalanceMap, coins: BalanceMap, staked: BalanceMap, locked: BalanceMap)

  ghost predicate OrdersOf(o: Orders, m: Maps) {
    IsOrderOf(o.deso, m.deso) && IsOrderOf(o.coins, m.coins) && IsOrderOf(o.staked, m.staked) && IsOrderOf(o.locked, m.locked)
  }

  function Gifts(p: Params, o: Orders, m: Maps): seq<Gift> {
    FlatMap(o.deso, GiftOf(p, DESOBalance, m.deso)) + FlatMap(o.coins, GiftOf(p, CreatorCoinLocked, m.coins))
    + FlatMap(o.staked, GiftOf(p, ValidatorStaked, m.staked)) + FlatMap(o.locked, GiftOf(p, LockedStake, m.locked))
  }

  function AsBytes(s: string): Bytes {
    seq(|s|, i requires 0 <= i < |s| => s[i] as int % 256)
  }

  function Reverse(s: string): string {
    seq(|s|, i requires 0 <= i < |s| => s[|s| - 1 - i])
  }

  /** The iterated hash, from the reversed text of the block hash. */
  function HashChain(p: Params, blockHash: Ascii, n: nat): Bytes {
    if n == 0 then AsBytes(Reverse(blockHash)) else p.doubleHash(HashChain(p, blockHash, n - 1))
  }

  function FakeTxn(p: Params, blockHash: Ascii, i: nat, g: Gift): TxnView {
    TxnView(p.hex(HashChain(p, blockHash, i + 1)), [Op(0, g.account, g.amount, OutputOp)])
  }

  /** The synthetic transactions before sorting. */
  function FakeTxns(p: Params, blockHash: Ascii, gs: seq<Gift>): (ts: seq<TxnView>)
    ensures |ts| == |gs| && forall i :: 0 <= i < |gs| ==> ts[i] == FakeTxn(p, blockHash, i, gs[i])
  {
    seq(|gs|, i requires 0 <= i < |gs| => FakeTxn(p, blockHash, i, gs[i]))
  }

  ghost predicate Descending(ts: seq<TxnView>) {
    forall i, j :: 0 <= i < j < |ts| ==> Leq(AsBytes(ts[j].hash), AsBytes(ts[i].hash))
  }

  function MapsAt(s: State, height: UInt64): Maps {
    Maps(BlockMap(s, height, DESOBalance), BlockMap(s, height, CreatorCoinLocked),
         BlockMap(s, height, ValidatorStaked), BlockMap(s, height, LockedStake))
  }

  /** These transactions come from ranging over the maps in this order. */
  ghost predicate RangedAs(p: Params, m: Maps, blockHash: Ascii, o: Orders, ts: seq<TxnView>) {
    OrdersOf(o, m) && multiset(ts) == multiset(FakeTxns(p, blockHash, Gifts(p, o, m)))
  }

  /** A synthetic block for this height: for some order of the maps, the
      transactions in descending order of hash; none at height zero. */
  ghost predicate IsFakeBlock(p: Params, s: State, height: UInt64, blockHash: Ascii, ts: seq<TxnView>) {
    if height == 0 then ts == []
    else Descending(ts) && exists o :: RangedAs(p, MapsAt(s, height), blockHash, o, ts)
  }

  // ---------------------------------------------------------------- building one

  /** Ranging over a map in some order. */
  method RangeOrder(m: BalanceMap) returns (ks: seq<Holder>)
    ensures IsOrderOf(ks, m)
  {
    ks := [];
    var rest := m.Keys;
    while rest != {}
      invariant rest <= m.Keys
      invariant forall k :: k in ks <==> k in m && k !in rest
      invariant forall i, j :: 0 <= i < j < |ks| ==> ks[i] != ks[j]
      decreases rest
    {
      var k :| k in rest;
      ks, rest := ks + [k], rest - {k};
    }
  }

  /** One of the four loops: a transaction per non-zero balance, the hash iterated once for each. */
  method GiftAll(p: Params, t: BalanceType, m: BalanceMap, ks: seq<Holder>, blockHash: Ascii, currentHash: Bytes,
                 sofar: seq<TxnView>, ghost gs: seq<Gift>) returns (ts: seq<TxnView>, hash: Bytes)
    requires forall k :: k in ks ==> k in m
    requires sofar == FakeTxns(p, blockHash, gs) && currentHash == HashChain(p, blockHash, |gs|)
    ensures ts == FakeTxns(p, blockHash, gs + FlatMap(ks, GiftOf(p, t, m)))
    ensures hash == HashChain(p, blockHash, |gs + FlatMap(ks, GiftOf(p, t, m))|)
  {
    var f := GiftOf(p, t, m);
    ts, hash := sofar, currentHash;
    assert gs + FlatMap(ks[..0], f) == gs;
    for i := 0 to |ks|
      invariant ts == FakeTxns(p, blockHash, gs + FlatMap(ks[..i], f))
      invariant hash == HashChain(p, blockHash, |gs + FlatMap(ks[..i], f)|)
    {
      FlatMapNext(ks, f, i);
      ghost var done := gs + FlatMap(ks[..i], f);
      hide FlatMap, AccountOf, HashChain, FakeTxns, FakeTxn;
      assert ks[i] in ks;
      assert done + f(ks[i]) == gs + (FlatMap(ks[..i], f) + f(ks[i]));
      var balance := m[ks[i]];
      if balance == 0 {
        assert done + [] == done;
        continue;
      }
      GiftNext(p, blockHash, done, Gift(AccountOf(p, t, ks[i]), balance));
      hash := p.doubleHash(hash);
      ts := ts + [TxnView(p.hex(hash), [Op(0, AccountOf(p, t, ks[i]), balance, OutputOp)])];
    }
    assert ks[..|ks|] == ks;
  }

  lemma GiftNext(p: Params, blockHash: Ascii, gs: seq<Gift>, g: Gift)
    ensures HashChain(p, blockHash, |gs + [g]|) == p.doubleHash(HashChain(p, blockHash, |gs|))
    ensures FakeTxns(p, blockHash, gs + [g]) == FakeTxns(p, blockHash, gs)
            + [TxnView(p.hex(p.doubleHash(HashChain(p, blockHash, |gs|))), [Op(0, g.account, g.amount, OutputOp)])]
  {
  }

  /** Sorting loses and adds nothing. */
  method SortByHash(ts: seq<TxnView>) returns (r: seq<TxnView>)
    ensures Descending(r) && multiset(r) == multiset(ts)
  {
    hide AsBytes, Leq;
    r := [];
    for i := 0 to |ts|
      invariant Descending(r) && multiset(r) == multiset(ts[..i])
    {
      var j := 0;
      while j < |r| && Leq(AsBytes(ts[i].hash), AsBytes(r[j].hash))
        invariant 0 <= j <= |r|
        invariant forall k :: 0 <= k < j ==> Leq(AsBytes(ts[i].hash), AsBytes(r[k].hash))
      {
        j := j + 1;
      }
      InsertDescending(r, j, ts[i]);
      InsertOne(r, j, ts[i]);
      assert ts[..i + 1] == ts[..i] + [ts[i]];
      r := r[..j] + [ts[i]] + r[j..];
    }
    assert ts[..|ts|] == ts;
  }

  lemma InsertOne(r: seq<TxnView>, j: nat, t: TxnView)
    requires j <= |r|
    ensures multiset(r[..j] + [t] + r[j..]) == multiset(r) + multiset{t}
  {
    assert r == r[..j] + r[j..];
  }

  lemma InsertDescending(r: seq<TxnView>, j: nat, t: TxnView)
    requires Descending(r) && j <= |r|
    requires forall k :: 0 <= k < j ==> Leq(AsBytes(t.hash), AsBytes(r[k].hash))
    requires j < |r| ==> !Leq(AsBytes(t.hash), AsBytes(r[j].hash))
    ensures Descending(r[..j] + [t] + r[j..])
  {
    hide AsBytes, Leq;
    forall k | j <= k < |r| ensures Leq(AsBytes(r[k].hash), AsBytes(t.hash)) {
      LeqTotal(AsBytes(r[j].hash), AsBytes(t.hash));
      if k > j {
        LeqTransitive(AsBytes(r[k].hash), AsBytes(r[j].hash), AsBytes(t.hash));
      } else {
        LeqTotal(AsBytes(r[k].hash), AsBytes(t.hash));
      }
    }
    var n := r[..j] + [t] + r[j..];
    assert forall x :: 0 <= x < |n| ==> n[x] == if x < j then r[x] else if x == j then t else r[x - 1];
  }

  method GetBlockTransactionsWithHypersync(p: Params, index: Index, height: UInt64, blockHash: Ascii)
    returns (ts: seq<TxnView>)
    requires index.Valid()
    ensures IsFakeBlock(p, index.state, height, blockHash, ts)
  {
    if height == 0 {
      return [];
    }
    var balances, locked, staked, lockedStake := index.GetHypersyncBlockBalances(height);
    ghost var m := Maps(balances, locked, staked, lockedStake);
    var o0 := RangeOrder(balances);
    var o1 := RangeOrder(locked);
    var o2 := RangeOrder(staked);
    var o3 := RangeOrder(lockedStake);
    ghost var o := Orders(o0, o1, o2, o3);
    ts := GiftMaps(p, m, o, balances, locked, staked, lockedStake, o0, o1, o2, o3, blockHash);
    ts := SortByHash(ts);
    assert RangedAs(p, MapsAt(index.state, height), blockHash, o, ts);
  }

  /** The four loops in turn. */
  method GiftMaps(p: Params, ghost m: Maps, ghost o: Orders,
                  balances: BalanceMap, locked: BalanceMap, staked: BalanceMap, lockedStake: BalanceMap,
                  o0: seq<Holder>, o1: seq<Holder>, o2: seq<Holder>, o3: seq<Holder>, blockHash: Ascii)
    returns (ts: seq<TxnView>)
    requires m == Maps(balances, locked, staked, lockedStake) && o == Orders(o0, o1, o2, o3) && OrdersOf(o, m)
    ensures ts == FakeTxns(p, blockHash, Gifts(p, o, m))
  {
    ghost var g0 := FlatMap(o0, GiftOf(p, DESOBalance, balances));
    ghost var g1 := g0 + FlatMap(o1, GiftOf(p, CreatorCoinLocked, locked));
    ghost var g2 := g1 + FlatMap(o2, GiftOf(p, ValidatorStaked, staked));
    hide FlatMap, HashChain, AsBytes, FakeTxns, AccountOf;
    var currentHash := AsBytes(Reverse(blockHash));
    StartOfChain(p, blockHash);
    assert [] + g0 == g0;
    ts, currentHash := GiftAll(p, DESOBalance, balances, o0, blockHash, currentHash, [], []);
    ts, currentHash := GiftAll(p, CreatorCoinLocked, locked, o1, blockHash, currentHash, ts, g0);
    ts, currentHash := GiftAll(p, ValidatorStaked, staked, o2, blockHash, currentHash, ts, g1);
    ts, currentHash := GiftAll(p, LockedStake, lockedStake, o3, blockHash, currentHash, ts, g2);
  }

  lemma StartOfChain(p: Params, blockHash: Ascii)
    ensures HashChain(p, blockHash, 0) == AsBytes(Reverse(blockHash))
    ensures FakeTxns(p, blockHash, []) == []
  {
  }

  // ---------------------------------------------------------------- order of iteration does not matter

  lemma {:induction false} FlatMapPermutation<A, B>(a: seq<A>, b: seq<A>, f: A -> seq<B>)
    requires multiset(a) == multiset(b)
    ensures multiset(FlatMap(a, f)) == multiset(FlatMap(b, f))
  {
    if a == [] {
      assert |multiset(b)| == |multiset(a)| == 0;
    } else {
      var init, x := a[..|a| - 1], a[|a| - 1];
      assert a == init + [x];
      assert x in multiset(b);
      var j :| 0 <= j < |b| && b[j] == x;
      var l, r := b[..j], b[j + 1..];
      assert b == l + [x] + r;
      Without(init, x, l, r);
      FlatMapPermutation(init, l + r, f);
      hide FlatMap;
      FlatMapSplit(l, x, r, f);
    }
  }

  lemma FlatMapSplit<A, B>(l: seq<A>, x: A, r: seq<A>, f: A -> seq<B>)
    ensures multiset(FlatMap(l + [x] + r, f)) == multiset(FlatMap(l + r, f)) + multiset(f(x))
  {
    FlatMapOne(x, f);
    hide FlatMap;
    FlatMapConcat(l + [x], r, f);
    FlatMapConcat(l, [x], f);
    FlatMapConcat(l, r, f);
  }

  lemma {:induction false} FlatMapConcat<A, B>(a: seq<A>, b: seq<A>, f: A -> seq<B>)
    ensures FlatMap(a + b, f) == FlatMap(a, f) + FlatMap(b, f)
  {
    if b == [] {
      assert a + b == a;
    } else {
      assert (a + b)[..|a + b| - 1] == a + b[..|b| - 1];
      FlatMapConcat(a, b[..|b| - 1], f);
    }
  }

  lemma {:induction false} DistinctCounts(ks: seq<Holder>, k: Holder)
    requires forall i, j :: 0 <= i < j < |ks| ==> ks[i] != ks[j]
    ensures multiset(ks)[k] == if k in ks then 1 else 0
  {
    if ks != [] {
      var init, x := ks[..|ks| - 1], ks[|ks| - 1];
      assert ks == init + [x];
      DistinctCounts(init, k);
    }
  }

  /** Two orders of the same map are permutations of each other. */
  lemma OrdersPermute(a: seq<Holder>, b: seq<Holder>, m: BalanceMap)
    requires IsOrderOf(a, m) && IsOrderOf(b, m)
    ensures multiset(a) == multiset(b)
  {
    forall k ensures multiset(a)[k] == multiset(b)[k] {
      DistinctCounts(a, k);
      DistinctCounts(b, k);
    }
  }

  lemma GiftsPermute(p: Params, o: Orders, o': Orders, m: Maps)
    requires OrdersOf(o, m) && OrdersOf(o', m)
    ensures multiset(Gifts(p, o, m)) == multiset(Gifts(p, o', m))
  {
    OrdersPermute(o.deso, o'.deso, m.deso);
    OrdersPermute(o.coins, o'.coins, m.coins);
    OrdersPermute(o.staked, o'.staked, m.staked);
    OrdersPermute(o.locked, o'.locked, m.locked);
    FlatMapPermutation(o.deso, o'.deso, GiftOf(p, DESOBalance, m.deso));
    FlatMapPermutation(o.coins, o'.coins, GiftOf(p, CreatorCoinLocked, m.coins));
    FlatMapPermutation(o.staked, o'.staked, GiftOf(p, ValidatorStaked, m.staked));
    FlatMapPermutation(o.locked, o'.locked, GiftOf(p, LockedStake, m.locked));
    hide FlatMap, IsOrderOf;
  }

  function HashText(): TxnView -> string {
    (t: TxnView) => t.hash
  }

  function HashBytes(): TxnView -> Bytes {
    (t: TxnView) => AsBytes(t.hash)
  }

  function GiftIn(): TxnView -> Op {
    (t: TxnView) => if t.ops == [] then Op(0, Account("", None), 0, OutputOp) else t.ops[0]
  }

  ghost predicate DescendingBytes(a: seq<Bytes>) {
    forall i, j :: 0 <= i < j < |a| ==> Leq(a[j], a[i])
  }

  lemma LastIsLeast(a: seq<Bytes>, y: Bytes)
    requires DescendingBytes(a) && y in a
    ensures Leq(a[|a| - 1], y)
  {
    LeqTotal(y, y);
  }

  /** Descending lists with the same elements are the same list. */
  lemma {:induction false} DescendingUnique(a: seq<Bytes>, b: seq<Bytes>)
    requires multiset(a) == multiset(b) && DescendingBytes(a) && DescendingBytes(b)
    ensures a == b
  {
    assert |a| == |multiset(a)| == |multiset(b)| == |b|;
    if a != [] {
      var x, y := a[|a| - 1], b[|b| - 1];
      assert x in multiset(b) && y in multiset(a);
      LastIsLeast(a, y);
      LastIsLeast(b, x);
      LeqAntisymmetric(x, y);
      hide Leq;
      DropLast(a, b, x);
      DescendingUnique(a[..|a| - 1], b[..|b| - 1]);
      assert a == a[..|a| - 1] + [x] && b == b[..|b| - 1] + [x];
    }
  }

  lemma DropLast(a: seq<Bytes>, b: seq<Bytes>, x: Bytes)
    requires multiset(a) == multiset(b) && a != [] && b != [] && a[|a| - 1] == b[|b| - 1] == x
    ensures multiset(a[..|a| - 1]) == multiset(b[..|b| - 1])
  {
    assert a == a[..|a| - 1] + [x] && b == [] + b[..|b| - 1] + [x];
    Without(a[..|a| - 1], x, b[..|b| - 1], []);
    assert b[..|b| - 1] + [x] + [] == b && b[..|b| - 1] + [] == b[..|b| - 1];
  }

  lemma {:induction false} MapPermutation<A, B>(a: seq<A>, b: seq<A>, f: A -> B)
    requires multiset(a) == multiset(b)
    ensures multiset(Map(a, f)) == multiset(Map(b, f))
  {
    MapIsFlatMap(a, f);
    MapIsFlatMap(b, f);
    FlatMapPermutation(a, b, Single(f));
  }

  function Single<A, B>(f: A -> B): A -> seq<B> {
    (x: A) => [f(x)]
  }

  lemma {:induction false} MapIsFlatMap<A, B>(a: seq<A>, f: A -> B)
    ensures Map(a, f) == FlatMap(a, Single(f))
  {
    if a != [] {
      MapIsFlatMap(a[..|a| - 1], f);
    }
  }

  function OpOfGift(): Gift -> Op {
    (g: Gift) => Op(0, g.account, g.amount, OutputOp)
  }

  /** Hashes depend on the number of gifts alone, operations on the gifts. */
  lemma FakeTxnsAgree(p: Params, blockHash: Ascii, g: seq<Gift>, g': seq<Gift>)
    requires multiset(g) == multiset(g')
    ensures Map(FakeTxns(p, blockHash, g), HashBytes()) == Map(FakeTxns(p, blockHash, g'), HashBytes())
    ensures multiset(Map(FakeTxns(p, blockHash, g), GiftIn())) == multiset(Map(FakeTxns(p, blockHash, g'), GiftIn()))
  {
    assert |g| == |multiset(g)| == |multiset(g')| == |g'|;
    hide AsBytes, HashChain, Map;
    SameHashes(p, blockHash, g, g');
    MapPermutation(g, g', OpOfGift());
    OpsOfGifts(p, blockHash, g);
    OpsOfGifts(p, blockHash, g');
  }

  lemma SameHashes(p: Params, blockHash: Ascii, g: seq<Gift>, g': seq<Gift>)
    requires |g| == |g'|
    ensures Map(FakeTxns(p, blockHash, g), HashBytes()) == Map(FakeTxns(p, blockHash, g'), HashBytes())
  {
    hide AsBytes, HashChain;
  }

  lemma OpsOfGifts(p: Params, blockHash: Ascii, g: seq<Gift>)
    ensures Map(FakeTxns(p, blockHash, g), GiftIn()) == Map(g, OpOfGift())
  {
    hide AsBytes, HashChain;
  }

  lemma DescendingHashes(ts: seq<TxnView>)
    requires Descending(ts)
    ensures DescendingBytes(Map(ts, HashBytes()))
  {
    hide AsBytes, Leq;
  }

  /** Bytes tell plain texts apart. */
  lemma AsciiBytes(a: string, b: string)
    requires AsBytes(a) == AsBytes(b)
    requires (forall i :: 0 <= i < |a| ==> a[i] as int < 128) && forall i :: 0 <= i < |b| ==> b[i] as int < 128
    ensures a == b
  {
    assert |a| == |AsBytes(a)| == |AsBytes(b)| == |b|;
    forall i | 0 <= i < |a| ensures a[i] == b[i] {
      assert AsBytes(a)[i] == AsBytes(b)[i];
    }
  }

  /** The number of non-zero entries of a map. */
  ghost function NonZero(m: BalanceMap): nat {
    |NonZeroOf(m.Keys, m)|
  }

  ghost function NonZeroOf(ks: set<Holder>, m: BalanceMap): set<Holder> {
    set k | k in ks && k in m && m[k] != 0
  }

  ghost function SetOf(ks: seq<Holder>): set<Holder> {
    set k | k in ks
  }

  lemma NonZeroSnoc(init: seq<Holder>, last: Holder, m: BalanceMap)
    requires last in m && last !in init
    ensures |NonZeroOf(SetOf(init + [last]), m)| == |NonZeroOf(SetOf(init), m)| + if m[last] != 0 then 1 else 0
  {
    var a, b := NonZeroOf(SetOf(init), m), NonZeroOf(SetOf(init + [last]), m);
    assert b == if m[last] != 0 then a + {last} else a;
  }

  lemma {:induction false} GiftCount(p: Params, t: BalanceType, m: BalanceMap, ks: seq<Holder>)
    requires (forall i, j :: 0 <= i < j < |ks| ==> ks[i] != ks[j]) && forall i :: 0 <= i < |ks| ==> ks[i] in m
    ensures |FlatMap(ks, GiftOf(p, t, m))| == |NonZeroOf(SetOf(ks), m)|
  {
    hide AccountOf;
    if ks == [] {
      assert NonZeroOf(SetOf(ks), m) == {};
    } else {
      var init, last := ks[..|ks| - 1], ks[|ks| - 1];
      GiftCount(p, t, m, init);
      hide NonZeroOf, SetOf;
      assert ks == init + [last];
      NonZeroSnoc(init, last, m);
    }
  }

  lemma GiftsCount(p: Params, o: Orders, m: Maps)
    requires OrdersOf(o, m)
    ensures |Gifts(p, o, m)| == NonZero(m.deso) + NonZero(m.coins) + NonZero(m.staked) + NonZero(m.locked)
  {
    OrderCount(p, DESOBalance, m.deso, o.deso);
    OrderCount(p, CreatorCoinLocked, m.coins, o.coins);
    OrderCount(p, ValidatorStaked, m.staked, o.staked);
    OrderCount(p, LockedStake, m.locked, o.locked);
    hide IsOrderOf, FlatMap, NonZero;
  }

  lemma OrderCount(p: Params, t: BalanceType, m: BalanceMap, ks: seq<Holder>)
    requires IsOrderOf(ks, m)
    ensures |FlatMap(ks, GiftOf(p, t, m))| == NonZero(m)
  {
    forall i | 0 <= i < |ks| ensures ks[i] in m {
      assert ks[i] in ks;
    }
    GiftCount(p, t, m, ks);
    assert SetOf(ks) == m.Keys;
  }

  lemma ChainSteps(p: Params, blockHash: Ascii, n: nat)
    ensures |HashChain(p, blockHash, 0)| == |blockHash|
    ensures forall i :: 0 <= i < |blockHash| ==> HashChain(p, blockHash, 0)[i] == blockHash[|blockHash| - 1 - i] as int
    ensures HashChain(p, blockHash, n + 1) == p.doubleHash(HashChain(p, blockHash, n))
  {
    assert HashChain(p, blockHash, n + 1) == p.doubleHash(HashChain(p, blockHash, n));
    hide HashChain;
    assert HashChain(p, blockHash, 0) == AsBytes(Reverse(blockHash)) by {
      StartOfChain(p, blockHash);
    }
  }

  lemma HashesOfChain(p: Params, blockHash: Ascii, fs: seq<TxnView>, gs: seq<Gift>) returns (chain: seq<Bytes>)
    requires fs == FakeTxns(p, blockHash, gs)
    ensures |chain| == |fs| + 1 && |chain[0]| == |blockHash|
    ensures forall i :: 0 <= i < |blockHash| ==> chain[0][i] == blockHash[|blockHash| - 1 - i] as int
    ensures forall i :: 0 <= i < |fs| ==> chain[i + 1] == p.doubleHash(chain[i])
    ensures Map(fs, HashText()) == Map(chain[1..], p.hex)
  {
    hide HashChain, Map;
    ChainSteps(p, blockHash, 0);
    chain := seq(|fs| + 1, i requires 0 <= i <= |fs| => HashChain(p, blockHash, i));
    forall i | 0 <= i < |fs| ensures chain[i + 1] == p.doubleHash(chain[i]) {
      ChainSteps(p, blockHash, i);
    }
    assert forall i :: 0 <= i < |fs| ==> Map(fs, HashText())[i] == p.hex(chain[i + 1]) == Map(chain[1..], p.hex)[i];
  }

  /** A synthetic block has one transaction per non-zero entry of its maps. Their
      hashes are the texts of a chain that starts with the bytes of the block hash
      read backwards, each link the double hash of the one before. */
  lemma FakeBlockHashes(p: Params, s: State, height: UInt64, blockHash: Ascii, ts: seq<TxnView>) returns (chain: seq<Bytes>)
    requires height > 0 && IsFakeBlock(p, s, height, blockHash, ts)
    ensures var m := MapsAt(s, height);
            |ts| == NonZero(m.deso) + NonZero(m.coins) + NonZero(m.staked) + NonZero(m.locked)
    ensures |chain| == |ts| + 1 && |chain[0]| == |blockHash|
    ensures forall i :: 0 <= i < |blockHash| ==> chain[0][i] == blockHash[|blockHash| - 1 - i] as int
    ensures forall i :: 0 <= i < |ts| ==> chain[i + 1] == p.doubleHash(chain[i])
    ensures multiset(Map(ts, HashText())) == multiset(Map(chain[1..], p.hex))
  {
    var m := MapsAt(s, height);
    var o :| RangedAs(p, m, blockHash, o, ts);
    var fs := FakeTxns(p, blockHash, Gifts(p, o, m));
    GiftsCount(p, o, m);
    hide Gifts, OrdersOf, AsBytes, Leq, HashChain, Descending, NonZero, MapsAt, Map, FakeTxns;
    assert |ts| == |multiset(ts)| == |multiset(fs)| == |fs|;
    MapPermutation(ts, fs, HashText());
    chain := HashesOfChain(p, blockHash, fs, Gifts(p, o, m));
  }

  lemma TextOrder(a: string, b: string)
    requires (forall i :: 0 <= i < |a| ==> a[i] as int < 128) && forall i :: 0 <= i < |b| ==> b[i] as int < 128
    requires Leq(AsBytes(a), AsBytes(b))
    ensures forall k :: 0 <= k < |a| && k < |b| && b[..k] == a[..k] ==> a[k] <= b[k]
    ensures b <= a ==> b == a
  {
    forall k | 0 <= k < |a| && k < |b| && b[..k] == a[..k] ensures a[k] <= b[k] {
      assert AsBytes(a)[..k] == AsBytes(a[..k]) == AsBytes(b[..k]) == AsBytes(b)[..k];
      LeqReads(AsBytes(a), AsBytes(b), k);
    }
    if b <= a {
      assert AsBytes(b) == AsBytes(a)[..|b|];
      LeqOfLonger(AsBytes(a), AsBytes(b));
      AsciiBytes(a, b);
    }
  }

  /** The hashes descend as texts: where two of them first differ, the later one has
      the smaller character, and a text comes after those that it begins. */
  lemma FakeBlockDescends(p: Params, s: State, height: UInt64, blockHash: Ascii, ts: seq<TxnView>, i: nat, j: nat)
    requires IsFakeBlock(p, s, height, blockHash, ts) && i < j < |ts|
    ensures forall k :: 0 <= k < |ts[i].hash| && k < |ts[j].hash| && ts[i].hash[..k] == ts[j].hash[..k] ==>
              ts[j].hash[k] <= ts[i].hash[k]
    ensures ts[i].hash <= ts[j].hash ==> ts[i].hash == ts[j].hash
  {
    FakeHashesAscii(p, s, height, blockHash, ts);
    TextOrder(ts[j].hash, ts[i].hash);
  }

  /** The gift of one non-zero entry of a map. */
  ghost predicate GiftFrom(p: Params, t: BalanceType, m: BalanceMap, account: Account, amount: int) {
    exists k :: k in m && m[k] != 0 && account == AccountOf(p, t, k) && amount == m[k]
  }

  ghost predicate AllFrom(p: Params, t: BalanceType, m: BalanceMap, gs: seq<Gift>) {
    forall i :: 0 <= i < |gs| ==> GiftFrom(p, t, m, gs[i].account, gs[i].amount)
  }

  lemma {:induction false} GiftsAreFrom(p: Params, t: BalanceType, m: BalanceMap, ks: seq<Holder>)
    ensures AllFrom(p, t, m, FlatMap(ks, GiftOf(p, t, m)))
  {
    hide AccountOf;
    if ks != [] {
      var k := ks[|ks| - 1];
      GiftsAreFrom(p, t, m, ks[..|ks| - 1]);
      if k in m && m[k] != 0 {
        assert GiftFrom(p, t, m, AccountOf(p, t, k), m[k]);
      }
    }
  }

  /** DESO balances come first, then creator coins, stakes and locked stake. */
  ghost predicate InOrder(p: Params, m: Maps, i: nat, account: Account, amount: int) {
    var a := NonZero(m.deso);
    var b := a + NonZero(m.coins);
    var c := b + NonZero(m.staked);
    if i < a then GiftFrom(p, DESOBalance, m.deso, account, amount)
    else if i < b then GiftFrom(p, CreatorCoinLocked, m.coins, account, amount)
    else if i < c then GiftFrom(p, ValidatorStaked, m.staked, account, amount)
    else GiftFrom(p, LockedStake, m.locked, account, amount)
  }

  lemma PartsInOrder(p: Params, m: Maps, a: seq<Gift>, b: seq<Gift>, c: seq<Gift>, d: seq<Gift>, i: nat)
    requires AllFrom(p, DESOBalance, m.deso, a) && AllFrom(p, CreatorCoinLocked, m.coins, b)
    requires AllFrom(p, ValidatorStaked, m.staked, c) && AllFrom(p, LockedStake, m.locked, d)
    requires |a| == NonZero(m.deso) && |b| == NonZero(m.coins) && |c| == NonZero(m.staked) && i < |a + b + c + d|
    ensures InOrder(p, m, i, (a + b + c + d)[i].account, (a + b + c + d)[i].amount)
  {
    hide GiftFrom, NonZero;
  }

  lemma GiftsInOrder(p: Params, o: Orders, m: Maps, i: nat)
    requires OrdersOf(o, m) && i < |Gifts(p, o, m)|
    ensures InOrder(p, m, i, Gifts(p, o, m)[i].account, Gifts(p, o, m)[i].amount)
  {
    hide FlatMap, NonZero, AllFrom, IsOrderOf, InOrder;
    OrderCount(p, DESOBalance, m.deso, o.deso);
    OrderCount(p, CreatorCoinLocked, m.coins, o.coins);
    OrderCount(p, ValidatorStaked, m.staked, o.staked);
    GiftsAreFrom(p, DESOBalance, m.deso, o.deso);
    GiftsAreFrom(p, CreatorCoinLocked, m.coins, o.coins);
    GiftsAreFrom(p, ValidatorStaked, m.staked, o.staked);
    GiftsAreFrom(p, LockedStake, m.locked, o.locked);
    PartsInOrder(p, m, FlatMap(o.deso, GiftOf(p, DESOBalance, m.deso)), FlatMap(o.coins, GiftOf(p, CreatorCoinLocked, m.coins)),
                 FlatMap(o.staked, GiftOf(p, ValidatorStaked, m.staked)), FlatMap(o.locked, GiftOf(p, LockedStake, m.locked)), i);
  }

  /** The hash of a synthetic transaction says which kind of balance it stands for:
      the links of the chain go to the DESO balances first, and so on. */
  lemma FakeBlockInOrder(p: Params, s: State, height: UInt64, blockHash: Ascii, ts: seq<TxnView>, x: nat) returns (i: nat)
    requires height > 0 && IsFakeBlock(p, s, height, blockHash, ts) && x < |ts|
    ensures i < |ts| && ts[x].hash == p.hex(HashChain(p, blockHash, i + 1))
    ensures |ts[x].ops| == 1 && InOrder(p, MapsAt(s, height), i, ts[x].ops[0].account, ts[x].ops[0].value)
  {
    var m := MapsAt(s, height);
    var o :| RangedAs(p, m, blockHash, o, ts);
    var gs := Gifts(p, o, m);
    var fs := FakeTxns(p, blockHash, gs);
    hide Gifts, Descending, HashChain, MapsAt, OrdersOf, InOrder, FakeTxns;
    assert |ts| == |multiset(ts)| == |multiset(fs)| == |fs|;
    assert ts[x] in multiset(ts) && ts[x] in multiset(fs);
    i :| 0 <= i < |fs| && fs[i] == ts[x];
    GiftsInOrder(p, o, m, i);
  }

  lemma FakeHashesAscii(p: Params, s: State, height: UInt64, blockHash: Ascii, ts: seq<TxnView>)
    requires IsFakeBlock(p, s, height, blockHash, ts)
    ensures forall i :: 0 <= i < |ts| ==> forall j :: 0 <= j < |ts[i].hash| ==> ts[i].hash[j] as int < 128
  {
    if height > 0 {
      var o :| RangedAs(p, MapsAt(s, height), blockHash, o, ts);
      var fs := FakeTxns(p, blockHash, Gifts(p, o, MapsAt(s, height)));
      hide Gifts, OrdersOf, AsBytes, Leq, HashChain, Descending, MapsAt;
      forall i | 0 <= i < |ts| ensures forall j :: 0 <= j < |ts[i].hash| ==> ts[i].hash[j] as int < 128 {
        assert ts[i] in multiset(ts);
        assert ts[i] in multiset(fs);
        var k :| 0 <= k < |fs| && fs[k] == ts[i];
      }
    }
  }

  /** However the maps were ranged over, a synthetic block has the same descending
      list of hashes and the same multiset of output operations. */
  lemma FakeBlockIsDetermined(p: Params, s: State, height: UInt64, blockHash: Ascii, a: seq<TxnView>, b: seq<TxnView>)
    requires IsFakeBlock(p, s, height, blockHash, a) && IsFakeBlock(p, s, height, blockHash, b)
    ensures Map(a, HashText()) == Map(b, HashText())
    ensures multiset(Map(a, GiftIn())) == multiset(Map(b, GiftIn()))
  {
    if height > 0 {
      SameByBytes(p, s, height, blockHash, a, b);
      FakeHashesAscii(p, s, height, blockHash, a);
      FakeHashesAscii(p, s, height, blockHash, b);
      hide IsFakeBlock, AsBytes;
      assert |a| == |Map(a, HashBytes())| == |Map(b, HashBytes())| == |b|;
      forall i | 0 <= i < |a| ensures a[i].hash == b[i].hash {
        assert Map(a, HashBytes())[i] == Map(b, HashBytes())[i];
        AsciiBytes(a[i].hash, b[i].hash);
      }
    }
  }

  lemma SameByBytes(p: Params, s: State, height: UInt64, blockHash: Ascii, a: seq<TxnView>, b: seq<TxnView>)
    requires height > 0 && IsFakeBlock(p, s, height, blockHash, a) && IsFakeBlock(p, s, height, blockHash, b)
    ensures Map(a, HashBytes()) == Map(b, HashBytes())
    ensures multiset(Map(a, GiftIn())) == multiset(Map(b, GiftIn()))
  {
    var m := MapsAt(s, height);
    var o :| RangedAs(p, m, blockHash, o, a);
    var o' :| RangedAs(p, m, blockHash, o', b);
    GiftsPermute(p, o, o', m);
    DescendingHashes(a);
    DescendingHashes(b);
    var f, f' := FakeTxns(p, blockHash, Gifts(p, o, m)), FakeTxns(p, blockHash, Gifts(p, o', m));
    FakeTxnsAgree(p, blockHash, Gifts(p, o, m), Gifts(p, o', m));
    hide Gifts, OrdersOf, AsBytes, Leq, HashChain, Map, Descending, DescendingBytes, HashBytes, GiftIn;
    MapPermutation(a, f, HashBytes());
    MapPermutation(b, f', HashBytes());
    DescendingUnique(Map(a, HashBytes()), Map(b, HashBytes()));
    MapPermutation(a, f, GiftIn());
    MapPermutation(b, f', GiftIn());
  }

  // ---------------------------------------------------------------- nothing is lost

  ghost function Pick(m: BalanceMap): (k: Holder)
    requires m != map[]
    ensures k in m
  {
    var k :| k in m;
    k
  }

  /** The sum of a map's balances. */
  ghost function MapTotal(m: BalanceMap): nat {
    if m == map[] then 0 else MapTotal(m - {Pick(m)}) + m[Pick(m)]
  }

  function BalanceFn(m: BalanceMap): Holder -> int {
    (k: Holder) => if k in m then m[k] else 0
  }

  lemma {:induction false} OrderTotal(ks: seq<Holder>, m: BalanceMap)
    requires IsOrderOf(ks, m)
    ensures Sum(ks, BalanceFn(m)) == MapTotal(m)
    decreases |ks|
  {
    if ks == [] {
      assert m == map[];
    } else {
      assert ks[0] in ks;
      var k := Pick(m);
      var j :| 0 <= j < |ks| && ks[j] == k;
      var less, rest := ks[..j] + ks[j + 1..], m - {k};
      RestOrder(ks, m, j);
      OrderTotal(less, rest);
      hide Sum, IsOrderOf, BalanceFn;
      SumWithout(ks, BalanceFn(m), j);
      SumPointwise(less, less, BalanceFn(m), BalanceFn(rest));
    }
  }

  lemma RestOrder(ks: seq<Holder>, m: BalanceMap, j: nat)
    requires IsOrderOf(ks, m) && j < |ks| && ks[j] in m
    ensures IsOrderOf(ks[..j] + ks[j + 1..], m - {ks[j]})
    ensures BalanceFn(m)(ks[j]) == m[ks[j]]
    ensures var less := ks[..j] + ks[j + 1..];
            forall i :: 0 <= i < |less| ==> BalanceFn(m)(less[i]) == BalanceFn(m - {ks[j]})(less[i])
  {
    var less := ks[..j] + ks[j + 1..];
    OthersRemain(ks, j);
    forall i | 0 <= i < |less| ensures less[i] in m - {ks[j]} {
      assert less[i] in ks;
    }
    forall k | k in m - {ks[j]} ensures k in less {
      assert k in ks;
    }
  }

  /** Taking one of distinct keys out leaves the others. */
  lemma OthersRemain(ks: seq<Holder>, j: nat)
    requires j < |ks| && forall i, l :: 0 <= i < l < |ks| ==> ks[i] != ks[l]
    ensures var less := ks[..j] + ks[j + 1..];
            && (forall i, l :: 0 <= i < l < |less| ==> less[i] != less[l])
            && (forall i :: 0 <= i < |less| ==> less[i] in ks && less[i] != ks[j])
            && (forall k :: k in ks && k != ks[j] ==> k in less)
  {
    var less := ks[..j] + ks[j + 1..];
    assert forall i :: 0 <= i < |less| ==> less[i] == if i < j then ks[i] else ks[i + 1];
    forall k | k in ks && k != ks[j] ensures k in less {
      var i :| 0 <= i < |ks| && ks[i] == k;
      assert less[if i < j then i else i - 1] == k;
    }
  }

  function GiftAmount(): Gift -> int {
    (g: Gift) => g.amount
  }

  lemma GiftTotal(p: Params, t: BalanceType, m: BalanceMap, ks: seq<Holder>)
    requires IsOrderOf(ks, m)
    ensures Sum(FlatMap(ks, GiftOf(p, t, m)), GiftAmount()) == MapTotal(m)
  {
    OrderTotal(ks, m);
    hide Sum, FlatMap, AccountOf, IsOrderOf;
    var f := GiftOf(p, t, m);
    forall i | 0 <= i < |ks| ensures Sum(f(ks[i]), GiftAmount()) == BalanceFn(m)(ks[i]) {
      if f(ks[i]) == [] {
        SumZero([], GiftAmount());
      } else {
        SumOnly(f(ks[i]), GiftAmount(), 0);
      }
    }
    SumFlatMap(ks, f, GiftAmount(), BalanceFn(m));
  }

  lemma GiftsTotal(p: Params, o: Orders, m: Maps)
    requires OrdersOf(o, m)
    ensures Sum(Gifts(p, o, m), GiftAmount()) == MapTotal(m.deso) + MapTotal(m.coins) + MapTotal(m.staked) + MapTotal(m.locked)
  {
    GiftTotal(p, DESOBalance, m.deso, o.deso);
    GiftTotal(p, CreatorCoinLocked, m.coins, o.coins);
    GiftTotal(p, ValidatorStaked, m.staked, o.staked);
    GiftTotal(p, LockedStake, m.locked, o.locked);
    var a, b := FlatMap(o.deso, GiftOf(p, DESOBalance, m.deso)), FlatMap(o.coins, GiftOf(p, CreatorCoinLocked, m.coins));
    var c, d := FlatMap(o.staked, GiftOf(p, ValidatorStaked, m.staked)), FlatMap(o.locked, GiftOf(p, LockedStake, m.locked));
    hide Sum, FlatMap, IsOrderOf, MapTotal;
    SumConcat(a + b + c, d, GiftAmount());
    SumConcat(a + b, c, GiftAmount());
    SumConcat(a, b, GiftAmount());
  }

  function ValueFn(): TxnView -> int {
    (t: TxnView) => if t.ops == [] then 0 else t.ops[0].value
  }

  /** One output and nothing else. */
  predicate IsGift(t: TxnView) {
    |t.ops| == 1 && t.ops[0].index == 0 && t.ops[0].kind == OutputOp
  }

  /** A synthetic block consists of single outputs, and they add up to the four
      block maps: skipping zeros and sorting lose nothing. */
  lemma FakeBlockTotal(p: Params, s: State, height: UInt64, blockHash: Ascii, ts: seq<TxnView>)
    requires height > 0 && IsFakeBlock(p, s, height, blockHash, ts)
    ensures forall t :: t in ts ==> IsGift(t)
    ensures var m := MapsAt(s, height);
            Sum(ts, ValueFn()) == MapTotal(m.deso) + MapTotal(m.coins) + MapTotal(m.staked) + MapTotal(m.locked)
  {
    var m := MapsAt(s, height);
    var o :| RangedAs(p, m, blockHash, o, ts);
    hide Sum, Gifts, OrdersOf, MapTotal, Descending, IsGift, MapsAt;
    GiftsTotal(p, o, m);
    SumPermutation(ts, FakeTxns(p, blockHash, Gifts(p, o, m)), ValueFn());
    OneOutputEach(p, blockHash, Gifts(p, o, m));
    forall t | t in ts ensures IsGift(t) {
      assert t in multiset(ts) && t in multiset(FakeTxns(p, blockHash, Gifts(p, o, m)));
    }
  }

  lemma OneOutputEach(p: Params, blockHash: Ascii, gs: seq<Gift>)
    ensures forall t :: t in FakeTxns(p, blockHash, gs) ==> IsGift(t)
    ensures Sum(FakeTxns(p, blockHash, gs), ValueFn()) == Sum(gs, GiftAmount())
  {
    hide HashChain, Sum;
    forall i | 0 <= i < |gs| ensures ValueFn()(FakeTxns(p, blockHash, gs)[i]) == GiftAmount()(gs[i]) {
      assert FakeTxns(p, blockHash, gs)[i].ops == [Op(0, gs[i].account, gs[i].amount, OutputOp)];
    }
    SumPointwise(FakeTxns(p, blockHash, gs), gs, ValueFn(), GiftAmount());
  }
}
