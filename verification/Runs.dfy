/** The node from end to end: its handlers run over a chain, its blocks are served,
    their operations summed, and its balances queried. */
module Runs {
  import opened ByteStrings
  import opened Keys
  import opened IndexState
  import opened RosettaIndex
  import opened Partition
  import opened Events
  import opened Handlers
  import opened Operations
  import opened Chain
  import opened Translation
  import opened BlockLedger
  import opened FakeBlocks
  import opened Serving
  import opened Reconciliation

  /** The Go types of the events: balances by public key, records of the right kind. */
  ghost predicate TypedChain(chain: seq<ChainBlock>, d: SnapshotData) {
    d.Typed() && forall j :: 0 <= j < |chain| && chain[j].view.Some? ==> Homogeneous(chain[j].view.value.deso, false)
  }

  lemma CommitsNext(chain: seq<ChainBlock>, i: nat)
    requires i < |chain|
    ensures Commits(chain[..i + 1]) == Commits(chain[..i]) + [CommitOf(chain[i])]
  {
  }

  lemma AfterNext(env: Env, s: State, cs: seq<Commit>, c: Commit)
    ensures AfterCommits(env, s, cs + [c]) == AfterCommit(env, AfterCommits(env, s, cs), c)
  {
    assert (cs + [c])[..|cs + [c]| - 1] == cs;
  }

  /** Once the server is set it stays set. */
  ghost predicate ServerStays(chain: seq<ChainBlock>) {
    forall i, j :: 0 <= i < j < |chain| && chain[i].hasServer ==> chain[j].hasServer
  }

  /** One commit and the bootstrap of one balance type do not mind their order. */
  lemma BootCommutes(env: Env, s: State, c: Commit, t: BalanceType, rs: seq<Record>, first: UInt64)
    requires first > 0
    ensures AfterBoot(AfterCommit(env, s, c), t, rs, first) == AfterCommit(env, AfterBoot(s, t, rs, first), c)
  {
    hide CommitSnaps, Boot, Effective;
  }

  lemma SnapshotCommutesOnce(env: Env, s: State, c: Commit, d: SnapshotData)
    ensures AfterSnapshot(env, AfterCommit(env, s, c), d) == AfterCommit(env, AfterSnapshot(env, s, d), c)
  {
    hide AfterBoot, AfterCommit;
    if HasFirstSnapshot(env) {
      var first := env.firstSnapshot.value;
      var s1 := AfterBoot(s, DESOBalance, d.deso, first);
      var s2 := AfterBoot(s1, CreatorCoinLocked, d.creatorCoin, first);
      var s3 := AfterBoot(s2, ValidatorStaked, d.validators, first);
      BootCommutes(env, s, c, DESOBalance, d.deso, first);
      BootCommutes(env, s1, c, CreatorCoinLocked, d.creatorCoin, first);
      BootCommutes(env, s2, c, ValidatorStaked, d.validators, first);
      BootCommutes(env, s3, c, LockedStake, d.lockedStake, first);
    }
  }

  /** The index does not depend on when the snapshot completes among the commits. */
  lemma {:induction false} SnapshotCommutes(env: Env, s: State, cs: seq<Commit>, d: SnapshotData)
    ensures AfterSnapshot(env, AfterCommits(env, s, cs), d) == AfterCommits(env, AfterSnapshot(env, s, d), cs)
  {
    hide AfterSnapshot, AfterCommit;
    if cs != [] {
      SnapshotCommutes(env, s, cs[..|cs| - 1], d);
      SnapshotCommutesOnce(env, AfterCommits(env, s, cs[..|cs| - 1]), cs[|cs| - 1], d);
    }
  }

  /** The server is set, and a snapshot completes if the node syncs from one. */
  method GoOnline(node: Node, d: SnapshotData, ghost cs: seq<Commit>)
    requires node.index.Valid() && node.index.state == AfterCommits(node.env, EMPTY, cs) && d.Typed()
    modifies node, node.index, node.index.db
    ensures node.index.Valid() && node.hasServer
    ensures node.index.state == AfterCommits(node.env, Start(node.env, d), cs)
  {
    hide AfterSnapshot, AfterCommits;
    node.SetServer();
    if Hypersynced(node.env) {
      node.HandleSnapshotCompleted(d);
      SnapshotCommutes(node.env, EMPTY, cs, d);
    }
  }

  /** The event manager calls the handlers: commits, from before the server is set
      on, and the completed snapshot. Running the node reaches the state that the
      theorems speak of. */
  method RunChain(node: Node, d: SnapshotData, chain: seq<ChainBlock>)
    requires node.index.Valid() && node.index.state == EMPTY && !node.hasServer
    requires TypedChain(chain, d) && ServerStays(chain)
    modifies node, node.index, node.index.db
    ensures node.index.Valid() && node.index.state == Final(node.env, d, chain)
  {
    hide AfterSnapshot, AfterCommit, Commits, Start;
    NoCommits();
    assert chain[..0] == [];
    for i := 0 to |chain|
      invariant node.index.Valid()
      invariant forall j :: i <= j < |chain| && node.hasServer ==> chain[j].hasServer
      invariant node.index.state == AfterCommits(node.env, if node.hasServer then Start(node.env, d) else EMPTY, Commits(chain[..i]))
    {
      if chain[i].hasServer && !node.hasServer {
        GoOnline(node, d, Commits(chain[..i]));
      }
      CommitsNext(chain, i);
      AfterNext(node.env, if node.hasServer then Start(node.env, d) else EMPTY, Commits(chain[..i]), CommitOf(chain[i]));
      node.HandleBlockCommitted(chain[i].block.height, chain[i].view);
    }
    assert chain[..|chain|] == chain;
    if !node.hasServer {
      GoOnline(node, d, Commits(chain));
    }
  }

  lemma NoCommits()
    ensures Commits([]) == []
  {
  }

  /** What the translation of a block demands of the chain library. */
  ghost predicate Translatable(p: Params, env: Env, b: Block) {
    !ServesFake(env, b.height) ==> Indexable(b) && forall t :: t in b.txns ==> GenesisInputsExist(p, t)
  }

  method ServeChain(node: Node, p: Params, chain: seq<ChainBlock>) returns (served: seq<seq<TxnView>>)
    requires node.index.Valid() && forall j :: 0 <= j < |chain| ==> Translatable(p, node.env, chain[j].block)
    ensures ServesChain(p, node.env, node.index.state, chain, served)
  {
    hide IsServed;
    served := [];
    for i := 0 to |chain|
      invariant |served| == i
      invariant forall j :: 0 <= j < i ==> IsServed(p, node.env, node.index.state, chain[j].block, served[j])
    {
      assert Translatable(p, node.env, chain[i].block);
      var block := GetBlock(node, p, chain[i].block, true);
      served := served + [block.value];
    }
  }

  /** Adds up the operations of one account. */
  method SumOperations(ops: seq<Op>, account: Account) returns (sum: int)
    ensures sum == Net(ops, IdOf(account))
  {
    sum := 0;
    for i := 0 to |ops|
      invariant sum == Net(ops[..i], IdOf(account))
    {
      NetSnoc(ops[..i], ops[i], IdOf(account));
      assert ops[..i + 1] == ops[..i] + [ops[i]];
      if IdOf(ops[i].account) == IdOf(account) {
        sum := sum + ops[i].value;
      }
    }
    assert ops[..|ops|] == ops;
  }

  method SumBlock(ts: seq<TxnView>, account: Account) returns (sum: int)
    ensures sum == BlockNet(ts, IdOf(account))
  {
    sum := 0;
    for i := 0 to |ts|
      invariant sum == BlockNet(ts[..i], IdOf(account))
    {
      var n := SumOperations(ts[i].ops, account);
      assert ts[..i + 1][..i] == ts[..i];
      sum := sum + n;
    }
    assert ts[..|ts|] == ts;
  }

  /** Runs a fresh node over a chain, adds up the operations of one account over the
      blocks 0..h that it serves, and asks it for the account's balance at h: the
      two differ by exactly the gaps of the translated blocks, and by what commits
      handled before the server was set have put the index off by. */
  method CheckData(p: Params, env: Env, d: SnapshotData, chain: seq<ChainBlock>, t: BalanceType, pk: PublicKey, h: UInt64)
    returns (sum: int, reported: Result<nat>, ghost served: seq<seq<TxnView>>)
    requires Lawful(p) && t != LockedStake && ByHeight(chain) && h < |chain| && DistinctSnapshot(d, t)
    requires TypedChain(chain, d) && ServerStays(chain) && forall j :: 0 <= j < |chain| ==> Translatable(p, env, chain[j].block)
    ensures ServesChain(p, env, Final(env, d, chain), chain, served)
    ensures reported == Ok(BalanceAt(Final(env, d, chain).snaps, t, KeyHolder(pk), h))
    ensures sum == reported.value + Gaps(p, env, d, chain, served, t, pk, h + 1) + Early(env, d, chain, t, KeyHolder(pk), h)
    ensures BlocksMatchViews(p, env, d, chain, served, t, pk) && ServerInTime(env, chain) ==> sum == reported.value
  {
    hide Lawful, DistinctSnapshot, TypedChain, Translatable, IsServed, Final, Gap, Dispatch, AccountOf, BlockNet,
         BalanceAt, Early, ServerInTime, ServerStays;
    var node := new Node(env);
    RunChain(node, d, chain);
    var blocks := ServeChain(node, p, chain);
    served := blocks;
    var account := AccountOf(p, t, KeyHolder(pk));
    sum := 0;
    for j := 0 to h + 1
      invariant sum == Total(blocks, j, IdOf(account))
      invariant node.env == env && node.index.Valid() && node.index.state == Final(env, d, chain)
    {
      var n := SumBlock(blocks[j], account);
      sum := sum + n;
    }
    DispatchInvertsEmission(p, t, KeyHolder(pk));
    reported := AccountBalanceSnapshot(node, p, account, h);
    HistoryLaw(p, env, d, chain, served, t, pk, h);
    if BlocksMatchViews(p, env, d, chain, served, t, pk) && ServerInTime(env, chain) {
      NoGaps(p, env, d, chain, served, t, pk, h + 1);
      ServerInTimeMeansNeverEarly(env, d, chain, t, KeyHolder(pk));
      NeverEarlyMeansZero(env, d, chain, t, KeyHolder(pk), h);
    }
  }
}
