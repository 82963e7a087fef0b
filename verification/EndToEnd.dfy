/** Whole histories against the chain's own record of effects: translation,
    squashing, synthetic blocks, commit handler, byte keys and reverse seek together. */
module EndToEnd {
  import opened ByteStrings
  import opened Keys
  import opened IndexState
  import opened Events
  import opened Int64
  import opened Operations
  import opened Chain
  import opened Translation
  import opened BlockLedger
  import opened SubBlocks
  import opened FakeBlocks
  import opened Serving
  import opened Reconciliation


  /** What a measure of blocks gives over the translated blocks below n. */
  ghost function DriftUpTo(env: Env, chain: seq<ChainBlock>, drift: Block -> int, n: nat): int
    requires n <= |chain|
  {
    if n == 0 then 0
    else
      DriftUpTo(env, chain, drift, n - 1)
      + if ServesFake(env, chain[n - 1].block.height) then 0 else drift(chain[n - 1].block)
  }

  /** Every translated block does to the account what its view says, plus a drift. */
  ghost predicate OffBy(p: Params, env: Env, d: SnapshotData, chain: seq<ChainBlock>, t: BalanceType, pk: PublicKey,
                        drift: Block -> int)
  {
    forall j :: 0 <= j < |chain| && !ServesFake(env, chain[j].block.height) ==>
      Indexable(chain[j].block)
      && BlockNet(Translate(p, chain[j].block), IdOf(AccountOf(p, t, KeyHolder(pk))))
         == TrackedChange(env, d, chain, t, pk, j) + drift(chain[j].block)
  }

  lemma GapIsDrift(p: Params, env: Env, d: SnapshotData, chain: seq<ChainBlock>, served: seq<seq<TxnView>>,
                   t: BalanceType, pk: PublicKey, drift: Block -> int, j: nat)
    requires j < |chain| && ServesChain(p, env, Final(env, d, chain), chain, served) && OffBy(p, env, d, chain, t, pk, drift)
    ensures Gap(p, env, d, chain, served, t, pk, j)
            == if ServesFake(env, chain[j].block.height) then 0 else drift(chain[j].block)
  {
    hide TrackedChange, BlockNet, Translate, AccountOf, Final, IsFakeBlock;
    assert IsServed(p, env, Final(env, d, chain), chain[j].block, served[j]);
  }

  lemma {:induction false} GapsAreDrift(p: Params, env: Env, d: SnapshotData, chain: seq<ChainBlock>, served: seq<seq<TxnView>>,
                                        t: BalanceType, pk: PublicKey, drift: Block -> int, n: nat)
    requires ServesChain(p, env, Final(env, d, chain), chain, served) && OffBy(p, env, d, chain, t, pk, drift) && n <= |chain|
    ensures Gaps(p, env, d, chain, served, t, pk, n) == DriftUpTo(env, chain, drift, n)
  {
    hide OffBy, Gap, Final, IsServed, ServesFake;
    if n > 0 {
      GapsAreDrift(p, env, d, chain, served, t, pk, drift, n - 1);
      GapIsDrift(p, env, d, chain, served, t, pk, drift, n - 1);
    }
  }

  /** The history's law with the drift of its blocks, and when it vanishes. */
  lemma DriftLaw(p: Params, env: Env, d: SnapshotData, chain: seq<ChainBlock>, served: seq<seq<TxnView>>,
                 t: BalanceType, pk: PublicKey, drift: Block -> int)
    requires Lawful(p) && t != LockedStake && ByHeight(chain) && DistinctSnapshot(d, t)
    requires ServesChain(p, env, Final(env, d, chain), chain, served) && OffBy(p, env, d, chain, t, pk, drift)
    ensures forall h: UInt64 :: h < |chain| ==> DriftsBy(p, env, d, chain, served, t, pk, drift, h)
    ensures (forall h: UInt64 :: h < |chain| ==> Reconciles(p, env, d, chain, served, t, pk, h))
            <==> NeverDrifts(env, chain, drift) && NeverEarly(env, d, chain, t, KeyHolder(pk))
  {
    hide Lawful, IsServed, Final, Gap, DistinctSnapshot, Reconciles, OffBy, Gaps, DriftUpTo, ServesFake, Total, BalanceAt,
         AccountOf, Early, NeverEarly;
    forall h: UInt64 | h < |chain|
      ensures DriftsBy(p, env, d, chain, served, t, pk, drift, h)
    {
      HistoryLaw(p, env, d, chain, served, t, pk, h);
      GapsAreDrift(p, env, d, chain, served, t, pk, drift, h + 1);
    }
    ReconcilesExactlyWhen(p, env, d, chain, served, t, pk);
    forall j | 0 <= j < |chain|
      ensures Gap(p, env, d, chain, served, t, pk, j)
              == if ServesFake(env, chain[j].block.height) then 0 else drift(chain[j].block)
    {
      GapIsDrift(p, env, d, chain, served, t, pk, drift, j);
    }
  }

  /** Served operations and the index differ by exactly the drift of the blocks 0..h,
      and by what commits before the server was set have put the index off by. */
  ghost predicate DriftsBy(p: Params, env: Env, d: SnapshotData, chain: seq<ChainBlock>, served: seq<seq<TxnView>>,
                           t: BalanceType, pk: PublicKey, drift: Block -> int, h: UInt64)
    requires |served| == |chain| && h < |chain|
  {
    Total(served, h + 1, IdOf(AccountOf(p, t, KeyHolder(pk))))
    == BalanceAt(Final(env, d, chain).snaps, t, KeyHolder(pk), h) + DriftUpTo(env, chain, drift, h + 1)
       + Early(env, d, chain, t, KeyHolder(pk), h)
  }

  /** No translated block drifts. */
  ghost predicate NeverDrifts(env: Env, chain: seq<ChainBlock>, drift: Block -> int) {
    forall j :: 0 <= j < |chain| && !ServesFake(env, chain[j].block.height) ==> drift(chain[j].block) == 0
  }

  /** The views agree with the recorded effects, block by block, about one kind of
      balance: this speaks of the chain library alone, not of the translation. */
  ghost predicate ViewsMatchEffects(env: Env, d: SnapshotData, chain: seq<ChainBlock>, t: BalanceType, pk: PublicKey,
                                    accounted: Block -> bool, meaning: Block -> int)
  {
    forall j :: 0 <= j < |chain| && !ServesFake(env, chain[j].block.height) ==>
      accounted(chain[j].block) && meaning(chain[j].block) == TrackedChange(env, d, chain, t, pk, j)
  }

  ghost function MainAccounted(p: Params): Block -> bool { (b: Block) => Accounted(p, b) }
  ghost function MainMeaning(p: Params, a: string): Block -> int { (b: Block) => Meaning(p, b, a) }
  ghost function MainDrift(p: Params, a: string): Block -> int { (b: Block) => Drift(p, b, a) }

  ghost function CoinAccounted(): Block -> bool { (b: Block) => CoinsAccounted(b) }
  ghost function CoinMeaningFn(p: Params, a: string): Block -> int { (b: Block) => CoinMeaning(p, b, a) }
  ghost function CoinDriftFn(p: Params, a: string): Block -> int { (b: Block) => CoinDrift(p, b, a) }

  ghost function PoolAccounted(): Block -> bool { (b: Block) => PoolsAccounted(b) }
  ghost function PoolMeaningFn(p: Params, a: string): Block -> int { (b: Block) => PoolMeaning(p, b, a) }
  ghost function PoolDriftFn(p: Params, a: string): Block -> int { (b: Block) => PoolDrift(p, b, a) }

  /** End to end for main accounts: if the chain's views agree with its recorded
      effects, then translation, squashing, synthetic blocks, commit handler, byte
      keys and reverse seek together are off, at every height, by exactly the drift
      of the translated blocks and what commits before the server was set have left;
      and they reconcile at every height exactly when there is neither. */
  lemma EndToEndReconciles(p: Params, env: Env, d: SnapshotData, chain: seq<ChainBlock>,
                           served: seq<seq<TxnView>>, pk: PublicKey)
    requires Lawful(p) && ByHeight(chain) && DistinctSnapshot(d, DESOBalance)
    requires ServesChain(p, env, Final(env, d, chain), chain, served)
    requires ViewsMatchEffects(env, d, chain, DESOBalance, pk, MainAccounted(p), MainMeaning(p, p.base58(pk)))
    ensures forall h: UInt64 :: h < |chain| ==> DriftsBy(p, env, d, chain, served, DESOBalance, pk, MainDrift(p, p.base58(pk)), h)
    ensures (forall h: UInt64 :: h < |chain| ==> Reconciles(p, env, d, chain, served, DESOBalance, pk, h))
            <==> NeverDrifts(env, chain, MainDrift(p, p.base58(pk))) && NeverEarly(env, d, chain, DESOBalance, KeyHolder(pk))
  {
    hide Lawful, IsServed, Final, DistinctSnapshot, Reconciles, DriftsBy, NeverEarly, DriftUpTo, NeverDrifts, ServesFake,
         TrackedChange, Accounted, Meaning, Drift, BlockNet, Translate;
    forall j | 0 <= j < |chain| && !ServesFake(env, chain[j].block.height)
      ensures Indexable(chain[j].block)
              && BlockNet(Translate(p, chain[j].block), IdOf(AccountOf(p, DESOBalance, KeyHolder(pk))))
                 == TrackedChange(env, d, chain, DESOBalance, pk, j) + MainDrift(p, p.base58(pk))(chain[j].block)
    {
      BlockHasItsMeaning(p, chain[j].block, p.base58(pk));
    }
    DriftLaw(p, env, d, chain, served, DESOBalance, pk, MainDrift(p, p.base58(pk)));
  }

  /** End to end for creator coins: the drift is royalties that are due and not paid,
      unmatched inner lists, and overflow. */
  lemma CoinsReconcile(p: Params, env: Env, d: SnapshotData, chain: seq<ChainBlock>,
                       served: seq<seq<TxnView>>, pk: PublicKey)
    requires Lawful(p) && ByHeight(chain) && DistinctSnapshot(d, CreatorCoinLocked)
    requires ServesChain(p, env, Final(env, d, chain), chain, served)
    requires ViewsMatchEffects(env, d, chain, CreatorCoinLocked, pk, CoinAccounted(), CoinMeaningFn(p, p.base58(pk)))
    ensures forall h: UInt64 :: h < |chain| ==> DriftsBy(p, env, d, chain, served, CreatorCoinLocked, pk, CoinDriftFn(p, p.base58(pk)), h)
    ensures (forall h: UInt64 :: h < |chain| ==> Reconciles(p, env, d, chain, served, CreatorCoinLocked, pk, h))
            <==> NeverDrifts(env, chain, CoinDriftFn(p, p.base58(pk))) && NeverEarly(env, d, chain, CreatorCoinLocked, KeyHolder(pk))
  {
    hide Lawful, IsServed, Final, DistinctSnapshot, Reconciles, DriftsBy, NeverEarly, DriftUpTo, NeverDrifts, ServesFake,
         TrackedChange, CoinMeaning, CoinDrift, BlockNet, Translate, EveryLeaf;
    forall j | 0 <= j < |chain| && !ServesFake(env, chain[j].block.height)
      ensures Indexable(chain[j].block)
              && BlockNet(Translate(p, chain[j].block), IdOf(AccountOf(p, CreatorCoinLocked, KeyHolder(pk))))
                 == TrackedChange(env, d, chain, CreatorCoinLocked, pk, j) + CoinDriftFn(p, p.base58(pk))(chain[j].block)
    {
      BlockHasItsCoins(p, chain[j].block, pk);
    }
    DriftLaw(p, env, d, chain, served, CreatorCoinLocked, pk, CoinDriftFn(p, p.base58(pk)));
  }

  /** End to end for validators: the drift is twice what is unstaked, unmatched inner
      lists, and overflow. */
  lemma PoolsReconcile(p: Params, env: Env, d: SnapshotData, chain: seq<ChainBlock>,
                       served: seq<seq<TxnView>>, pk: PublicKey)
    requires Lawful(p) && ByHeight(chain) && DistinctSnapshot(d, ValidatorStaked)
    requires ServesChain(p, env, Final(env, d, chain), chain, served)
    requires ViewsMatchEffects(env, d, chain, ValidatorStaked, pk, PoolAccounted(), PoolMeaningFn(p, p.base58(pk)))
    ensures forall h: UInt64 :: h < |chain| ==> DriftsBy(p, env, d, chain, served, ValidatorStaked, pk, PoolDriftFn(p, p.base58(pk)), h)
    ensures (forall h: UInt64 :: h < |chain| ==> Reconciles(p, env, d, chain, served, ValidatorStaked, pk, h))
            <==> NeverDrifts(env, chain, PoolDriftFn(p, p.base58(pk))) && NeverEarly(env, d, chain, ValidatorStaked, KeyHolder(pk))
  {
    hide Lawful, IsServed, Final, DistinctSnapshot, Reconciles, DriftsBy, NeverEarly, DriftUpTo, NeverDrifts, ServesFake,
         TrackedChange, PoolMeaning, PoolDrift, BlockNet, Translate, EveryLeaf, SmallRestakes;
    forall j | 0 <= j < |chain| && !ServesFake(env, chain[j].block.height)
      ensures Indexable(chain[j].block)
              && BlockNet(Translate(p, chain[j].block), IdOf(AccountOf(p, ValidatorStaked, KeyHolder(pk))))
                 == TrackedChange(env, d, chain, ValidatorStaked, pk, j) + PoolDriftFn(p, p.base58(pk))(chain[j].block)
    {
      BlockHasItsPools(p, chain[j].block, pk);
    }
    DriftLaw(p, env, d, chain, served, ValidatorStaked, pk, PoolDriftFn(p, p.base58(pk)));
  }

  // ---------------------------------------------------------------- the guards

  /** A test of the plain transactions of every translated block. */
  ghost predicate EveryBlock(env: Env, chain: seq<ChainBlock>, ok: Block -> bool) {
    forall j :: 0 <= j < |chain| && !ServesFake(env, chain[j].block.height) ==> ok(chain[j].block)
  }

  /** Short of overflow and with inner lists for all inner transactions. */
  ghost function CoinsRegular(p: Params, a: string): Block -> bool {
    (b: Block) => Indexable(b) && BlockPaired(b) && NoOverflow(CoinMeasure(p, a), b)
  }

  ghost function PoolsRegular(p: Params, v: string): Block -> bool {
    (b: Block) => Indexable(b) && BlockPaired(b) && NoOverflow(PoolMeasure(p, v), b) && IsInt64(Restaked(p, b, v))
  }

  ghost function PaysInFull(p: Params, a: string): Block -> bool {
    (b: Block) => Indexable(b) && EveryLeaf(PaysTest(p, a), b)
  }

  ghost function UnstakesNothing(p: Params, v: string): Block -> bool {
    (b: Block) => Indexable(b) && EveryLeaf(NoUnstakeTest(p, v), b)
  }

  /** A creator coin reconciles at every height exactly when every translated block
      pays the royalties it owes (no accepted bid that owes some has an unresolved
      bidder input, and no share is lost to truncation) and no early commit has
      changed the index. */
  lemma CoinsReconcileExactlyWhen(p: Params, env: Env, d: SnapshotData, chain: seq<ChainBlock>,
                                  served: seq<seq<TxnView>>, pk: PublicKey)
    requires Lawful(p) && ByHeight(chain) && DistinctSnapshot(d, CreatorCoinLocked)
    requires ServesChain(p, env, Final(env, d, chain), chain, served)
    requires ViewsMatchEffects(env, d, chain, CreatorCoinLocked, pk, CoinAccounted(), CoinMeaningFn(p, p.base58(pk)))
    requires EveryBlock(env, chain, CoinsRegular(p, p.base58(pk)))
    ensures (forall h: UInt64 :: h < |chain| ==> Reconciles(p, env, d, chain, served, CreatorCoinLocked, pk, h))
            <==> EveryBlock(env, chain, PaysInFull(p, p.base58(pk))) && NeverEarly(env, d, chain, CreatorCoinLocked, KeyHolder(pk))
  {
    hide Lawful, IsServed, Final, DistinctSnapshot, Reconciles, DriftsBy, NeverEarly, ServesFake, ViewsMatchEffects,
         CoinDrift, BlockPaired, NoOverflow, EveryLeaf;
    var a := p.base58(pk);
    CoinsReconcile(p, env, d, chain, served, pk);
    forall j | 0 <= j < |chain| && !ServesFake(env, chain[j].block.height)
      ensures CoinDriftFn(p, a)(chain[j].block) == 0 <==> PaysInFull(p, a)(chain[j].block)
    {
      assert CoinsRegular(p, a)(chain[j].block);
      CoinDriftExactlyWhen(p, chain[j].block, a);
    }
  }

  /** A validator account reconciles at every height exactly when no transaction of a
      translated block unstakes from it and no early commit has changed the index. */
  lemma PoolsReconcileExactlyWhen(p: Params, env: Env, d: SnapshotData, chain: seq<ChainBlock>,
                                  served: seq<seq<TxnView>>, pk: PublicKey)
    requires Lawful(p) && ByHeight(chain) && DistinctSnapshot(d, ValidatorStaked)
    requires ServesChain(p, env, Final(env, d, chain), chain, served)
    requires ViewsMatchEffects(env, d, chain, ValidatorStaked, pk, PoolAccounted(), PoolMeaningFn(p, p.base58(pk)))
    requires EveryBlock(env, chain, PoolsRegular(p, p.base58(pk)))
    ensures (forall h: UInt64 :: h < |chain| ==> Reconciles(p, env, d, chain, served, ValidatorStaked, pk, h))
            <==> EveryBlock(env, chain, UnstakesNothing(p, p.base58(pk))) && NeverEarly(env, d, chain, ValidatorStaked, KeyHolder(pk))
  {
    hide Lawful, IsServed, Final, DistinctSnapshot, Reconciles, DriftsBy, NeverEarly, ServesFake, ViewsMatchEffects,
         PoolDrift, BlockPaired, NoOverflow, EveryLeaf, Restaked;
    var v := p.base58(pk);
    PoolsReconcile(p, env, d, chain, served, pk);
    forall j | 0 <= j < |chain| && !ServesFake(env, chain[j].block.height)
      ensures PoolDriftFn(p, v)(chain[j].block) == 0 <==> UnstakesNothing(p, v)(chain[j].block)
    {
      assert PoolsRegular(p, v)(chain[j].block);
      PoolDriftExactlyWhen(p, chain[j].block, v);
    }
  }
}
