/** What the node serves: blocks (deso/block.go GetBlock) and balances
    (services/account_service.go). */
module Serving {
  import opened ByteStrings
  import opened Keys
  import opened IndexState
  import opened RosettaIndex
  import opened Events
  import opened Handlers
  import opened Operations
  import opened Chain
  import opened Translation
  import opened Identifiers
  import opened Conversion
  import opened FakeBlocks

  datatype Result<T> = Ok(value: T) | Err

  // ---------------------------------------------------------------- blocks

  /** The height is served from the synthetic blocks. */
  predicate ServesFake(env: Env, height: nat) {
    env.hyperSync && HasFirstSnapshot(env) && height <= env.firstSnapshot.value
  }

  /** No block committed at this height can change the index, whatever its view. */
  ghost predicate CommitsNothing(env: Env, height: UInt64, hasServer: bool) {
    forall s: State, v: View :: AfterCommit(env, s, Commit(height, Some(v), hasServer)) == s
  }

  /** The block switch and the handler's skip rule agree about a height exactly
      when the server is set or the height is not served synthetically: until the
      server is set, commits go through that synthetic blocks stand for. */
  lemma SameBoundaryExactlyWhen(env: Env, height: UInt64, hasServer: bool)
    ensures (ServesFake(env, height) <==> CommitsNothing(env, height, hasServer))
            <==> hasServer || !ServesFake(env, height)
  {
    if !(hasServer && ServesFake(env, height)) {
      var v := View(map[NOBODY.holder := 0], [], [], [], []);
      CommitSnapsOf(height, v, DESOBalance, NOBODY.holder);
      assert Snap(DESOBalance, NOBODY.holder, height, 0) in CommitSnaps(height, v);
      assert AfterCommit(env, EMPTY, Commit(height, Some(v), hasServer)) != EMPTY;
    }
  }

  ghost predicate IsServed(p: Params, env: Env, s: State, b: Block, ts: seq<TxnView>) {
    if ServesFake(env, b.height) then IsFakeBlock(p, s, b.height, b.hash, ts)
    else Indexable(b) && ts == Translate(p, b)
  }

  /** The switch between synthetic and translated blocks; a translated block must
      be stored. */
  method GetBlock(node: Node, p: Params, header: Block, stored: bool) returns (r: Result<seq<TxnView>>)
    requires node.index.Valid()
    requires stored && !ServesFake(node.env, header.height) ==>
               Indexable(header) && forall t :: t in header.txns ==> GenesisInputsExist(p, t)
    ensures r.Ok? <==> stored || ServesFake(node.env, header.height)
    ensures r.Ok? ==> IsServed(p, node.env, node.index.state, header, r.value)
  {
    if node.env.hyperSync {
      if node.env.firstSnapshot.Some? && node.env.firstSnapshot.value != 0
         && header.height <= node.env.firstSnapshot.value {
        var transactions := GetBlockTransactionsWithHypersync(p, node.index, header.height, header.hash);
        return Ok(transactions);
      }
    }
    if !stored {
      return Err;
    }
    var transactions := GetTransactionsForConvertBlock(p, header);
    return Ok(transactions);
  }

  // ---------------------------------------------------------------- balances

  /** The parser of locked-stake sub-accounts: it wants exactly two segments. */
  function ValidatorFromSubAccount(p: Params, sub: string): Result<PublicKey> {
    if !(LOCKED_STAKE_ENTRY <= sub) then Err
    else
      var segments := Split(sub);
      if |segments| != 2 then Err
      else
        var key := p.decodeKey(segments[1]);
        if key.None? then Err else Ok(key.value)
  }

  /** What an account identifier asks for. */
  datatype Query = BalanceOf(t: BalanceType, pk: PublicKey) | LockedBalanceOf(staker: PublicKey, validator: PublicKey) | Refused

  function Dispatch(p: Params, account: Account): Query {
    var key := p.decodeKey(account.address);
    if key.None? then Refused
    else if account.sub.None? then BalanceOf(DESOBalance, key.value)
    else
      var sub := account.sub.value;
      if sub == CREATOR_COIN then BalanceOf(CreatorCoinLocked, key.value)
      else if VALIDATOR_ENTRY <= sub then BalanceOf(ValidatorStaked, key.value)
      else if LOCKED_STAKE_ENTRY <= sub then
        var validator := ValidatorFromSubAccount(p, sub);
        if validator.Err? then Refused else LockedBalanceOf(key.value, validator.value)
      else Refused
  }

  /** What each identifier asks for, by the text of its sub-account. */
  lemma DispatchReads(p: Params, address: string, pk: PublicKey, rest: string)
    requires p.decodeKey(address) == Some(pk)
    ensures Dispatch(p, Account(address, None)) == BalanceOf(DESOBalance, pk)
    ensures Dispatch(p, Account(address, Some("CREATOR_COIN"))) == BalanceOf(CreatorCoinLocked, pk)
    ensures Dispatch(p, Account(address, Some("VALIDATOR_ENTRY" + rest))) == BalanceOf(ValidatorStaked, pk)
  {
    assert ("VALIDATOR_ENTRY" + rest)[0] == 'V' && CREATOR_COIN[0] == 'C';
  }

  /** A text with the locked-stake tag is read as a tag and a validator, and refused
      with more segments or fewer. */
  lemma DispatchReadsLocked(p: Params, address: string, pk: PublicKey, rest: string, validator: string)
    requires p.decodeKey(address) == Some(pk) && '-' !in rest && '-' !in validator
    ensures Dispatch(p, Account(address, Some("LOCKED_STAKE_ENTRY" + rest + "-" + validator)))
            == match p.decodeKey(validator) { case Some(key) => LockedBalanceOf(pk, key) case None => Refused }
  {
    var l := "LOCKED_STAKE_ENTRY" + rest;
    hide Split;
    assert '-' !in "LOCKED_STAKE_ENTRY";
    SplitJoin(l, validator);
    SplitPlain(validator);
    SplitPlain(l);
    IsLockedText(p, address, pk, l + "-" + validator);
  }

  lemma IsLockedText(p: Params, address: string, pk: PublicKey, text: string)
    requires p.decodeKey(address) == Some(pk) && "LOCKED_STAKE_ENTRY" <= text
    ensures Dispatch(p, Account(address, Some(text)))
            == if |Split(text)| != 2 then Refused
               else match p.decodeKey(Split(text)[1]) { case Some(key) => LockedBalanceOf(pk, key) case None => Refused }
  {
    hide Split;
    assert text[0] == 'L' && VALIDATOR_ENTRY[0] == 'V' && CREATOR_COIN[0] == 'C';
  }

  lemma OtherTextsAreRefused(p: Params, address: string, text: string)
    requires text != "CREATOR_COIN" && !("VALIDATOR_ENTRY" <= text) && !("LOCKED_STAKE_ENTRY" <= text)
    ensures Dispatch(p, Account(address, Some(text))) == Refused
  {
  }

  /** An address that does not decode is refused whatever it is asked for. */
  lemma BadAddressIsRefused(p: Params, address: string, sub: Option<string>)
    requires p.decodeKey(address).None?
    ensures Dispatch(p, Account(address, sub)) == Refused
  {
  }

  /** Every locked-stake identifier the printer makes is refused: it has three
      segments or more, and the parser accepts exactly two. */
  lemma PrintedLockedStakeIsRefused(p: Params, staker: Bytes, validator: Bytes, epoch: nat)
    ensures Dispatch(p, LockedStakeAccount(p, staker, validator, epoch)) == Refused
  {
    var v, d := p.base58(validator), Decimal(epoch);
    hide Split, Decimal;
    assert LOCKED_STAKE_ENTRY <= LOCKED_STAKE_ENTRY + "-" + v + "-" + d;
    assert (LOCKED_STAKE_ENTRY + "-" + v + "-" + d)[0] == 'L';
    SplitJoin(LOCKED_STAKE_ENTRY + "-" + v, d);
    SplitJoin(LOCKED_STAKE_ENTRY, v);
  }

  /** An emitted identifier of the three key-held types asks for the very balance it
      was indexed under; one of locked stake never gets an answer. */
  lemma DispatchInvertsEmission(p: Params, t: BalanceType, holder: Holder)
    requires Lawful(p) && Fits(t, holder)
    ensures Dispatch(p, AccountOf(p, t, holder)) == if holder.KeyHolder? then BalanceOf(t, holder.pk) else Refused
  {
    match holder
    case KeyHolder(pk) =>
      assert CREATOR_COIN[0] != VALIDATOR_ENTRY[0];
      assert !(VALIDATOR_ENTRY <= CREATOR_COIN);
    case LockedHolder(staker, validator, epoch) =>
      PrintedLockedStakeIsRefused(p, staker, validator, epoch);
  }

  /** The balance of an account at a height that has been resolved to a block. */
  method AccountBalanceSnapshot(node: Node, p: Params, account: Account, height: UInt64) returns (r: Result<nat>)
    requires node.index.Valid()
    ensures match Dispatch(p, account)
            case BalanceOf(t, pk) =>
              r == Ok(if t == LockedStake then 0 else BalanceAt(node.index.state.snaps, t, KeyHolder(pk), height))
            case LockedBalanceOf(staker, validator) =>
              r.Ok?
              && LockedAnswer(node.index.state.snaps, staker,
                              KeyOf(Snap(LockedStake, LockedHolder(staker, validator, 0), height, MAX_UINT64)), r.value)
              && (HasEntry(node.index.state, LockedStake, LockedHolder(staker, validator, 0), height) ==>
                          r.value == FromBigEndian(validator[8..16]))
            case Refused => r == Err
  {
    hide Split, FromBigEndian;
    var publicKey := p.decodeKey(account.address);
    if publicKey.None? {
      return Err;
    }
    var balance: nat;
    if account.sub.None? {
      balance := node.index.GetBalanceSnapshot(DESOBalance, publicKey.value, height);
    } else if account.sub.value == CREATOR_COIN {
      balance := node.index.GetBalanceSnapshot(CreatorCoinLocked, publicKey.value, height);
    } else if VALIDATOR_ENTRY <= account.sub.value {
      balance := node.index.GetBalanceSnapshot(ValidatorStaked, publicKey.value, height);
    } else if LOCKED_STAKE_ENTRY <= account.sub.value {
      var validator := ValidatorFromSubAccount(p, account.sub.value);
      if validator.Err? {
        return Err;
      }
      balance := node.index.GetLockedStakeBalanceSnapshot(LockedStake, publicKey.value, validator.value, 0, height);
    } else {
      return Err;
    }
    return Ok(balance);
  }
}
