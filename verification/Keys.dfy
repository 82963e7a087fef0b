/** The key layout of the balance index: one byte of namespace, fixed-width
    fields, and a whole history held in the keys themselves. */
module Keys {
  import opened ByteStrings

  const PREFIX_BALANCE: Byte := 1
  const PREFIX_LOCKED_BALANCE: Byte := 2
  const PREFIX_HYPERSYNC_BLOCK: Byte := 3
  const PREFIX_VALIDATOR_STAKED: Byte := 4
  const PREFIX_LOCKED_STAKE: Byte := 5

  datatype BalanceType = DESOBalance | CreatorCoinLocked | ValidatorStaked | LockedStake

  /** A public key or a PKID: both are 33 bytes and the index treats them alike. */
  type PublicKey = b: Bytes | |b| == 33 witness seq(33, i => 0)

  /** Who holds a balance: a key for three of the balance types, a
      (staker, validator, epoch) triple for locked stake. */
  datatype Holder =
    | KeyHolder(pk: PublicKey)
    | LockedHolder(staker: PublicKey, validator: PublicKey, epoch: UInt64)

  predicate Fits(t: BalanceType, holder: Holder) {
    t.LockedStake? <==> holder.LockedHolder?
  }

  /** One balance written at one height. */
  datatype Snap = Snap(t: BalanceType, holder: Holder, height: UInt64, balance: UInt64)

  datatype BlockId = BlockId(height: UInt64, t: BalanceType)

  function BalanceTypePrefix(t: BalanceType): Byte {
    match t
    case DESOBalance => PREFIX_BALANCE
    case CreatorCoinLocked => PREFIX_LOCKED_BALANCE
    case ValidatorStaked => PREFIX_VALIDATOR_STAKED
    case LockedStake => PREFIX_LOCKED_STAKE
  }

  function BalanceTypeByte(t: BalanceType): Byte {
    match t
    case DESOBalance => 0
    case CreatorCoinLocked => 1
    case ValidatorStaked => 2
    case LockedStake => 3
  }

  function BalanceSnapshotKey(t: BalanceType, pk: PublicKey, height: UInt64, balance: UInt64): Bytes {
    [BalanceTypePrefix(t)] + pk + EncodeUint64(height) + EncodeUint64(balance)
  }

  function LockedStakeBalanceSnapshotKey(t: BalanceType, staker: PublicKey, validator: PublicKey, epoch: UInt64,
                                         height: UInt64, balance: UInt64): Bytes {
    [BalanceTypePrefix(t)] + staker + validator + EncodeUint64(epoch) + EncodeUint64(height) + EncodeUint64(balance)
  }

  function HypersyncHeightToBlockKey(height: UInt64, t: BalanceType): Bytes {
    [PREFIX_HYPERSYNC_BLOCK] + EncodeUint64(height) + [BalanceTypeByte(t)]
  }

  function BlockKey(id: BlockId): Bytes {
    HypersyncHeightToBlockKey(id.height, id.t)
  }

  function KeyOf(e: Snap): Bytes {
    match e.holder
    case KeyHolder(pk) => BalanceSnapshotKey(e.t, pk, e.height, e.balance)
    case LockedHolder(s, v, ep) => LockedStakeBalanceSnapshotKey(e.t, s, v, ep, e.height, e.balance)
  }

  /** The part of a snapshot key that names the balance type and the holder. */
  function HolderPrefix(t: BalanceType, holder: Holder): Bytes {
    match holder
    case KeyHolder(pk) => [BalanceTypePrefix(t)] + pk
    case LockedHolder(s, v, ep) => [BalanceTypePrefix(t)] + s + v + EncodeUint64(ep)
  }

  function Stamp(height: UInt64, balance: UInt64): (r: Bytes)
    ensures |r| == 16
  {
    EncodeUint64(height) + EncodeUint64(balance)
  }

  lemma KeyShape(e: Snap)
    ensures KeyOf(e) == HolderPrefix(e.t, e.holder) + Stamp(e.height, e.balance)
  {
  }

  /** (height, balance) of the first entry is not above that of the second. */
  predicate NotNewer(h1: nat, b1: nat, h2: nat, b2: nat) {
    h1 < h2 || (h1 == h2 && b1 <= b2)
  }

  lemma StampOrder(h1: UInt64, b1: UInt64, h2: UInt64, b2: UInt64)
    ensures Leq(Stamp(h1, b1), Stamp(h2, b2)) <==> NotNewer(h1, b1, h2, b2)
  {
    Uint64Order(h1, h2, EncodeUint64(b1), EncodeUint64(b2));
    Uint64Order(b1, b2, [], []);
    assert EncodeUint64(b1) + [] == EncodeUint64(b1) && EncodeUint64(b2) + [] == EncodeUint64(b2);
  }

  /** For one balance type and one holder, byte order on keys is exactly
      lexicographic order on (height, balance). */
  lemma KeyOrder(t: BalanceType, holder: Holder, h1: UInt64, b1: UInt64, h2: UInt64, b2: UInt64)
    ensures Leq(KeyOf(Snap(t, holder, h1, b1)), KeyOf(Snap(t, holder, h2, b2))) <==> NotNewer(h1, b1, h2, b2)
  {
    KeyShape(Snap(t, holder, h1, b1));
    KeyShape(Snap(t, holder, h2, b2));
    LeqCommonPrefix(HolderPrefix(t, holder), Stamp(h1, b1), Stamp(h2, b2));
    StampOrder(h1, b1, h2, b2);
  }

  /** Fixed offsets: the balance is the eight bytes after prefix, key and height. */
  lemma BalanceAtOffset42(t: BalanceType, pk: PublicKey, height: UInt64, balance: UInt64)
    ensures |BalanceSnapshotKey(t, pk, height, balance)| == 50
    ensures DecodeUint64(BalanceSnapshotKey(t, pk, height, balance)[42..]) == balance
  {
    assert BalanceSnapshotKey(t, pk, height, balance)[42..] == EncodeUint64(balance) + [];
    Uint64RoundTrip(balance, []);
  }

  /** The layout on disk: a namespace byte from 1 to 5, then the fields at fixed
      offsets, each number eight bytes. */
  lemma DiskLayout(t: BalanceType, pk: PublicKey, staker: PublicKey, validator: PublicKey, epoch: UInt64, height: UInt64, balance: UInt64)
    ensures var k := BalanceSnapshotKey(t, pk, height, balance);
            && k[0] == match t { case DESOBalance => 1 case CreatorCoinLocked => 2 case ValidatorStaked => 4 case LockedStake => 5 }
            && |k| == 50 && k[1..34] == pk && k[34..42] == EncodeUint64(height) && k[42..50] == EncodeUint64(balance)
    ensures var k := LockedStakeBalanceSnapshotKey(LockedStake, staker, validator, epoch, height, balance);
            && |k| == 91 && k[0] == 5 && k[1..34] == staker && k[34..67] == validator
            && k[67..75] == EncodeUint64(epoch) && k[75..83] == EncodeUint64(height) && k[83..91] == EncodeUint64(balance)
    ensures var k := HypersyncHeightToBlockKey(height, t);
            && |k| == 10 && k[0] == 3 && k[1..9] == EncodeUint64(height)
            && k[9] == match t { case DESOBalance => 0 case CreatorCoinLocked => 1 case ValidatorStaked => 2 case LockedStake => 3 }
  {
    hide EncodeUint64;
  }

  lemma PrefixesDiffer(t: BalanceType, u: BalanceType)
    ensures BalanceTypePrefix(t) == BalanceTypePrefix(u) <==> t == u
    ensures BalanceTypePrefix(t) != PREFIX_HYPERSYNC_BLOCK
  {
  }

  lemma StampInjective(h1: UInt64, b1: UInt64, h2: UInt64, b2: UInt64)
    requires Stamp(h1, b1) == Stamp(h2, b2)
    ensures h1 == h2 && b1 == b2
  {
    assert EncodeUint64(h1) == Stamp(h1, b1)[..8] == Stamp(h2, b2)[..8] == EncodeUint64(h2);
    assert EncodeUint64(b1) == Stamp(h1, b1)[8..] == Stamp(h2, b2)[8..] == EncodeUint64(b2);
    Uint64Injective(h1, h2);
    Uint64Injective(b1, b2);
  }

  /** A key that starts with a holder's prefix belongs to that holder. */
  lemma PrefixNamesHolder(e: Snap, t: BalanceType, holder: Holder)
    requires Fits(e.t, e.holder) && Fits(t, holder)
    requires HolderPrefix(t, holder) <= KeyOf(e)
    ensures e.t == t && e.holder == holder
  {
    var p, k := HolderPrefix(t, holder), KeyOf(e);
    assert p[0] == k[0];
    PrefixesDiffer(e.t, t);
    match holder
    case KeyHolder(pk) =>
      assert pk == p[1..34] == k[1..34] == e.holder.pk;
    case LockedHolder(s, v, ep) =>
      assert s == p[1..34] == k[1..34] == e.holder.staker;
      assert v == p[34..67] == k[34..67] == e.holder.validator;
      assert EncodeUint64(ep) == p[67..75] == k[67..75] == EncodeUint64(e.holder.epoch);
      Uint64Injective(ep, e.holder.epoch);
  }

  lemma KeyInjective(e: Snap, f: Snap)
    requires Fits(e.t, e.holder) && Fits(f.t, f.holder)
    requires KeyOf(e) == KeyOf(f)
    ensures e == f
  {
    KeyShape(e);
    KeyShape(f);
    PrefixNamesHolder(e, f.t, f.holder);
    var p := HolderPrefix(f.t, f.holder);
    assert Stamp(e.height, e.balance) == KeyOf(e)[|p|..] == KeyOf(f)[|p|..] == Stamp(f.height, f.balance);
    StampInjective(e.height, e.balance, f.height, f.balance);
  }

  lemma BlockKeyInjective(a: BlockId, b: BlockId)
    requires BlockKey(a) == BlockKey(b)
    ensures a == b
  {
    assert EncodeUint64(a.height) == BlockKey(a)[1..9] == BlockKey(b)[1..9] == EncodeUint64(b.height);
    assert BlockKey(a)[9] == BalanceTypeByte(a.t) && BlockKey(b)[9] == BalanceTypeByte(b.t);
    Uint64Injective(a.height, b.height);
  }

  lemma BlockKeyApart(id: BlockId, e: Snap)
    ensures BlockKey(id) != KeyOf(e)
    ensures BlockKey(id)[0] != BalanceTypePrefix(e.t)
  {
    PrefixesDiffer(e.t, e.t);
    assert KeyOf(e)[0] == BalanceTypePrefix(e.t);
  }
}
