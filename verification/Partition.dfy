/** How a snapshot of N balances is spread over the synthetic blocks 1..S. */
module Partition {
  import opened ByteStrings
  import opened Keys
  import opened IndexState
  import opened RosettaIndex

  datatype Entry = Entry(holder: Holder, balance: UInt64)

  function PerBlock(n: nat, s: nat): (r: nat)
    requires s > 0
    ensures r > 0
  {
    if n < s then 1 else QuotientPositive(n, s); n / s
  }

  lemma QuotientPositive(n: nat, s: nat)
    requires 0 < s <= n
    ensures n / s > 0
  {
    assert n == s * (n / s) + n % s;
  }

  /** The block that entry i of n lands in. */
  function Slot(i: nat, n: nat, s: nat): nat
    requires s > 0
  {
    var j := i / PerBlock(n, s) + 1;
    if j < s then j else s
  }

  /** Block j takes the entries Lo(j)..Hi(j). */
  function Lo(j: nat, n: nat, s: nat): (r: nat)
    requires 1 <= j <= s
    ensures r <= n
  {
    var x := (j - 1) * PerBlock(n, s);
    if x < n then x else n
  }

  function Hi(j: nat, n: nat, s: nat): (r: nat)
    requires 1 <= j <= s
    ensures Lo(j, n, s) <= r <= n
  {
    LoNext(j, PerBlock(n, s));
    var x := j * PerBlock(n, s);
    if j < s && x < n then x else n
  }

  lemma LoNext(j: nat, per: nat)
    requires j >= 1
    ensures j * per == (j - 1) * per + per
  {
  }

  lemma {:induction false} DivBounds(i: nat, per: nat, q: nat)
    requires per > 0
    ensures i / per == q <==> q * per <= i < (q + 1) * per
    ensures i / per >= q <==> q * per <= i
  {
    var d, r := i / per, i % per;
    assert i == d * per + r && r < per;
    if d < q {
      MulMono(d + 1, q, per);
    } else if d > q {
      MulMono(q + 1, d, per);
    }
  }

  lemma MulMono(a: nat, b: nat, per: nat)
    requires a <= b
    ensures a * per <= b * per
  {
    assert b * per == a * per + (b - a) * per;
  }

  /** The running counter and the division agree on where an entry goes. */
  lemma SlotIsChunk(i: nat, j: nat, n: nat, s: nat)
    requires i < n && 1 <= j <= s
    ensures Slot(i, n, s) == j <==> Lo(j, n, s) <= i < Hi(j, n, s)
  {
    var per := PerBlock(n, s);
    DivBounds(i, per, j - 1);
  }

  /** The real sizes of the blocks: no ceiling, the last block takes the whole remainder. */
  lemma ChunkSize(j: nat, n: nat, s: nat)
    requires 1 <= j <= s
    ensures n >= s && j < s ==> Hi(j, n, s) - Lo(j, n, s) == n / s
    ensures n >= s && j == s ==> Hi(j, n, s) - Lo(j, n, s) == n / s + n % s
    ensures n < s ==> Hi(j, n, s) - Lo(j, n, s) == if j <= n then 1 else 0
  {
    var per := PerBlock(n, s);
    if n >= s {
      assert n == s * per + n % s;
      LoNext(s, per);
      MulMono(j, s, per);
      LoNext(j, per);
      if j < s {
        MulMono(j, s - 1, per);
      }
    } else {
      assert (j - 1) * 1 == j - 1 && j * 1 == j;
    }
  }

  // ---------------------------------------------------------------- the maps written per block

  ghost predicate Distinct(es: seq<Entry>) {
    forall i, j :: 0 <= i < j < |es| ==> es[i].holder != es[j].holder
  }

  ghost predicate AllFit(t: BalanceType, es: seq<Entry>) {
    forall i :: 0 <= i < |es| ==> Fits(t, es[i].holder)
  }

  /** The map that successive assignments build; the last assignment to a key wins. */
  function MapOf(es: seq<Entry>): BalanceMap {
    if es == [] then map[] else MapOf(es[..|es| - 1])[es[|es| - 1].holder := es[|es| - 1].balance]
  }

  lemma EntriesSnoc(es: seq<Entry>, e: Entry)
    ensures MapOf(es + [e]) == MapOf(es)[e.holder := e.balance]
  {
    assert (es + [e])[..|es + [e]| - 1] == es;
  }

  ghost function HoldersOf(es: seq<Entry>): set<Holder> {
    set i | 0 <= i < |es| :: es[i].holder
  }

  lemma {:induction false} MapOfKeys(es: seq<Entry>)
    ensures MapOf(es).Keys == HoldersOf(es)
  {
    if es != [] {
      var init, last := es[..|es| - 1], es[|es| - 1];
      MapOfKeys(init);
      forall k | k in HoldersOf(es) ensures k in HoldersOf(init) + {last.holder} {
        var i :| 0 <= i < |es| && es[i].holder == k;
        assert i < |init| ==> init[i].holder == k;
      }
      forall k | k in HoldersOf(init) + {last.holder} ensures k in HoldersOf(es) {
        if k in HoldersOf(init) {
          var i :| 0 <= i < |init| && init[i].holder == k;
          assert es[i].holder == k;
        }
      }
      assert HoldersOf(es) == HoldersOf(init) + {last.holder};
    }
  }

  lemma MapOfFits(es: seq<Entry>, t: BalanceType)
    requires AllFit(t, es)
    ensures Homogeneous(MapOf(es), t.LockedStake?)
  {
    MapOfKeys(es);
  }

  lemma {:induction false} MapOfSize(es: seq<Entry>)
    requires Distinct(es)
    ensures |MapOf(es)| == |es|
  {
    if es != [] {
      var init, last := es[..|es| - 1], es[|es| - 1];
      MapOfSize(init);
      MapOfKeys(init);
      assert last.holder !in MapOf(init);
      assert MapOf(es).Keys == MapOf(init).Keys + {last.holder};
    }
  }

  lemma {:induction false} MapOfDistinct(es: seq<Entry>, i: nat)
    requires Distinct(es) && i < |es|
    ensures es[i].holder in MapOf(es) && MapOf(es)[es[i].holder] == es[i].balance
  {
    if i < |es| - 1 {
      MapOfDistinct(es[..|es| - 1], i);
    }
  }

  // ---------------------------------------------------------------- the state one bootstrap adds

  function Chunk(es: seq<Entry>, j: nat, s: nat): seq<Entry>
    requires 1 <= j <= s
  {
    es[Lo(j, |es|, s)..Hi(j, |es|, s)]
  }

  ghost function BootSnaps(t: BalanceType, es: seq<Entry>, s: UInt64, upTo: nat): set<Snap>
    requires s > 0 && upTo <= |es|
  {
    set i | 0 <= i < upTo :: Snap(t, es[i].holder, Slot(i, |es|, s), es[i].balance)
  }

  ghost function BootBlocks(t: BalanceType, es: seq<Entry>, s: UInt64, below: nat): map<BlockId, BalanceMap>
    requires s > 0 && below <= s + 1
  {
    map id: BlockId | id in BootIds(t, |es|, s, below) :: MapOf(Chunk(es, id.height, s))
  }

  ghost function BootIds(t: BalanceType, n: nat, s: UInt64, below: nat): (ids: set<BlockId>)
    requires s > 0 && below <= s + 1
    ensures forall id :: id in ids <==> id.t == t && 1 <= id.height < below && Lo(id.height, n, s) < Hi(id.height, n, s)
  {
    set j: UInt64 | 1 <= j < below && Lo(j, n, s) < Hi(j, n, s) :: BlockId(j, t)
  }

  /** What the bootstrap of one balance type writes: every entry once as a
      snapshot, and the non-empty chunks as block maps. */
  ghost function Boot(t: BalanceType, es: seq<Entry>, s: UInt64): State
    requires s > 0
  {
    State(BootSnaps(t, es, s, |es|), BootBlocks(t, es, s, s + 1))
  }

  /** Each entry is in exactly one block of 1..S, with its balance, at the height
      of its only snapshot; every block has the exact number of entries. */
  lemma PartitionIsExact(t: BalanceType, es: seq<Entry>, s: UInt64, i: nat, j: UInt64)
    requires s > 0 && Distinct(es) && i < |es|
    ensures 1 <= Slot(i, |es|, s) <= s
    ensures es[i].holder in BlockMap(Boot(t, es, s), j, t) <==> j == Slot(i, |es|, s)
    ensures j == Slot(i, |es|, s) ==> BlockMap(Boot(t, es, s), j, t)[es[i].holder] == es[i].balance
    ensures forall h, b :: Snap(t, es[i].holder, h, b) in Boot(t, es, s).snaps
                           <==> h == Slot(i, |es|, s) && b == es[i].balance
  {
    BootBlockMap(t, es, s, j);
    DivBounds(i, PerBlock(|es|, s), 0);
    BootSnapOf(t, es, s, i);
    if 1 <= j <= s {
      InOwnChunk(es, i, j, s);
    }
  }

  lemma BootBlockMap(t: BalanceType, es: seq<Entry>, s: UInt64, j: UInt64)
    requires s > 0
    ensures BlockMap(Boot(t, es, s), j, t) == if 1 <= j <= s then MapOf(Chunk(es, j, s)) else map[]
  {
    assert BlockId(j, t) in BootIds(t, |es|, s, s + 1) <==> 1 <= j <= s && Lo(j, |es|, s) < Hi(j, |es|, s);
  }

  lemma BootSnapOf(t: BalanceType, es: seq<Entry>, s: UInt64, i: nat)
    requires s > 0 && Distinct(es) && i < |es|
    ensures forall h, b :: Snap(t, es[i].holder, h, b) in Boot(t, es, s).snaps
                           <==> h == Slot(i, |es|, s) && b == es[i].balance
  {
    forall h, b | Snap(t, es[i].holder, h, b) in Boot(t, es, s).snaps
      ensures h == Slot(i, |es|, s) && b == es[i].balance
    {
      var x :| 0 <= x < |es| && Snap(t, es[i].holder, h, b) == Snap(t, es[x].holder, Slot(x, |es|, s), es[x].balance);
      assert x == i;
    }
  }

  lemma InOwnChunk(es: seq<Entry>, i: nat, j: nat, s: nat)
    requires 1 <= j <= s && Distinct(es) && i < |es|
    ensures es[i].holder in MapOf(Chunk(es, j, s)) <==> j == Slot(i, |es|, s)
    ensures j == Slot(i, |es|, s) ==> MapOf(Chunk(es, j, s))[es[i].holder] == es[i].balance
  {
    var c, lo := Chunk(es, j, s), Lo(j, |es|, s);
    SlotIsChunk(i, j, |es|, s);
    MapOfKeys(c);
    if j == Slot(i, |es|, s) {
      assert c[i - lo] == es[i];
      MapOfDistinct(c, i - lo);
    }
    if es[i].holder in HoldersOf(c) {
      var x :| 0 <= x < |c| && c[x].holder == es[i].holder;
      assert c[x] == es[lo + x] && lo + x == i;
    }
  }

  lemma ChunkDistinct(es: seq<Entry>, j: nat, s: nat)
    requires Distinct(es) && 1 <= j <= s
    ensures Distinct(Chunk(es, j, s))
  {
  }

  lemma BlockSizesAreExact(t: BalanceType, es: seq<Entry>, s: UInt64, j: UInt64)
    requires 1 <= j <= s && Distinct(es)
    ensures var n, size := |es|, |BlockMap(Boot(t, es, s), j, t)|;
            && (n >= s && j < s ==> size == n / s)
            && (n >= s && j == s ==> size == n / s + n % s)
            && (n < s ==> size == if j <= n then 1 else 0)
  {
    ChunkSize(j, |es|, s);
    ChunkDistinct(es, j, s);
    MapOfSize(Chunk(es, j, s));
    BootBlockMap(t, es, s, j);
  }

  /** A holder outside the snapshot is in no block and has no snapshot. */
  lemma AbsentFromBoot(t: BalanceType, es: seq<Entry>, s: UInt64, holder: Holder, j: UInt64)
    requires s > 0 && forall i :: 0 <= i < |es| ==> es[i].holder != holder
    ensures holder !in BlockMap(Boot(t, es, s), j, t)
    ensures forall e :: e in Boot(t, es, s).snaps ==> e.holder != holder
  {
    BootBlockMap(t, es, s, j);
    AbsentFromSnaps(t, es, s, holder);
    hide Boot;
    if 1 <= j <= s {
      AbsentFromMap(Chunk(es, j, s), holder);
    }
  }

  lemma AbsentFromMap(c: seq<Entry>, holder: Holder)
    requires forall i :: 0 <= i < |c| ==> c[i].holder != holder
    ensures holder !in MapOf(c)
  {
    MapOfKeys(c);
  }

  lemma AbsentFromSnaps(t: BalanceType, es: seq<Entry>, s: UInt64, holder: Holder)
    requires s > 0 && forall i :: 0 <= i < |es| ==> es[i].holder != holder
    ensures forall e :: e in Boot(t, es, s).snaps ==> e.holder != holder
  {
    hide Slot, BootBlocks;
  }

  // ---------------------------------------------------------------- bootstrap reconciliation

  /** What one holder is credited with by block map j. */
  ghost function Credited(s: State, t: BalanceType, holder: Holder, j: UInt64): nat {
    if holder in BlockMap(s, j, t) then BlockMap(s, j, t)[holder] else 0
  }

  ghost function CreditedUpTo(s: State, t: BalanceType, holder: Holder, h: UInt64): nat {
    Credited(s, t, holder, h) + if h == 0 then 0 else CreditedUpTo(s, t, holder, h - 1)
  }

  /** The block maps of 0..h add up to exactly what the index answers at h. */
  lemma {:induction false} BootstrapReconciles(t: BalanceType, es: seq<Entry>, s: UInt64, holder: Holder, h: UInt64)
    requires s > 0 && Distinct(es) && h <= s
    ensures CreditedUpTo(Boot(t, es, s), t, holder, h) == BalanceAt(Boot(t, es, s).snaps, t, holder, h)
    ensures h == s ==> forall i :: 0 <= i < |es| && es[i].holder == holder ==>
                         BalanceAt(Boot(t, es, s).snaps, t, holder, h) == es[i].balance
  {
    if i :| 0 <= i < |es| && es[i].holder == holder {
      CreditOfEntry(t, es, s, i, h);
    } else {
      CreditOfStranger(t, es, s, holder, h);
    }
  }

  lemma CreditOfEntry(t: BalanceType, es: seq<Entry>, s: UInt64, i: nat, h: UInt64)
    requires s > 0 && Distinct(es) && i < |es|
    ensures CreditedUpTo(Boot(t, es, s), t, es[i].holder, h) == if Slot(i, |es|, s) <= h then es[i].balance else 0
    ensures BalanceAt(Boot(t, es, s).snaps, t, es[i].holder, h) == if Slot(i, |es|, s) <= h then es[i].balance else 0
  {
    CreditAdds(t, es, s, i, h);
    BalanceOfEntry(t, es, s, i, h);
  }

  lemma {:induction false} CreditAdds(t: BalanceType, es: seq<Entry>, s: UInt64, i: nat, h: UInt64)
    requires s > 0 && Distinct(es) && i < |es|
    ensures CreditedUpTo(Boot(t, es, s), t, es[i].holder, h) == if Slot(i, |es|, s) <= h then es[i].balance else 0
  {
    PartitionIsExact(t, es, s, i, h);
    hide Boot, Slot, BlockMap, Distinct;
    if h > 0 {
      CreditAdds(t, es, s, i, h - 1);
    }
  }

  lemma BalanceOfEntry(t: BalanceType, es: seq<Entry>, s: UInt64, i: nat, h: UInt64)
    requires s > 0 && Distinct(es) && i < |es|
    ensures BalanceAt(Boot(t, es, s).snaps, t, es[i].holder, h) == if Slot(i, |es|, s) <= h then es[i].balance else 0
  {
    var snaps := Boot(t, es, s).snaps;
    BootSnapOf(t, es, s, i);
    hide Boot, Slot, Distinct;
    assert forall f :: f in snaps && About(f, t, es[i].holder, h) ==> Snap(t, es[i].holder, f.height, f.balance) in snaps;
    if Slot(i, |es|, s) <= h {
      var e := Snap(t, es[i].holder, Slot(i, |es|, s), es[i].balance);
      assert Newest(snaps, t, es[i].holder, h, e);
      BalanceOfNewest(snaps, t, es[i].holder, h, e);
    }
  }

  lemma {:induction false} CreditOfStranger(t: BalanceType, es: seq<Entry>, s: UInt64, holder: Holder, h: UInt64)
    requires s > 0 && forall i :: 0 <= i < |es| ==> es[i].holder != holder
    ensures CreditedUpTo(Boot(t, es, s), t, holder, h) == 0
    ensures BalanceAt(Boot(t, es, s).snaps, t, holder, h) == 0
  {
    AbsentFromBoot(t, es, s, holder, h);
    if h > 0 {
      CreditOfStranger(t, es, s, holder, h - 1);
    }
  }
}
