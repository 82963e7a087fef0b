/** The texts of account identifiers: what the printer of locked-stake accounts
    makes, and what a reader of segments finds in it. */
module Identifiers {
  import opened ByteStrings
  import opened Keys
  import opened IndexState
  import opened Operations
  import opened Chain
  import opened Translation

  // ---------------------------------------------------------------- decimals

  function DigitValue(c: char): int {
    c as int - '0' as int
  }

  /** What a string of digits stands for. */
  function FromDecimal(s: string): int {
    if s == "" then 0 else 10 * FromDecimal(s[..|s| - 1]) + DigitValue(s[|s| - 1])
  }

  lemma Digit(n: nat)
    requires n < 10
    ensures '0' <= DIGITS[n] <= '9' && DigitValue(DIGITS[n]) == n
  {
    assert n == 0 || n == 1 || n == 2 || n == 3 || n == 4 || n == 5 || n == 6 || n == 7 || n == 8 || n == 9;
  }

  /** The printer prints digits, with no leading zero, that read back as the number. */
  lemma {:induction false} DecimalRoundTrip(n: nat)
    ensures FromDecimal(Decimal(n)) == n
    ensures Decimal(n) != "" && forall i :: 0 <= i < |Decimal(n)| ==> '0' <= Decimal(n)[i] <= '9'
    ensures n > 0 ==> Decimal(n)[0] != '0'
  {
    Digit(n % 10);
    if n < 10 {
      assert Decimal(n)[..0] == "";
    } else {
      DecimalRoundTrip(n / 10);
      assert Decimal(n)[..|Decimal(n)| - 1] == Decimal(n / 10);
    }
  }

  // ---------------------------------------------------------------- segments

  /** Segments between dashes. */
  function Split(s: string): (r: seq<string>)
    ensures |r| >= 1
  {
    if s == "" then [""]
    else
      var r, c := Split(s[..|s| - 1]), s[|s| - 1];
      if c == '-' then r + [""] else r[..|r| - 1] + [r[|r| - 1] + [c]]
  }

  /** The segments after one more character. */
  function Extend(r: seq<string>, c: char): seq<string>
    requires |r| >= 1
  {
    if c == '-' then r + [""] else r[..|r| - 1] + [r[|r| - 1] + [c]]
  }

  lemma SplitSnoc(s: string, c: char)
    ensures Split("") == [""] && Split(s + [c]) == Extend(Split(s), c)
  {
    assert (s + [c])[..|s + [c]| - 1] == s;
  }

  lemma ExtendLast(x: seq<string>, y: seq<string>, c: char)
    requires |y| >= 1
    ensures Extend(x + y, c) == x + Extend(y, c)
  {
    assert (x + y)[..|x + y| - 1] == x + y[..|y| - 1];
  }

  /** A dash separates, ... */
  lemma {:induction false} SplitJoin(a: string, b: string)
    ensures Split(a + "-" + b) == Split(a) + Split(b)
  {
    hide Split;
    SplitSnoc(a, '-');
    assert a + ['-'] == a + "-" == a + "-" + "";
    if b != "" {
      var init, c := b[..|b| - 1], b[|b| - 1];
      assert b == init + [c];
      assert a + "-" + b == (a + "-" + init) + [c];
      SplitJoin(a, init);
      SplitSnoc(a + "-" + init, c);
      SplitSnoc(init, c);
      ExtendLast(Split(a), Split(init), c);
    }
  }

  /** ... and nothing else does. */
  lemma {:induction false} SplitPlain(s: string)
    requires '-' !in s
    ensures Split(s) == [s]
  {
    if s != "" {
      var init, c := s[..|s| - 1], s[|s| - 1];
      assert s == init + [c] && c in s;
      SplitPlain(init);
      SplitSnoc(init, c);
    }
  }

  // ---------------------------------------------------------------- locked-stake accounts

  /** Base58 has no dash in its alphabet. */
  ghost predicate DashFree(p: Params) {
    forall b :: '-' !in p.base58(b)
  }

  lemma PrintedText(p: Params, staker: Bytes, validator: Bytes, epoch: nat)
    ensures LockedStakeAccount(p, staker, validator, epoch)
            == Account(p.base58(staker), Some("LOCKED_STAKE_ENTRY-" + p.base58(validator) + "-" + Decimal(epoch)))
  {
    hide Decimal;
    assert LOCKED_STAKE_ENTRY + "-" == "LOCKED_STAKE_ENTRY-";
  }

  /** It is not the sub-account of a key-held balance. */
  lemma PrintedTextIsOwn(p: Params, staker: Bytes, validator: Bytes, epoch: nat)
    ensures IdOf(LockedStakeAccount(p, staker, validator, epoch)).subAddress !in {"", CREATOR_COIN, VALIDATOR_ENTRY}
  {
    hide Decimal;
    PrintedText(p, staker, validator, epoch);
    assert LockedStakeAccount(p, staker, validator, epoch).sub.value[0] == 'L';
    assert CREATOR_COIN[0] == 'C' && VALIDATOR_ENTRY[0] == 'V';
  }

  /** A printed locked-stake account names the staker by its address; its sub-account
      has three segments: the tag, a text that decodes to the validator, and digits
      whose value is the epoch. */
  lemma PrintedLockedStakeReads(p: Params, staker: PublicKey, validator: PublicKey, epoch: nat)
    requires Lawful(p) && DashFree(p)
    ensures var a := LockedStakeAccount(p, staker, validator, epoch);
            && p.decodeKey(a.address) == Some(staker) && a.sub.Some?
            && var segments := Split(a.sub.value);
               && |segments| == 3 && segments[0] == "LOCKED_STAKE_ENTRY" && p.decodeKey(segments[1]) == Some(validator)
               && (forall i :: 0 <= i < |segments[2]| ==> '0' <= segments[2][i] <= '9')
               && FromDecimal(segments[2]) == epoch
  {
    var v, d := p.base58(validator), Decimal(epoch);
    PrintedText(p, staker, validator, epoch);
    DecimalRoundTrip(epoch);
    hide Split, Decimal, FromDecimal;
    SplitJoin("LOCKED_STAKE_ENTRY-" + v, d);
    SplitPlain(d);
    assert "LOCKED_STAKE_ENTRY-" + v == "LOCKED_STAKE_ENTRY" + "-" + v;
    SplitJoin("LOCKED_STAKE_ENTRY", v);
    SplitPlain("LOCKED_STAKE_ENTRY");
    SplitPlain(v);
  }

  /** Two triples share an identifier only if they are the same triple. */
  lemma PrintedLockedStakeInjective(p: Params, staker: PublicKey, validator: PublicKey, epoch: nat,
                                    staker': PublicKey, validator': PublicKey, epoch': nat)
    requires Lawful(p) && DashFree(p)
    ensures IdOf(LockedStakeAccount(p, staker, validator, epoch)) == IdOf(LockedStakeAccount(p, staker', validator', epoch'))
            <==> staker == staker' && validator == validator' && epoch == epoch'
  {
    hide LockedStakeAccount, Split, FromDecimal;
    PrintedLockedStakeReads(p, staker, validator, epoch);
    PrintedLockedStakeReads(p, staker', validator', epoch');
  }
}
