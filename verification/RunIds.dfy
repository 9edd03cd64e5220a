/** Run identifiers: `new_run_id` in `src/hermes_agent_runtime/runtime.py`, a ULID of a 48-bit
    millisecond timestamp and 80 random bits (ULID specification, sections "Encoding" and "Sorting"). */
module RunIds {
  import opened Payloads
  import opened TextOrder

  const ALPHABET := "0123456789ABCDEFGHJKMNPQRSTVWXYZ"

  const RANDOM_SPACE: nat := 0x1_0000_0000_0000_0000_0000
  const TIME_SPACE: nat := 0x1_0000_0000_0000

  function Shift(value: nat, digits: nat): nat {
    if digits == 0 then value else Shift(value, digits - 1) / 32
  }

  /** `"run_"` and the 26 base-32 digits, most significant first; `millis << 80 | random` is a sum. */
  function NewRunId(millis: nat, random: nat): string {
    "run_" + Digits(millis * RANDOM_SPACE + random, 26)
  }

  /** Digit j of `width` is `ALPHABET[(value >> 5 * (width - 1 - j)) & 31]`. */
  function Digits(value: nat, width: nat): (s: string)
    ensures |s| == width
  {
    seq(width, j requires 0 <= j < width => ALPHABET[Shift(value, width - 1 - j) % 32])
  }

  /** The value of one character of the alphabet; other characters have none. */
  function DigitValue(c: char): int {
    if '0' <= c <= '9' then c as int - '0' as int
    else if 'A' <= c <= 'H' then c as int - 'A' as int + 10
    else if c == 'J' then 18 else if c == 'K' then 19 else if c == 'M' then 20 else if c == 'N' then 21
    else if 'P' <= c <= 'T' then c as int - 'P' as int + 22
    else if 'V' <= c <= 'Z' then c as int - 'V' as int + 27
    else -1
  }

  function Decode(s: string): int {
    if s == "" then 0 else 32 * Decode(s[..|s| - 1]) + DigitValue(s[|s| - 1])
  }

  function Pow32(n: nat): nat { if n == 0 then 1 else 32 * Pow32(n - 1) }

  // ---------------------------------------------------------------- proofs

  lemma AlphabetDigit(d: nat)
    requires d < 32
    ensures DigitValue(ALPHABET[d]) == d && RunIdChar(ALPHABET[d])
  {
  }

  lemma AlphabetIsIncreasing(d: nat, e: nat)
    requires d < e < 32
    ensures ALPHABET[d] < ALPHABET[e]
  {
    AlphabetDigit(d);
    AlphabetDigit(e);
  }

  lemma {:induction false} ShiftOfQuotient(value: nat, digits: nat)
    ensures Shift(value / 32, digits) == Shift(value, digits + 1)
  {
    if digits > 0 {
      ShiftOfQuotient(value, digits - 1);
    }
  }

  lemma DigitsSplit(value: nat, width: nat)
    requires width > 0
    ensures Digits(value, width)[..width - 1] == Digits(value / 32, width - 1)
    ensures Digits(value, width)[width - 1] == ALPHABET[value % 32]
  {
    assert Shift(value, width - 1 - (width - 1)) == value;
    forall j | 0 <= j < width - 1
      ensures Digits(value, width)[j] == Digits(value / 32, width - 1)[j]
    {
      ShiftOfQuotient(value, width - 2 - j);
    }
  }

  lemma {:induction false} DecodeDigits(value: nat, width: nat)
    requires value < Pow32(width)
    ensures Decode(Digits(value, width)) == value
  {
    if width > 0 {
      DigitsSplit(value, width);
      DecodeDigits(value / 32, width - 1);
      AlphabetDigit(value % 32);
    }
  }

  lemma LessByLastDigit(a: string, c: char, d: char)
    requires c < d
    ensures Less(a + [c], a + [d])
  {
    LessWithCommonPrefix(a, [c], [d]);
    assert [c][1..] == [] && [d][1..] == [];
  }

  /** A smaller number has the smaller text. */
  lemma {:induction false} DigitsPreserveOrder(x: nat, y: nat, width: nat)
    requires x < y < Pow32(width)
    ensures Less(Digits(x, width), Digits(y, width))
  {
    hide Digits, Less;
    DigitsSplit(x, width);
    DigitsSplit(y, width);
    var a, b := Digits(x / 32, width - 1), Digits(y / 32, width - 1);
    var c, d := ALPHABET[x % 32], ALPHABET[y % 32];
    assert Digits(x, width) == a + [c] && Digits(y, width) == b + [d];
    if x / 32 < y / 32 {
      DigitsPreserveOrder(x / 32, y / 32, width - 1);
      LessDecidedByPrefix(a, b, c, d);
    } else {
      assert x / 32 == y / 32;
      AlphabetIsIncreasing(x % 32, y % 32);
      LessByLastDigit(a, c, d);
    }
  }

  lemma ValueFits(millis: nat, random: nat)
    requires millis < TIME_SPACE && random < RANDOM_SPACE
    ensures millis * RANDOM_SPACE + random < Pow32(26)
  {
    assert Pow32(13) == 0x2_0000_0000_0000_0000 by {
      assert Pow32(5) == 33554432;
      assert Pow32(10) == 33554432 * Pow32(5);
    }
    Pow32Sum(13, 13);
  }

  lemma {:induction false} Pow32Sum(m: nat, n: nat)
    ensures Pow32(m + n) == Pow32(m) * Pow32(n)
  {
    if m > 0 {
      Pow32Sum(m - 1, n);
      assert Pow32(m) * Pow32(n) == 32 * (Pow32(m - 1) * Pow32(n));
    }
  }

  lemma ValueSplits(millis: nat, random: nat)
    requires random < RANDOM_SPACE
    ensures (millis * RANDOM_SPACE + random) / RANDOM_SPACE == millis
    ensures (millis * RANDOM_SPACE + random) % RANDOM_SPACE == random
  {
  }

  lemma DigitsAreIdChars(value: nat, width: nat)
    ensures forall j :: 0 <= j < width ==> RunIdChar(Digits(value, width)[j])
  {
    hide RunIdChar, Shift, DigitValue;
    forall j | 0 <= j < width
      ensures RunIdChar(Digits(value, width)[j])
    {
      AlphabetDigit(Shift(value, width - 1 - j) % 32);
    }
  }

  /** The 26 digits decode back to the timestamp and the random bits, and the id has the form the
      payload contract demands. */
  lemma RunIdRoundTrip(millis: nat, random: nat)
    requires millis < TIME_SPACE && random < RANDOM_SPACE
    ensures RunIdText(NewRunId(millis, random))
    ensures Decode(NewRunId(millis, random)[4..]) / RANDOM_SPACE == millis
    ensures Decode(NewRunId(millis, random)[4..]) % RANDOM_SPACE == random
  {
    hide Digits, Decode, Pow32, RunIdChar;
    var value := millis * RANDOM_SPACE + random;
    ValueFits(millis, random);
    DecodeDigits(value, 26);
    ValueSplits(millis, random);
    DigitsAreIdChars(value, 26);
    var id := NewRunId(millis, random);
    assert id[4..] == Digits(value, 26) && id[..4] == "run_";
    assert forall i :: 4 <= i < 30 ==> id[i] == Digits(value, 26)[i - 4];
  }

  /** String order is numeric order; in particular a later millisecond always sorts later. */
  lemma RunIdsSort(m1: nat, r1: nat, m2: nat, r2: nat)
    requires m1 < TIME_SPACE && m2 < TIME_SPACE && r1 < RANDOM_SPACE && r2 < RANDOM_SPACE
    ensures Less(NewRunId(m1, r1), NewRunId(m2, r2)) <==> m1 < m2 || (m1 == m2 && r1 < r2)
  {
    hide Digits, Less, Pow32;
    var x, y := m1 * RANDOM_SPACE + r1, m2 * RANDOM_SPACE + r2;
    ValueFits(m1, r1);
    ValueFits(m2, r2);
    LessWithCommonPrefix("run_", Digits(x, 26), Digits(y, 26));
    if x < y {
      DigitsPreserveOrder(x, y, 26);
    } else if y < x {
      DigitsPreserveOrder(y, x, 26);
    }
    LessIsStrict(Digits(x, 26), Digits(y, 26));
  }
}
