/** Stream cursors: `cur_` + a zero-padded offset + `_` + the event id. */
module Cursors {
  import opened Prelude

  /** One more than the largest offset that fits the twelve digits a cursor holds. */
  const OFFSET_LIMIT: int := 1_000_000_000_000

  predicate IsDigit(c: char) {
    '0' <= c <= '9'
  }

  function DigitChar(d: int): (c: char)
    requires 0 <= d < 10
    ensures IsDigit(c)
  {
    '0' + d as char
  }

  function DigitValue(c: char): (d: int)
    requires IsDigit(c)
    ensures 0 <= d < 10 && DigitChar(d) == c
  {
    (c - '0') as int
  }

  predicate AllDigits(s: string) {
    forall i :: 0 <= i < |s| ==> IsDigit(s[i])
  }

  /** Decimal notation without leading zeros. */
  function Decimal(n: nat): (s: string)
    ensures s != "" && AllDigits(s)
  {
    if n < 10 then [DigitChar(n)] else Decimal(n / 10) + [DigitChar(n % 10)]
  }

  function ZeroPad(s: string, width: nat): (r: string)
    ensures |r| >= width && |r| >= |s|
    ensures AllDigits(s) ==> AllDigits(r)
    decreases width - |s|
  {
    if |s| >= width then s else ZeroPad("0" + s, width)
  }

  /** The `%012d` verb: the minus sign counts towards the width. */
  function PadOffset(offset: int): string {
    if offset >= 0 then ZeroPad(Decimal(offset), 12) else "-" + ZeroPad(Decimal(-offset), 11)
  }

  function Print(offset: int, eventId: string): string {
    "cur_" + PadOffset(offset) + "_" + eventId
  }

  function Value(s: string): (n: nat)
    requires AllDigits(s)
  {
    if s == "" then 0 else 10 * Value(s[..|s| - 1]) + DigitValue(s[|s| - 1])
  }

  /** Matches `^cur_([0-9]{12})_(.+)$`, where `.` is any character but a newline. */
  function Parse(cursor: string): Option<(int, string)> {
    if |cursor| > 17 && cursor[..4] == "cur_" && AllDigits(cursor[4..16]) && cursor[16] == '_'
       && '\n' !in cursor[17..]
    then Some((Value(cursor[4..16]), cursor[17..]))
    else None
  }

  function Pow10(k: nat): (p: nat)
    ensures p > 0
  {
    if k == 0 then 1 else 10 * Pow10(k - 1)
  }

  lemma OffsetLimitIsPow10()
    ensures Pow10(12) == OFFSET_LIMIT
  {
    assert Pow10(4) == 10_000;
    assert Pow10(8) == 100_000_000;
  }

  lemma {:induction false} ValueBound(s: string)
    requires AllDigits(s)
    ensures Value(s) < Pow10(|s|)
  {
    if s != "" {
      ValueBound(s[..|s| - 1]);
    }
  }

  lemma {:induction false} DecimalLength(n: nat, k: nat)
    requires k > 0
    ensures |Decimal(n)| <= k <==> n < Pow10(k)
    ensures Value(Decimal(n)) == n
  {
    if n >= 10 {
      DecimalLength(n / 10, if k > 1 then k - 1 else 1);
      assert Decimal(n)[..|Decimal(n)| - 1] == Decimal(n / 10);
    } else if k > 1 {
      DecimalLength(n, k - 1);
      assert Decimal(n)[..0] == "";
    } else {
      assert Pow10(1) == 10;
    }
  }

  lemma {:induction false} ValueZero(s: string)
    requires AllDigits(s)
    ensures Value("0" + s) == Value(s)
  {
    if s == "" {
      assert ("0" + s)[..0] == "";
    } else {
      ValueZero(s[..|s| - 1]);
      assert ("0" + s)[..|s|] == "0" + s[..|s| - 1];
    }
  }

  lemma {:induction false} PadKeepsValue(s: string, width: nat)
    requires AllDigits(s)
    ensures Value(ZeroPad(s, width)) == Value(s)
    ensures |s| <= width ==> |ZeroPad(s, width)| == width
    decreases width - |s|
  {
    if |s| < width {
      PadKeepsValue("0" + s, width);
      ValueZero(s);
    }
  }

  /** Digit strings of one length are determined by their value. */
  lemma {:induction false} ValueInjective(a: string, b: string)
    requires AllDigits(a) && AllDigits(b) && |a| == |b| && Value(a) == Value(b)
    ensures a == b
  {
    if a != "" {
      var a', b' := a[..|a| - 1], b[..|b| - 1];
      ValueInjective(a', b');
      assert a == a' + [a[|a| - 1]] && b == b' + [b[|b| - 1]];
    }
  }

  lemma PadOffsetShape(offset: int)
    ensures 0 <= offset < OFFSET_LIMIT ==>
              |PadOffset(offset)| == 12 && AllDigits(PadOffset(offset)) && Value(PadOffset(offset)) == offset
    ensures offset >= OFFSET_LIMIT ==> |PadOffset(offset)| > 12 && AllDigits(PadOffset(offset))
    ensures offset < 0 ==> PadOffset(offset)[0] == '-'
  {
    OffsetLimitIsPow10();
    if offset >= 0 {
      DecimalLength(offset, 12);
      PadKeepsValue(Decimal(offset), 12);
    }
  }

  /** Parsing undoes printing exactly when the offset fits and the id is non-empty and newline-free. */
  lemma ParsePrint(offset: int, eventId: string)
    ensures (Parse(Print(offset, eventId)) == Some((offset, eventId)))
            <==> (0 <= offset < OFFSET_LIMIT && eventId != "" && '\n' !in eventId)
  {
    PadOffsetShape(offset);
    var pad, c := PadOffset(offset), Print(offset, eventId);
    assert c[..4] == "cur_";
    forall i | 0 <= i < |pad| ensures c[4 + i] == pad[i] {}
    if 0 <= offset < OFFSET_LIMIT {
      assert c[4..16] == pad && c[16] == '_' && c[17..] == eventId;
    } else if offset >= OFFSET_LIMIT {
      assert c[16] == pad[12];
      assert !IsDigit('_');
    } else {
      assert |c| > 17 ==> c[4..16][0] == '-';
    }
  }

  /** Printing undoes parsing: a cursor that parses is the canonical spelling of what it names. */
  lemma PrintParse(cursor: string)
    requires Parse(cursor).Some?
    ensures var (offset, eventId) := Parse(cursor).value;
            Print(offset, eventId) == cursor && 0 <= offset < OFFSET_LIMIT
  {
    var digits := cursor[4..16];
    ValueBound(digits);
    OffsetLimitIsPow10();
    PadOffsetShape(Value(digits));
    ValueInjective(PadOffset(Value(digits)), digits);
    assert cursor == cursor[..4] + digits + [cursor[16]] + cursor[17..];
  }
}
