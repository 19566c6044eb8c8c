/**
 * The two uses of package fmt that the text formats rest on: `fmt.Sprintf` and
 * `fmt.Sscanf` with a pattern made only of literal text and `%d` verbs.
 * A pattern is a sequence of pieces; printing then scanning a pattern whose every
 * `%d` is followed by literal text that does not start with a digit gives back
 * exactly the printed integers (SscanSprint).
 */
module Text {
  import opened Wrappers

  /** The argument of an UnmarshalJSON: a nil byte slice, or some text. */
  datatype Input = Nil | Bytes(text: string)

  predicate IsDigit(c: char) { '0' <= c <= '9' }

  predicate AllDigits(s: string) { forall i :: 0 <= i < |s| ==> IsDigit(s[i]) }

  function DigitChar(d: int): (c: char)
    requires 0 <= d < 10
    ensures IsDigit(c)
  {
    (('0' as int) + d) as char
  }

  function DigitValue(c: char): (d: int)
    requires IsDigit(c)
    ensures 0 <= d < 10 && DigitChar(d) == c
  {
    (c as int) - ('0' as int)
  }

  /** The decimal digits of n, most significant first, without leading zeros. */
  function NatToString(n: nat): (s: string)
    ensures s != [] && AllDigits(s)
  {
    if n < 10 then [DigitChar(n)] else NatToString(n / 10) + [DigitChar(n % 10)]
  }

  /** What the `%d` verb prints for n: a minus sign for negative numbers, then the digits. */
  function IntToString(n: int): string
  {
    if n < 0 then "-" + NatToString(-n) else NatToString(n)
  }

  /** The value of a run of decimal digits. */
  function DigitsValue(s: string): nat
    requires AllDigits(s)
  {
    if s == [] then 0 else DigitsValue(s[..|s| - 1]) * 10 + DigitValue(s[|s| - 1])
  }

  /** The length of the longest prefix of s made of digits. */
  function DigitRun(s: string): (k: nat)
    ensures k <= |s| && AllDigits(s[..k])
    ensures k < |s| ==> !IsDigit(s[k])
  {
    if s == [] || !IsDigit(s[0]) then 0
    else
      var k := 1 + DigitRun(s[1..]);
      assert s[..k] == [s[0]] + s[1..][..k - 1];
      k
  }

  /** An unsigned decimal: the longest run of digits, which must not be empty. */
  function ScanDigits(s: string): Option<(nat, string)>
  {
    var k := DigitRun(s);
    if k == 0 then None else Some((DigitsValue(s[..k]), s[k..]))
  }

  /**
   * The `%d` verb of fmt.Sscanf: an optional sign, then an unsigned decimal.
   * Returns the integer and the unread rest.
   */
  function ScanInt(s: string): Option<(int, string)>
  {
    if |s| > 0 && (s[0] == '-' || s[0] == '+') then
      match ScanDigits(s[1..])
      case None => None
      case Some(p) => Some((if s[0] == '-' then -(p.0 as int) else p.0, p.1))
    else
      match ScanDigits(s)
      case None => None
      case Some(p) => Some((p.0, p.1))
  }

  /**
   * What `%d` accepts: it fails exactly when no digit follows the optional sign;
   * otherwise it consumes at least one character, stops at the first non-digit,
   * and reads a negative number only after a minus sign.
   */
  lemma ScanIntSpec(s: string)
    ensures ScanInt(s).None? <==>
      var t := if |s| > 0 && (s[0] == '-' || s[0] == '+') then s[1..] else s; t == [] || !IsDigit(t[0])
    ensures ScanInt(s).Some? ==>
      var rest := ScanInt(s).value.1; |rest| < |s| && rest == s[|s| - |rest|..]
    ensures ScanInt(s).Some? ==> ScanInt(s).value.1 == [] || !IsDigit(ScanInt(s).value.1[0])
    ensures ScanInt(s).Some? && ScanInt(s).value.0 < 0 ==> s[0] == '-'
  {
    var t := if |s| > 0 && (s[0] == '-' || s[0] == '+') then s[1..] else s;
    var k := DigitRun(t);
    if k > 0 {
      assert t[k..] == s[|s| - |t[k..]|..];
    }
  }

  /** What `%d` prints: a minus sign exactly for negative numbers, and otherwise only digits. */
  lemma IntToStringSpec(n: int)
    ensures IntToString(n) != [] && (IntToString(n)[0] == '-' <==> n < 0)
    ensures n >= 0 ==> AllDigits(IntToString(n))
  {
  }

  lemma {:induction false} DigitsValueOfNatToString(n: nat)
    ensures DigitsValue(NatToString(n)) == n
  {
    var s := NatToString(n);
    if n >= 10 {
      assert s[..|s| - 1] == NatToString(n / 10);
      DigitsValueOfNatToString(n / 10);
    }
  }

  lemma {:induction false} DigitRunOfDigits(d: string, rest: string)
    requires AllDigits(d)
    requires rest == [] || !IsDigit(rest[0])
    ensures DigitRun(d + rest) == |d|
  {
    if d != [] {
      assert (d + rest)[1..] == d[1..] + rest;
      DigitRunOfDigits(d[1..], rest);
    }
  }

  lemma ScanDigitsOfNat(n: nat, rest: string)
    requires rest == [] || !IsDigit(rest[0])
    ensures ScanDigits(NatToString(n) + rest) == Some((n, rest))
  {
    var d := NatToString(n);
    var s := d + rest;
    DigitRunOfDigits(d, rest);
    assert s[..|d|] == d && s[|d|..] == rest;
    DigitsValueOfNatToString(n);
  }

  lemma ConcatAssoc(x: string, y: string, z: string)
    ensures (x + y) + z == x + (y + z)
  {
  }

  /** Cutting the first and last character off [a] + x + [b] leaves x. */
  lemma StripEnds(a: char, x: string, b: char)
    ensures |[a] + (x + [b])| == |x| + 2 && ([a] + (x + [b]))[1..|x| + 1] == x
  {
  }

  lemma ScanIntMinus(t: string, m: nat, rest: string)
    requires ScanDigits(t) == Some((m, rest))
    ensures ScanInt("-" + t) == Some((-(m as int), rest))
  {
    assert ("-" + t)[0] == '-' && ("-" + t)[1..] == t;
  }

  lemma ScanIntNoSign(t: string, m: nat, rest: string)
    requires t != [] && IsDigit(t[0])
    requires ScanDigits(t) == Some((m, rest))
    ensures ScanInt(t) == Some((m, rest))
  {
  }

  /** Scanning what `%d` printed, followed by anything that does not start with a digit, reads the same integer back. */
  lemma ScanIntToString(n: int, rest: string)
    requires rest == [] || !IsDigit(rest[0])
    ensures ScanInt(IntToString(n) + rest) == Some((n, rest))
  {
    if n < 0 {
      var d := NatToString(-n);
      ConcatAssoc("-", d, rest);
      ScanDigitsOfNat(-n, rest);
      ScanIntMinus(d + rest, -n, rest);
    } else {
      var d := NatToString(n);
      ScanDigitsOfNat(n, rest);
      assert (d + rest)[0] == d[0];
      ScanIntNoSign(d + rest, n, rest);
    }
  }

  /** One piece of a fmt pattern: literal text, or the verb `%d`. */
  datatype Piece = Lit(text: string) | Dec

  function DecCount(f: seq<Piece>): nat
  {
    if f == [] then 0 else (if f[0].Dec? then 1 else 0) + DecCount(f[1..])
  }

  /** Every `%d` is followed by non-empty literal text that does not start with a digit. */
  predicate Separated(f: seq<Piece>)
  {
    f == [] ||
    ((f[0].Dec? ==> |f| > 1 && f[1].Lit? && f[1].text != [] && !IsDigit(f[1].text[0])) && Separated(f[1..]))
  }

  /** fmt.Sprintf of pattern f with one integer argument per `%d`. */
  function Sprint(f: seq<Piece>, args: seq<int>): string
    requires |args| == DecCount(f)
  {
    if f == [] then ""
    else match f[0]
      case Lit(t) => t + Sprint(f[1..], args)
      case Dec => IntToString(args[0]) + Sprint(f[1..], args[1..])
  }

  /**
   * The result of fmt.Sscanf: the integers read, in order, up to the first mismatch
   * (Sscanf stores each one as soon as it is read), whether the whole pattern matched,
   * and the input left unread. Input after a matched pattern is ignored by Sscanf.
   */
  datatype Scanned = Scanned(values: seq<int>, complete: bool, rest: string)

  function Sscan(f: seq<Piece>, s: string): (r: Scanned)
    ensures |r.values| <= DecCount(f)
    ensures r.complete ==> |r.values| == DecCount(f)
  {
    if f == [] then Scanned([], true, s)
    else match f[0]
      case Lit(t) =>
        if |t| <= |s| && s[..|t|] == t then Sscan(f[1..], s[|t|..]) else Scanned([], false, s)
      case Dec =>
        match ScanInt(s)
        case None => Scanned([], false, s)
        case Some(p) =>
          var r := Sscan(f[1..], p.1);
          r.(values := [p.0] + r.values)
  }

  lemma SprintLit(f: seq<Piece>, args: seq<int>)
    requires f != [] && f[0].Lit? && |args| == DecCount(f)
    ensures Sprint(f, args) == f[0].text + Sprint(f[1..], args)
  {
  }

  lemma SprintLitRest(f: seq<Piece>, args: seq<int>, rest: string)
    requires f != [] && f[0].Lit? && |args| == DecCount(f)
    ensures Sprint(f, args) + rest == f[0].text + (Sprint(f[1..], args) + rest)
  {
    SprintLit(f, args);
    ConcatAssoc(f[0].text, Sprint(f[1..], args), rest);
  }

  lemma SprintDec(f: seq<Piece>, args: seq<int>)
    requires f != [] && f[0].Dec? && |args| == DecCount(f)
    ensures Sprint(f, args) == IntToString(args[0]) + Sprint(f[1..], args[1..])
  {
  }

  lemma SprintDecRest(f: seq<Piece>, args: seq<int>, rest: string)
    requires f != [] && f[0].Dec? && |args| == DecCount(f)
    ensures Sprint(f, args) + rest == IntToString(args[0]) + (Sprint(f[1..], args[1..]) + rest)
  {
    SprintDec(f, args);
    ConcatAssoc(IntToString(args[0]), Sprint(f[1..], args[1..]), rest);
  }

  /** Two steps of printing at once: literal text, then a `%d`. */
  lemma SprintLitDec(f: seq<Piece>, args: seq<int>)
    requires |f| >= 2 && f[0].Lit? && f[1].Dec? && |args| == DecCount(f)
    ensures |args| >= 1 && |args[1..]| == DecCount(f[2..])
    ensures Sprint(f, args) == f[0].text + (IntToString(args[0]) + Sprint(f[2..], args[1..]))
  {
    SprintLit(f, args);
    assert f[1..][1..] == f[2..];
    SprintDec(f[1..], args);
  }

  /** Sscan one step ahead, over literal text. */
  lemma SscanLitStep(f: seq<Piece>, s: string, tail: string)
    requires f != [] && f[0].Lit? && s == f[0].text + tail
    ensures Sscan(f, s) == Sscan(f[1..], tail)
  {
    var t := f[0].text;
    assert |t| <= |s| && s[..|t|] == t && s[|t|..] == tail;
  }

  /** Sscan one step ahead, over a printed integer. */
  lemma SscanDecStep(f: seq<Piece>, s: string, n: int, tail: string)
    requires f != [] && f[0] == Dec && s == IntToString(n) + tail
    requires tail == [] || !IsDigit(tail[0])
    ensures Sscan(f, s) == Sscan(f[1..], tail).(values := [n] + Sscan(f[1..], tail).values)
  {
    ScanIntToString(n, tail);
  }

  lemma SscanSprintLit(f: seq<Piece>, args: seq<int>, rest: string)
    requires f != [] && f[0].Lit? && |args| == DecCount(f)
    requires Sscan(f[1..], Sprint(f[1..], args) + rest) == Scanned(args, true, rest)
    ensures Sscan(f, Sprint(f, args) + rest) == Scanned(args, true, rest)
  {
    SprintLitRest(f, args, rest);
    SscanLitStep(f, Sprint(f, args) + rest, Sprint(f[1..], args) + rest);
  }

  lemma SscanSprintDec(f: seq<Piece>, args: seq<int>, rest: string)
    requires f != [] && f[0].Dec? && |args| == DecCount(f)
    requires |f| > 1 && f[1].Lit? && f[1].text != [] && !IsDigit(f[1].text[0])
    requires Sscan(f[1..], Sprint(f[1..], args[1..]) + rest) == Scanned(args[1..], true, rest)
    ensures Sscan(f, Sprint(f, args) + rest) == Scanned(args, true, rest)
  {
    var tail := Sprint(f[1..], args[1..]) + rest;
    SprintLitRest(f[1..], args[1..], rest);
    SprintDecRest(f, args, rest);
    SscanDecStep(f, Sprint(f, args) + rest, args[0], tail);
    assert [args[0]] + args[1..] == args;
  }

  /** Scanning a printed pattern reads back exactly the printed integers and leaves the rest unread. */
  lemma {:induction false} SscanSprint(f: seq<Piece>, args: seq<int>, rest: string)
    requires Separated(f) && |args| == DecCount(f)
    ensures Sscan(f, Sprint(f, args) + rest) == Scanned(args, true, rest)
  {
    if f == [] {
      assert Sprint(f, args) + rest == rest;
    } else {
      if f[0].Lit? {
        SscanSprint(f[1..], args, rest);
        SscanSprintLit(f, args, rest);
      } else {
        assert 0 < |f| && f[0].Dec?;
        SscanSprint(f[1..], args[1..], rest);
        SscanSprintDec(f, args, rest);
      }
    }
  }

  /** Sscan reads its input from the left only: what it leaves unread is a suffix of the input. */
  lemma {:induction false} SscanRest(f: seq<Piece>, s: string)
    ensures |Sscan(f, s).rest| <= |s|
    ensures Sscan(f, s).rest == s[|s| - |Sscan(f, s).rest|..]
  {
    if f != [] {
      match f[0]
      case Lit(t) =>
        if |t| <= |s| && s[..|t|] == t {
          SscanRest(f[1..], s[|t|..]);
        }
      case Dec =>
        ScanIntSpec(s);
        if ScanInt(s).Some? {
          SscanRest(f[1..], ScanInt(s).value.1);
        }
    }
  }
}
