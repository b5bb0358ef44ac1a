/**
 * Exact text rendering: decimal digits, Java's "%02d", and joining and
 * splitting on a separator character. Each renderer is paired with a
 * parser that reads its output back.
 */
module Text {

  predicate IsDigit(c: char)
  {
    '0' <= c <= '9'
  }

  predicate AllDigits(s: string)
  {
    forall i :: 0 <= i < |s| ==> IsDigit(s[i])
  }

  function DigitChar(d: nat): (c: char)
    requires d < 10
    ensures IsDigit(c) && c as int - '0' as int == d
  {
    ('0' as int + d) as char
  }

  /** The decimal digits of n, without leading zeros. */
  function Digits(n: nat): (s: string)
    ensures |s| >= 1 && AllDigits(s)
    ensures n < 10 <==> |s| == 1
    ensures 10 <= n < 100 ==> |s| == 2
    decreases n
  {
    if n < 10 then [DigitChar(n)] else Digits(n / 10) + [DigitChar(n % 10)]
  }

  /** Reads a string of decimal digits as a number. */
  function ParseNat(s: string): nat
    requires AllDigits(s)
  {
    if s == [] then 0 else ParseNat(s[..|s| - 1]) * 10 + (s[|s| - 1] as int - '0' as int)
  }

  /** Reading back the digits of n gives n. */
  lemma {:induction false} ParseDigits(n: nat)
    ensures ParseNat(Digits(n)) == n
    decreases n
  {
    if n >= 10 {
      var s := Digits(n);
      assert s[..|s| - 1] == Digits(n / 10);
      ParseDigits(n / 10);
    }
  }

  /** A leading zero does not change the number read. */
  lemma {:induction false} ParseLeadingZero(s: string)
    requires AllDigits(s)
    ensures AllDigits("0" + s) && ParseNat("0" + s) == ParseNat(s)
    decreases |s|
  {
    if s != [] {
      assert ("0" + s)[..|"0" + s| - 1] == "0" + s[..|s| - 1];
      ParseLeadingZero(s[..|s| - 1]);
    }
  }

  /**
   * Java's String.format("%02d", n): a field at least two characters wide,
   * padded with a leading zero; a negative number carries its sign.
   */
  function Pad2(n: int): (s: string)
    ensures |s| >= 2
    ensures 0 <= n < 100 ==> |s| == 2
    ensures n >= 0 ==> AllDigits(s)
    ensures n < 0 ==> s[0] == '-' && AllDigits(s[1..])
    ensures forall i :: 0 <= i < |s| ==> IsDigit(s[i]) || s[i] == '-'
  {
    if n < 0 then "-" + Digits(-n)
    else if n < 10 then "0" + Digits(n)
    else Digits(n)
  }

  /** A padded negative number is a '-' followed by the digits of its magnitude. */
  lemma Pad2Negative(n: int)
    requires n < 0
    ensures Pad2(n)[0] == '-' && ParseNat(Pad2(n)[1..]) == -n
  {
    assert Pad2(n)[1..] == Digits(-n);
    ParseDigits(-n);
  }

  /** Reading back a padded non-negative number gives the number. */
  lemma Pad2RoundTrip(n: nat)
    ensures ParseNat(Pad2(n)) == n
  {
    ParseDigits(n);
    if n < 10 {
      ParseLeadingZero(Digits(n));
    }
  }

  /** The strings ts joined by sep, built left to right as a loop appends them. */
  function Join(ts: seq<string>, sep: char): string
    decreases |ts|
  {
    if |ts| == 0 then ""
    else if |ts| == 1 then ts[0]
    else Join(ts[..|ts| - 1], sep) + [sep] + ts[|ts| - 1]
  }

  /** The pieces of s between occurrences of sep; always at least one piece. */
  function Split(s: string, sep: char): (ts: seq<string>)
    ensures |ts| >= 1
    decreases |s|
  {
    if s == [] then [""]
    else if s[|s| - 1] == sep then Split(s[..|s| - 1], sep) + [""]
    else
      var r := Split(s[..|s| - 1], sep);
      r[..|r| - 1] + [r[|r| - 1] + [s[|s| - 1]]]
  }

  /** A string without the separator is a single piece. */
  lemma {:induction false} SplitPlain(s: string, sep: char)
    requires sep !in s
    ensures Split(s, sep) == [s]
    decreases |s|
  {
    if s != [] {
      SplitPlain(s[..|s| - 1], sep);
      assert s[..|s| - 1] + [s[|s| - 1]] == s;
    }
  }

  /** Appending a separator and a plain piece appends exactly that piece. */
  lemma {:induction false} SplitAppend(a: string, sep: char, b: string)
    requires sep !in b
    ensures Split(a + [sep] + b, sep) == Split(a, sep) + [b]
    decreases |b|
  {
    var s := a + [sep] + b;
    if b == [] {
      assert s[..|s| - 1] == a;
    } else {
      var b' := b[..|b| - 1];
      assert s[..|s| - 1] == a + [sep] + b';
      assert s[|s| - 1] == b[|b| - 1];
      SplitAppend(a, sep, b');
      assert b' + [b[|b| - 1]] == b;
    }
  }

  /** Splitting a join of separator-free pieces gives back the pieces, in order. */
  lemma {:induction false} SplitJoin(ts: seq<string>, sep: char)
    requires |ts| >= 1
    requires forall i :: 0 <= i < |ts| ==> sep !in ts[i]
    ensures Split(Join(ts, sep), sep) == ts
    decreases |ts|
  {
    if |ts| == 1 {
      SplitPlain(ts[0], sep);
    } else {
      var init := ts[..|ts| - 1];
      SplitJoin(init, sep);
      SplitAppend(Join(init, sep), sep, ts[|ts| - 1]);
      assert init + [ts[|ts| - 1]] == ts;
    }
  }

  /** A join of pieces free of a character c (other than the separator) is free of c. */
  lemma {:induction false} JoinAvoids(ts: seq<string>, sep: char, c: char)
    requires c != sep
    requires forall i :: 0 <= i < |ts| ==> c !in ts[i]
    ensures c !in Join(ts, sep)
    decreases |ts|
  {
    if |ts| > 1 {
      JoinAvoids(ts[..|ts| - 1], sep, c);
    }
  }

  /** Extending the joined prefix of ts by one piece appends the separator and that piece. */
  lemma JoinStep(ts: seq<string>, sep: char, i: nat)
    requires i < |ts|
    ensures Join(ts[..i + 1], sep) == if i == 0 then ts[0] else Join(ts[..i], sep) + [sep] + ts[i]
  {
    assert ts[..i + 1][..i] == ts[..i];
  }
}
