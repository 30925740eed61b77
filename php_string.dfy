/**
 * The two pieces of PHP's string runtime that the modelled code relies on:
 * the decimal rendering of an integer (string casts and concatenation of an
 * `int`) and `strtr` with an array of replacement pairs.
 */
module PhpString {
  import opened Wrappers

  // ---------------------------------------------------------------------
  // Integer to string, as `(string) $i` and `'...' . $i` render it.
  // ---------------------------------------------------------------------

  function DigitChar(d: nat): (c: char)
    requires d < 10
  {
    "0123456789"[d]
  }

  function DigitValue(c: char): nat
  {
    if '0' <= c <= '9' then (c as int - '0' as int) as nat else 0
  }

  predicate IsDigit(c: char)
  {
    '0' <= c <= '9'
  }

  /** Decimal digits of `n`, most significant first, without leading zeros. */
  function NatToString(n: nat): (r: string)
    ensures |r| > 0
    ensures forall i :: 0 <= i < |r| ==> IsDigit(r[i])
    ensures r[0] == '0' ==> n == 0
    decreases n
  {
    if n < 10 then [DigitChar(n)] else NatToString(n / 10) + [DigitChar(n % 10)]
  }

  /** PHP's rendering of an `int`: a minus sign for negatives, then the digits. */
  function IntToString(i: int): (r: string)
    ensures |r| > 0
    ensures (r[0] == '-') <==> i < 0
  {
    if i < 0 then "-" + NatToString(-i) else NatToString(i)
  }

  /**
   * The rendering is canonical: after the optional sign come only digits,
   * and the first of them is `0` only for zero.
   */
  lemma IntToStringCanonical(i: int)
    ensures var r := IntToString(i); var d := if i < 0 then 1 else 0;
      && |r| > d
      && (forall k :: d <= k < |r| ==> IsDigit(r[k]))
      && (r[d] == '0' ==> i == 0)
  {
    if i < 0 {
      assert IntToString(i)[1..] == NatToString(-i);
    }
  }

  /** Reads a string of decimal digits back as a number. */
  function DigitsValue(s: string): nat
    decreases |s|
  {
    if s == [] then 0 else DigitsValue(s[..|s| - 1]) * 10 + DigitValue(s[|s| - 1])
  }

  /** Reads a rendering produced by IntToString back as an integer. */
  function ParseInt(s: string): int
  {
    if |s| > 0 && s[0] == '-' then 0 - DigitsValue(s[1..]) else DigitsValue(s)
  }

  lemma {:induction false} NatToStringRoundTrip(n: nat)
    ensures DigitsValue(NatToString(n)) == n
    decreases n
  {
    if n >= 10 {
      var r := NatToString(n);
      NatToStringRoundTrip(n / 10);
      assert r[..|r| - 1] == NatToString(n / 10);
      assert DigitValue(r[|r| - 1]) == n % 10;
    }
  }

  /** The rendering loses nothing: distinct integers render differently. */
  lemma IntToStringRoundTrip(i: int)
    ensures ParseInt(IntToString(i)) == i
  {
    if i < 0 {
      NatToStringRoundTrip(-i);
      assert IntToString(i)[1..] == NatToString(-i);
      assert NatToString(-i)[0] != '-';
    } else {
      NatToStringRoundTrip(i);
      assert NatToString(i)[0] != '-';
    }
  }

  // ---------------------------------------------------------------------
  // strtr(string $s, array $replacePairs)
  // ---------------------------------------------------------------------

  /**
   * The length of the longest non-empty key of `table` that is a prefix of
   * `s` and no longer than `n`; `strtr` scans candidate lengths downwards.
   * Empty keys are ignored, as PHP ignores them.
   */
  function LongestKeyAt(s: string, table: map<string, string>, n: nat): (r: Option<nat>)
    requires n <= |s|
    ensures r.Some? ==> 0 < r.value <= n && s[..r.value] in table
    ensures r.Some? ==> forall m :: r.value < m <= n ==> s[..m] !in table
    ensures r.None? ==> forall m :: 0 < m <= n ==> s[..m] !in table
    decreases n
  {
    if n == 0 then None
    else if s[..n] in table then Some(n)
    else LongestKeyAt(s, table, n - 1)
  }

  /**
   * `strtr` with an array: scanning left to right, the longest key that
   * starts at the current position is replaced by its value and scanning
   * resumes after the key; where no key starts, one character is copied.
   * Inserted text is never scanned again.
   */
  function Strtr(s: string, table: map<string, string>): string
    decreases |s|
  {
    if s == [] then []
    else match LongestKeyAt(s, table, |s|)
      case Some(n) => table[s[..n]] + Strtr(s[n..], table)
      case None => [s[0]] + Strtr(s[1..], table)
  }

  /** Where no key starts, one character is copied and scanning moves on by one. */
  lemma StrtrCopiesChar(s: string, table: map<string, string>)
    requires s != []
    requires forall m :: 0 < m <= |s| ==> s[..m] !in table
    ensures Strtr(s, table) == [s[0]] + Strtr(s[1..], table)
  {
    assert LongestKeyAt(s, table, |s|).None?;
  }

  /** With no replacement pairs, `strtr` returns its subject unchanged. */
  lemma {:induction false} StrtrEmptyTable(s: string)
    ensures Strtr(s, map[]) == s
    decreases |s|
  {
    if s != [] {
      StrtrEmptyTable(s[1..]);
    }
  }

  /** Every key of `table` is non-empty and begins with `c`. */
  predicate KeysStartWith(table: map<string, string>, c: char)
  {
    forall k :: k in table ==> |k| > 0 && k[0] == c
  }

  /**
   * Text in which no key can start is copied verbatim, and scanning goes on
   * with what follows it.
   */
  lemma {:induction false} StrtrCopiesText(text: string, rest: string, table: map<string, string>, c: char)
    requires KeysStartWith(table, c)
    requires c !in text
    ensures Strtr(text + rest, table) == text + Strtr(rest, table)
    decreases |text|
  {
    if text != [] {
      var s := text + rest;
      assert s[0] == text[0];
      forall m | 0 < m <= |s| ensures s[..m] !in table {
        assert s[..m][0] == text[0];
      }
      assert LongestKeyAt(s, table, |s|).None?;
      assert s[1..] == text[1..] + rest;
      StrtrCopiesText(text[1..], rest, table, c);
      calc {
        Strtr(s, table);
        [s[0]] + Strtr(s[1..], table);
        [text[0]] + (text[1..] + Strtr(rest, table));
        { assert text == [text[0]] + text[1..]; }
        text + Strtr(rest, table);
      }
    } else {
      assert text + rest == rest;
    }
  }

  /** Corollary: a subject in which no key can start is returned unchanged. */
  lemma StrtrNoKeyStart(s: string, table: map<string, string>, c: char)
    requires KeysStartWith(table, c)
    requires c !in s
    ensures Strtr(s, table) == s
  {
    StrtrCopiesText(s, [], table, c);
    assert s + [] == s;
  }

  /**
   * At a position where `key` is the longest key that matches, its value is
   * emitted and scanning resumes right after it.
   */
  lemma StrtrReplacesKey(key: string, rest: string, table: map<string, string>)
    requires key in table && |key| > 0
    requires forall m :: |key| < m <= |key| + |rest| ==> (key + rest)[..m] !in table
    ensures Strtr(key + rest, table) == table[key] + Strtr(rest, table)
  {
    var s := key + rest;
    assert s[..|key|] == key;
    assert s[|key|..] == rest;
  }
}
