/** String helpers the survey formatter relies on: deleting a character,
    the text before a separator, truncation, and decimal rendering of
    integers together with its parser. */
module Text {
  import opened Results

  /** `s` with every occurrence of `c` deleted, as Python's `s.replace(c, "")`. */
  function RemoveAll(s: string, c: char): (r: string)
    ensures c !in r
    ensures multiset(r) == multiset(s)[c := 0]
    ensures |r| == |s| - multiset(s)[c]
    ensures c !in s ==> r == s
  {
    if |s| == 0 then ""
    else
      assert s == [s[0]] + s[1..];
      if s[0] == c then RemoveAll(s[1..], c)
      else [s[0]] + RemoveAll(s[1..], c)
  }

  /** Deletion distributes over concatenation: the characters that survive
      keep their relative order. */
  lemma {:induction false} RemoveAllAppend(s: string, t: string, c: char)
    ensures RemoveAll(s + t, c) == RemoveAll(s, c) + RemoveAll(t, c)
    decreases |s|
  {
    if |s| == 0 {
      assert s + t == t;
    } else {
      assert (s + t)[0] == s[0];
      assert (s + t)[1..] == s[1..] + t;
      RemoveAllAppend(s[1..], t, c);
    }
  }

  /** The text before the first `sep`, or all of `s` when it has none:
      Python's `s.split(sep)[0]`. */
  function PrefixBefore(s: string, sep: char): (r: string)
    ensures r <= s
    ensures sep !in r
    ensures |r| < |s| ==> s[|r|] == sep
  {
    if |s| == 0 || s[0] == sep then ""
    else [s[0]] + PrefixBefore(s[1..], sep)
  }

  /** The three properties of `PrefixBefore` single out its result. */
  lemma PrefixBeforeUnique(s: string, sep: char, p: string)
    requires p <= s
    requires sep !in p
    requires |p| < |s| ==> s[|p|] == sep
    ensures p == PrefixBefore(s, sep)
  {
  }

  /** `s` cut to at most `limit` characters, as `s[:limit] if len(s) > limit else s`. */
  function Truncate(s: string, limit: nat): (r: string)
    ensures r <= s
    ensures |r| <= limit
    ensures |s| <= limit ==> r == s
    ensures |s| > limit ==> |r| == limit
  {
    if |s| > limit then s[..limit] else s
  }

  predicate IsDigit(c: char) {
    '0' <= c <= '9'
  }

  predicate AllDigits(s: string) {
    forall i :: 0 <= i < |s| ==> IsDigit(s[i])
  }

  function DigitChar(d: nat): (c: char)
    requires d < 10
    ensures IsDigit(c)
    ensures c as int - '0' as int == d
  {
    ('0' as int + d) as char
  }

  /** The decimal digits of `n`, most significant first, without leading zeros. */
  function NatDigits(n: nat): (r: string)
    ensures |r| >= 1
    ensures AllDigits(r)
    ensures r[0] == '0' ==> n == 0
    decreases n
  {
    if n < 10 then [DigitChar(n)]
    else NatDigits(n / 10) + [DigitChar(n % 10)]
  }

  /** The number a string of decimal digits denotes. */
  function DigitsValue(s: string): nat
    requires AllDigits(s)
  {
    if |s| == 0 then 0
    else DigitsValue(s[..|s| - 1]) * 10 + (s[|s| - 1] as int - '0' as int)
  }

  lemma {:induction false} DigitsValueOfNatDigits(n: nat)
    ensures DigitsValue(NatDigits(n)) == n
    decreases n
  {
    if n >= 10 {
      var s := NatDigits(n);
      assert s[..|s| - 1] == NatDigits(n / 10);
      DigitsValueOfNatDigits(n / 10);
    }
  }

  /** Python's `str(i)` for an integer: a minus sign exactly when `i` is
      negative, then digits without leading zeros. */
  function IntToDecimal(i: int): (r: string)
    ensures |r| >= 1
    ensures forall k :: 0 <= k < |r| ==> IsDigit(r[k]) || (k == 0 && r[k] == '-')
    ensures r[0] == '-' <==> i < 0
    ensures var d := if r[0] == '-' then r[1..] else r; |d| >= 1 && (d[0] == '0' ==> r == "0")
  {
    if i < 0 then "-" + NatDigits(-i) else NatDigits(i)
  }

  /** A decimal holds no parenthesis, so it cannot be confused with the text around it. */
  lemma DecimalHasNoParenthesis(i: int)
    ensures '(' !in IntToDecimal(i) && ')' !in IntToDecimal(i)
  {
    var d := IntToDecimal(i);
    forall j | 0 <= j < |d| ensures d[j] != '(' && d[j] != ')' {
    }
  }

  /** Reads back what `IntToDecimal` writes; `None` for anything else. */
  function ParseDecimal(s: string): (r: Option<int>)
    ensures r.Some? ==> |s| >= 1 && (AllDigits(s) || (s[0] == '-' && AllDigits(s[1..])))
  {
    if |s| >= 2 && s[0] == '-' && AllDigits(s[1..]) then Some(0 - DigitsValue(s[1..]))
    else if |s| >= 1 && AllDigits(s) then Some(DigitsValue(s))
    else None
  }

  lemma DecimalRoundTrip(i: int)
    ensures ParseDecimal(IntToDecimal(i)) == Some(i)
  {
    if i < 0 {
      var s := IntToDecimal(i);
      assert s[1..] == NatDigits(-i);
      DigitsValueOfNatDigits(-i);
    } else {
      DigitsValueOfNatDigits(i);
    }
  }

  /** The position of the last `c` in `s`. */
  function LastIndexOf(s: string, c: char): (r: Option<nat>)
    ensures r.None? <==> c !in s
    ensures r.Some? ==> r.value < |s| && s[r.value] == c && c !in s[r.value + 1..]
  {
    if |s| == 0 then None
    else if s[|s| - 1] == c then Some(|s| - 1)
    else
      assert s == s[..|s| - 1] + [s[|s| - 1]];
      LastIndexOf(s[..|s| - 1], c)
  }

  /** A `c` followed only by other characters is the last `c`. */
  lemma {:induction false} LastIndexOfBefore(p: string, c: char, q: string)
    requires c !in q
    ensures LastIndexOf(p + [c] + q, c) == Some(|p|)
    decreases |q|
  {
    var s := p + [c] + q;
    if |q| > 0 {
      assert s[..|s| - 1] == p + [c] + q[..|q| - 1];
      LastIndexOfBefore(p, c, q[..|q| - 1]);
    }
  }

  /** The text between the last `(` and a final `)`, when `tail` holds no `(`. */
  lemma ParenthesizedTail(head: string, tail: string)
    requires '(' !in tail
    ensures var s := head + "(" + tail + ")";
      && s[|s| - 1] == ')'
      && LastIndexOf(s[..|s| - 1], '(') == Some(|head|)
      && s[..|s| - 1][|head| + 1..] == tail
  {
    var s := head + "(" + tail + ")";
    assert s[..|s| - 1] == head + ['('] + tail;
    LastIndexOfBefore(head, '(', tail);
  }
}
