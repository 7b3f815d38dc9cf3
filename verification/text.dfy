/** String operations the stream-name grammar and the metadata identifiers are
    built from: Rust's `str::split`, `str::split_once`, `str::rsplit_once`,
    the separator-joining `Display` loops, and the decimal `Display` of `i64`. */
module Text {
  import opened Errors

  /** `s.split(sep)`: the pieces between separators, in order. Like Rust's
      iterator it always yields at least one piece, possibly empty. */
  function Split(s: string, sep: char): (r: seq<string>)
    ensures |r| >= 1
    ensures forall i :: 0 <= i < |r| ==> sep !in r[i]
  {
    if s == [] then [[]]
    else
      var rest := Split(s[1..], sep);
      if s[0] == sep then [[]] + rest
      else [[s[0]] + rest[0]] + rest[1..]
  }

  /** The `Display` loops: every part, with `sep` written before every part
      but the first. */
  function Join(parts: seq<string>, sep: char): string
  {
    if |parts| == 0 then []
    else if |parts| == 1 then parts[0]
    else parts[0] + [sep] + Join(parts[1..], sep)
  }

  /** Joining one more part writes a separator and the part at the end. */
  lemma {:induction false} JoinAppend(parts: seq<string>, last: string, sep: char)
    requires |parts| >= 1
    ensures Join(parts + [last], sep) == Join(parts, sep) + [sep] + last
    decreases |parts|
  {
    if |parts| > 1 {
      assert (parts + [last])[1..] == parts[1..] + [last];
      JoinAppend(parts[1..], last, sep);
    }
  }

  predicate NoneContains(parts: seq<string>, c: char) {
    forall i :: 0 <= i < |parts| ==> c !in parts[i]
  }

  predicate NoneEmpty(parts: seq<string>) {
    forall i :: 0 <= i < |parts| ==> parts[i] != []
  }

  lemma JoinPrepend(c: char, parts: seq<string>, sep: char)
    requires |parts| >= 1
    ensures Join([[c] + parts[0]] + parts[1..], sep) == [c] + Join(parts, sep)
  {
    var q := [[c] + parts[0]] + parts[1..];
    assert q[1..] == parts[1..];
    if |parts| > 1 {
      assert Join(q, sep) == [c] + (parts[0] + [sep] + Join(parts[1..], sep));
    }
  }

  /** Joining the pieces of a split gives back the text, for every text. */
  lemma {:induction false} JoinSplit(s: string, sep: char)
    ensures Join(Split(s, sep), sep) == s
  {
    if s != [] {
      var rest := Split(s[1..], sep);
      JoinSplit(s[1..], sep);
      assert s == [s[0]] + s[1..];
      if s[0] == sep {
        assert Split(s, sep) == [[]] + rest;
        assert ([[]] + rest)[1..] == rest;
      } else {
        JoinPrepend(s[0], rest, sep);
      }
    }
  }

  lemma {:induction false} SplitWord(w: string, sep: char)
    requires sep !in w
    ensures Split(w, sep) == [w]
  {
    if w != [] {
      SplitWord(w[1..], sep);
      assert w == [w[0]] + w[1..];
    }
  }

  lemma {:induction false} SplitWordThen(w: string, rest: string, sep: char)
    requires sep !in w
    ensures Split(w + [sep] + rest, sep) == [w] + Split(rest, sep)
  {
    var t := w + [sep] + rest;
    if w == [] {
      assert t == [sep] + rest;
      assert t[1..] == rest;
    } else {
      assert t[1..] == w[1..] + [sep] + rest;
      SplitWordThen(w[1..], rest, sep);
      assert [w[0]] + w[1..] == w;
    }
  }

  /** Splitting a join gives back the parts when no part contains the
      separator (at least one part: the empty list joins to the same text as
      the list holding one empty part). */
  lemma {:induction false} SplitJoin(parts: seq<string>, sep: char)
    requires |parts| >= 1
    requires NoneContains(parts, sep)
    ensures Split(Join(parts, sep), sep) == parts
  {
    if |parts| == 1 {
      SplitWord(parts[0], sep);
    } else {
      SplitJoin(parts[1..], sep);
      SplitWordThen(parts[0], Join(parts[1..], sep), sep);
      assert parts == [parts[0]] + parts[1..];
    }
  }

  /** No two separators stand next to each other in `s`. */
  predicate NoDoubled(s: string, sep: char) {
    forall i :: 0 <= i < |s| - 1 ==> !(s[i] == sep && s[i + 1] == sep)
  }

  /** Every piece after the first is non-empty exactly when `s` does not end
      in the separator and has no two separators side by side. */
  lemma {:induction false} SplitTailNoneEmpty(s: string, sep: char)
    ensures NoneEmpty(Split(s, sep)[1..]) <==> (s == [] || s[|s| - 1] != sep) && NoDoubled(s, sep)
  {
    if s != [] {
      var t := s[1..];
      SplitTailNoneEmpty(t, sep);
      var rest := Split(t, sep);
      assert NoDoubled(s, sep) <==> !(|t| > 0 && s[0] == sep && t[0] == sep) && NoDoubled(t, sep) by {
        if NoDoubled(s, sep) {
          forall i | 0 <= i < |t| - 1 ensures !(t[i] == sep && t[i + 1] == sep) {
            assert t[i] == s[i + 1] && t[i + 1] == s[i + 2];
          }
        }
        if !(|t| > 0 && s[0] == sep && t[0] == sep) && NoDoubled(t, sep) {
          forall i | 0 <= i < |s| - 1 ensures !(s[i] == sep && s[i + 1] == sep) {
            if i > 0 { assert s[i] == t[i - 1] && s[i + 1] == t[i]; }
          }
        }
      }
      if s[0] == sep {
        assert Split(s, sep)[1..] == rest;
        if t != [] {
          assert rest[0] != [] <==> t[0] != sep;
          assert NoneEmpty(rest) <==> rest[0] != [] && NoneEmpty(rest[1..]) by {
            assert rest == [rest[0]] + rest[1..];
          }
        }
      } else {
        assert Split(s, sep)[1..] == rest[1..];
      }
    }
  }

  /** Every piece of a split is non-empty exactly when `s` is non-empty,
      neither starts nor ends with the separator and has no two separators
      side by side. */
  lemma SplitNoneEmpty(s: string, sep: char)
    ensures NoneEmpty(Split(s, sep)) <==>
      s != [] && s[0] != sep && s[|s| - 1] != sep && NoDoubled(s, sep)
  {
    var r := Split(s, sep);
    SplitTailNoneEmpty(s, sep);
    assert NoneEmpty(r) <==> r[0] != [] && NoneEmpty(r[1..]) by {
      assert r == [r[0]] + r[1..];
    }
    if s != [] && s[0] != sep {
      assert r[0] == [s[0]] + Split(s[1..], sep)[0];
    }
  }

  /** The index of the first `c` in `s`. */
  function IndexOf(s: string, c: char): (r: Option<nat>)
    ensures r.None? <==> c !in s
    ensures r.Some? ==> r.value < |s| && s[r.value] == c && c !in s[..r.value]
  {
    if s == [] then None
    else if s[0] == c then Some(0)
    else match IndexOf(s[1..], c)
      case None => None
      case Some(i) =>
        assert s[..i + 1] == [s[0]] + s[1..][..i];
        Some(i + 1)
  }

  /** The index of the last `c` in `s`. */
  function LastIndexOf(s: string, c: char): (r: Option<nat>)
    ensures r.None? <==> c !in s
    ensures r.Some? ==> r.value < |s| && s[r.value] == c && c !in s[r.value + 1..]
  {
    if s == [] then None
    else if s[|s| - 1] == c then Some(|s| - 1)
    else
      var init := s[..|s| - 1];
      match LastIndexOf(init, c)
      case None =>
        assert s == init + [s[|s| - 1]];
        None
      case Some(i) =>
        assert s[i + 1..] == init[i + 1..] + [s[|s| - 1]];
        Some(i)
  }

  /** `s.split_once(c)`: the text before and after the first `c`. */
  function SplitOnce(s: string, c: char): (r: Option<(string, string)>)
    ensures r.None? <==> c !in s
    ensures r.Some? ==> r.value.0 + [c] + r.value.1 == s && c !in r.value.0
  {
    match IndexOf(s, c)
    case None => None
    case Some(i) =>
      assert s == s[..i] + [c] + s[i + 1..];
      Some((s[..i], s[i + 1..]))
  }

  /** `s.rsplit_once(c)`: the text before and after the last `c`. */
  function SplitLast(s: string, c: char): (r: Option<(string, string)>)
    ensures r.None? <==> c !in s
    ensures r.Some? ==> r.value.0 + [c] + r.value.1 == s && c !in r.value.1
  {
    match LastIndexOf(s, c)
    case None => None
    case Some(i) =>
      assert s == s[..i] + [c] + s[i + 1..];
      Some((s[..i], s[i + 1..]))
  }

  /** A first separator is found where it was put. */
  lemma SplitOnceAt(a: string, b: string, c: char)
    requires c !in a
    ensures SplitOnce(a + [c] + b, c) == Some((a, b))
  {
    var s := a + [c] + b;
    var r := SplitOnce(s, c);
    assert s[|a|] == c;
    var x := r.value.0;
    assert |x| == |a|;
    assert x == s[..|a|] == a;
    assert r.value.1 == s[|a| + 1..] == b;
  }

  /** A last separator is found where it was put. */
  lemma SplitLastAt(a: string, b: string, c: char)
    requires c !in b
    ensures SplitLast(a + [c] + b, c) == Some((a, b))
  {
    var s := a + [c] + b;
    var r := SplitLast(s, c);
    assert s[|a|] == c;
    var y := r.value.1;
    assert |y| == |b|;
    assert r.value.0 == s[..|a|] == a;
    assert y == s[|a| + 1..] == b;
  }

  predicate IsDigit(ch: char) {
    '0' <= ch <= '9'
  }

  predicate AllDigits(s: string) {
    forall i :: 0 <= i < |s| ==> IsDigit(s[i])
  }

  function DigitChar(d: nat): (ch: char)
    requires d < 10
    ensures IsDigit(ch) && ch as int - '0' as int == d
  {
    ('0' as int + d) as char
  }

  /** The decimal digits of `n`, most significant first, without leading zeros. */
  function NatToDecimal(n: nat): (r: string)
    ensures |r| >= 1 && AllDigits(r)
  {
    if n < 10 then [DigitChar(n)] else NatToDecimal(n / 10) + [DigitChar(n % 10)]
  }

  /** `format!("{n}")` for an integer: a minus sign for negative values, then
      the digits of the magnitude. */
  function IntToDecimal(n: int): (r: string)
    ensures |r| >= 1 && '/' !in r
    ensures (r[0] == '-') == (n < 0) && AllDigits(if n < 0 then r[1..] else r)
  {
    if n < 0 then
      var d := NatToDecimal(-n);
      assert ("-" + d)[1..] == d;
      "-" + d
    else NatToDecimal(n)
  }

  /** The value of a string of decimal digits. */
  function DigitsValue(s: string): int
    requires AllDigits(s)
  {
    if s == [] then 0 else 10 * DigitsValue(s[..|s| - 1]) + (s[|s| - 1] as int - '0' as int)
  }

  /** Reads back a decimal integer written by `IntToDecimal`. */
  function ParseDecimal(s: string): int
    requires |s| >= 1 && AllDigits(if s[0] == '-' then s[1..] else s)
  {
    if s[0] == '-' then -DigitsValue(s[1..]) else DigitsValue(s)
  }

  lemma {:induction false} NatToDecimalValue(n: nat)
    ensures DigitsValue(NatToDecimal(n)) == n
  {
    if n >= 10 {
      NatToDecimalValue(n / 10);
      var s := NatToDecimal(n);
      assert s[..|s| - 1] == NatToDecimal(n / 10);
    }
  }

  /** The decimal text of an integer reads back as that integer. */
  lemma IntToDecimalRoundTrip(n: int)
    ensures ParseDecimal(IntToDecimal(n)) == n
  {
    if n < 0 {
      NatToDecimalValue(-n);
      assert IntToDecimal(n)[1..] == NatToDecimal(-n);
    } else {
      NatToDecimalValue(n);
      assert NatToDecimal(n)[0] != '-';
    }
  }
}
