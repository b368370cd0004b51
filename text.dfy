/** The Python string and list operations the service and the routes rely on:
    `str(n)` for a non-negative int, `sep.join(parts)`, `s.split(c)` for a
    one-character separator, `s.lower()` and `s.endswith(t)`, and list
    indexing `xs[0]` / `xs[-1]` with its IndexError. */
module Text {
  import opened Wrappers

  predicate IsDigit(c: char) {
    '0' <= c <= '9'
  }

  function DigitChar(d: nat): (c: char)
    requires d < 10
    ensures IsDigit(c)
  {
    ('0' as int + d) as char
  }

  /** `str(n)` for a non-negative integer: decimal, no leading zeros. */
  function NatToString(n: nat): (s: string)
    ensures 1 <= |s|
    ensures forall k :: 0 <= k < |s| ==> IsDigit(s[k])
    ensures |s| == 1 <==> n < 10
  {
    if n < 10 then [DigitChar(n)] else NatToString(n / 10) + [DigitChar(n % 10)]
  }

  /** Distinct numbers have distinct decimal renderings. */
  lemma {:induction false} NatToStringInjective(a: nat, b: nat)
    requires NatToString(a) == NatToString(b)
    ensures a == b
  {
    if 10 <= a && 10 <= b {
      var sa, sb := NatToString(a), NatToString(b);
      assert sa[..|sa| - 1] == NatToString(a / 10);
      assert sb[..|sb| - 1] == NatToString(b / 10);
      NatToStringInjective(a / 10, b / 10);
      assert DigitChar(a % 10) == sa[|sa| - 1] == sb[|sb| - 1] == DigitChar(b % 10);
    }
  }

  /** `sep.join(parts)`. */
  function Join(parts: seq<string>, sep: string): string
  {
    if |parts| == 0 then ""
    else if |parts| == 1 then parts[0]
    else parts[0] + sep + Join(parts[1..], sep)
  }

  /** Joining one more part appends the separator and that part, so the
      parts appear in the joined string in list order. */
  lemma {:induction false} JoinAppend(parts: seq<string>, x: string, sep: string)
    requires 1 <= |parts|
    ensures Join(parts + [x], sep) == Join(parts, sep) + sep + x
  {
    if |parts| > 1 {
      JoinAppend(parts[1..], x, sep);
      assert (parts + [x])[1..] == parts[1..] + [x];
    } else {
      assert (parts + [x])[1..] == [x];
    }
  }

  /** `s.split(c)` for a one-character separator: empty pieces are kept, and
      the list is never empty (`"".split(c) == [""]`). */
  function SplitOn(s: string, c: char): (r: seq<string>)
    ensures 1 <= |r|
  {
    if |s| == 0 then [""]
    else
      var rest := SplitOn(s[1..], c);
      if s[0] == c then [""] + rest
      else [[s[0]] + rest[0]] + rest[1..]
  }

  /** No piece contains the separator. */
  lemma {:induction false} SplitPiecesFree(s: string, c: char)
    ensures forall k :: 0 <= k < |SplitOn(s, c)| ==> c !in SplitOn(s, c)[k]
  {
    if |s| > 0 {
      SplitPiecesFree(s[1..], c);
      var rest := SplitOn(s[1..], c);
      if s[0] != c {
        assert c !in [s[0]] + rest[0];
      }
    }
  }

  /** A character absent from the string is absent from every piece. */
  lemma {:induction false} SplitPiecesAvoid(s: string, c: char, d: char)
    requires d !in s
    ensures forall k :: 0 <= k < |SplitOn(s, c)| ==> d !in SplitOn(s, c)[k]
  {
    if |s| > 0 {
      SplitPiecesAvoid(s[1..], c, d);
      var rest := SplitOn(s[1..], c);
      if s[0] != c {
        assert d !in [s[0]] + rest[0];
      }
    }
  }

  /** Joining the pieces with the separator gives back the string. */
  lemma {:induction false} JoinSplit(s: string, c: char)
    ensures Join(SplitOn(s, c), [c]) == s
  {
    if |s| > 0 {
      var rest := SplitOn(s[1..], c);
      JoinSplit(s[1..], c);
      if s[0] == c {
        assert SplitOn(s, c) == [""] + rest;
        if |rest| == 1 {
          assert Join(SplitOn(s, c), [c]) == "" + [c] + rest[0];
        } else {
          assert ([""] + rest)[1..] == rest;
        }
      } else {
        var r := SplitOn(s, c);
        assert r == [[s[0]] + rest[0]] + rest[1..];
        if |rest| > 1 {
          assert r[1..] == rest[1..];
          assert Join(rest, [c]) == rest[0] + [c] + Join(rest[1..], [c]);
        }
        assert s == [s[0]] + s[1..];
      }
    }
  }

  /** Splitting a join of separator-free pieces gives back the pieces. */
  lemma {:induction false} SplitJoin(parts: seq<string>, c: char)
    requires 1 <= |parts|
    requires forall k :: 0 <= k < |parts| ==> c !in parts[k]
    ensures SplitOn(Join(parts, [c]), c) == parts
  {
    SplitNoSeparator(parts[0], c);
    if |parts| > 1 {
      SplitJoin(parts[1..], c);
      SplitAppend(parts[0], Join(parts[1..], [c]), c);
      assert parts[0] + [c] + Join(parts[1..], [c]) == Join(parts, [c]);
      assert [parts[0]] + parts[1..] == parts;
    }
  }

  /** A string without the separator splits into itself alone. */
  lemma {:induction false} SplitNoSeparator(s: string, c: char)
    requires c !in s
    ensures SplitOn(s, c) == [s]
  {
    if |s| > 0 {
      SplitNoSeparator(s[1..], c);
      assert [s[0]] + s[1..] == s;
    }
  }

  /** Splitting at one occurrence of the separator splits each side apart. */
  lemma {:induction false} SplitAppend(p: string, s: string, c: char)
    ensures SplitOn(p + [c] + s, c) == SplitOn(p, c) + SplitOn(s, c)
  {
    if |p| == 0 {
      assert p + [c] + s == [c] + s;
      SplitConsSeparator(c, s, c);
    } else {
      var tail := p[1..] + [c] + s;
      assert p + [c] + s == [p[0]] + tail;
      assert p == [p[0]] + p[1..];
      SplitAppend(p[1..], s, c);
      if p[0] == c {
        SplitConsSeparator(p[0], tail, c);
        SplitConsSeparator(p[0], p[1..], c);
      } else {
        SplitAppendOther(p[0], tail, p[1..], s, c);
      }
    }
  }

  /** The inductive step of SplitAppend when the first character is not the separator. */
  lemma SplitAppendOther(x: char, tail: string, t: string, s: string, c: char)
    requires x != c
    requires tail == t + [c] + s
    requires SplitOn(tail, c) == SplitOn(t, c) + SplitOn(s, c)
    ensures SplitOn([x] + tail, c) == SplitOn([x] + t, c) + SplitOn(s, c)
  {
    var tr, sr := SplitOn(t, c), SplitOn(s, c);
    SplitConsOther(x, tail, c);
    SplitConsOther(x, t, c);
    assert (tr + sr)[1..] == tr[1..] + sr;
  }

  /** A leading separator closes an empty first piece. */
  lemma SplitConsSeparator(x: char, t: string, c: char)
    requires x == c
    ensures SplitOn([x] + t, c) == [""] + SplitOn(t, c)
  {
    assert ([x] + t)[1..] == t;
  }

  /** A leading non-separator character joins the first piece. */
  lemma SplitConsOther(x: char, t: string, c: char)
    requires x != c
    ensures SplitOn([x] + t, c) == [[x] + SplitOn(t, c)[0]] + SplitOn(t, c)[1..]
  {
    assert ([x] + t)[1..] == t;
  }

  /** `xs[0]`, or None where Python raises IndexError. */
  function First<T>(xs: seq<T>): (r: Option<T>)
    ensures r.Some? <==> |xs| > 0
    ensures r.Some? ==> r.value == xs[0]
  {
    if |xs| == 0 then None else Some(xs[0])
  }

  /** `xs[-1]`, or None where Python raises IndexError. */
  function Last<T>(xs: seq<T>): (r: Option<T>)
    ensures r.Some? <==> |xs| > 0
    ensures r.Some? ==> r.value == xs[|xs| - 1]
  {
    if |xs| == 0 then None else Some(xs[|xs| - 1])
  }

  function LowerChar(c: char): char {
    if 'A' <= c <= 'Z' then (c as int + 32) as char else c
  }

  /** `s.lower()` on ASCII letters; other characters are kept. */
  function Lower(s: string): (r: string)
    ensures |r| == |s|
  {
    seq(|s|, k requires 0 <= k < |s| => LowerChar(s[k]))
  }

  predicate EndsWith(s: string, suffix: string) {
    |suffix| <= |s| && s[|s| - |suffix|..] == suffix
  }
}
