/**
 * String operations of Python and JavaScript that the core relies on:
 * case mapping, stripping white space, and splitting on a separator.
 */
module Text {

  /** Python's str.isspace() on a single character. */
  predicate IsPySpace(c: char)
  {
    var n := c as int;
    (9 <= n <= 13) || (28 <= n <= 32) || n == 0x85 || n == 0xA0 || n == 0x1680
    || (0x2000 <= n <= 0x200A) || n == 0x2028 || n == 0x2029 || n == 0x202F
    || n == 0x205F || n == 0x3000
  }

  /** The characters JavaScript's String.prototype.trim() removes. */
  predicate IsJsSpace(c: char)
  {
    var n := c as int;
    (9 <= n <= 13) || n == 32 || n == 0xA0 || n == 0x1680 || (0x2000 <= n <= 0x200A)
    || n == 0x2028 || n == 0x2029 || n == 0x202F || n == 0x205F || n == 0x3000 || n == 0xFEFF
  }

  function UpperChar(c: char): char
  {
    if 'a' <= c <= 'z' then (c as int - 32) as char else c
  }

  function LowerChar(c: char): char
  {
    if 'A' <= c <= 'Z' then (c as int + 32) as char else c
  }

  /** str.upper() on the ASCII letters; other characters are kept. */
  function Upper(s: string): (r: string)
    ensures |r| == |s|
    ensures forall i :: 0 <= i < |s| ==> r[i] == UpperChar(s[i])
  {
    seq(|s|, i requires 0 <= i < |s| => UpperChar(s[i]))
  }

  /** str.lower() on the ASCII letters; other characters are kept. */
  function Lower(s: string): (r: string)
    ensures |r| == |s|
    ensures forall i :: 0 <= i < |s| ==> r[i] == LowerChar(s[i])
  {
    seq(|s|, i requires 0 <= i < |s| => LowerChar(s[i]))
  }

  /** Upper-casing twice is upper-casing once. */
  lemma UpperIdempotent(s: string)
    ensures Upper(Upper(s)) == Upper(s)
  {
    assert forall i :: 0 <= i < |s| ==> UpperChar(UpperChar(s[i])) == UpperChar(s[i]);
  }

  /** Number of leading characters of `s` that satisfy `ws`. */
  function LeadCount(s: string, ws: char -> bool): (k: nat)
    ensures k <= |s|
    ensures forall j :: 0 <= j < k ==> ws(s[j])
    ensures k < |s| ==> !ws(s[k])
  {
    if |s| == 0 || !ws(s[0]) then 0 else 1 + LeadCount(s[1..], ws)
  }

  /** Number of trailing characters of `s` that satisfy `ws`. */
  function TrailCount(s: string, ws: char -> bool): (k: nat)
    ensures k <= |s|
    ensures forall j :: |s| - k <= j < |s| ==> ws(s[j])
    ensures k < |s| ==> !ws(s[|s| - 1 - k])
  {
    if |s| == 0 || !ws(s[|s| - 1]) then 0 else 1 + TrailCount(s[..|s| - 1], ws)
  }

  /** `s` with the characters satisfying `ws` removed from both ends. */
  function Strip(s: string, ws: char -> bool): (r: string)
  {
    var i := LeadCount(s, ws);
    var t := s[i..];
    t[..|t| - TrailCount(t, ws)]
  }

  /**
   * What Strip keeps is a contiguous part of its input, everything it drops
   * is white space, and what it keeps neither starts nor ends with white space.
   */
  lemma StripSpec(s: string, ws: char -> bool)
    ensures var r := Strip(s, ws);
      exists i, j :: 0 <= i <= j <= |s| && r == s[i..j]
        && (forall k :: 0 <= k < i ==> ws(s[k]))
        && (forall k :: j <= k < |s| ==> ws(s[k]))
    ensures var r := Strip(s, ws); r == "" || (!ws(r[0]) && !ws(r[|r| - 1]))
  {
    var i := LeadCount(s, ws);
    var t := s[i..];
    var j := i + |t| - TrailCount(t, ws);
    assert Strip(s, ws) == s[i..j];
    assert forall k :: j <= k < |s| ==> s[k] == t[k - i];
  }

  /** A string with no white space at either end is left as it is. */
  lemma StripClean(s: string, ws: char -> bool)
    requires s == "" || (!ws(s[0]) && !ws(s[|s| - 1]))
    ensures Strip(s, ws) == s
  {
    if s != "" {
      assert LeadCount(s, ws) == 0;
      assert s[0..] == s;
      assert TrailCount(s, ws) == 0;
    }
  }

  /** Stripping is idempotent. */
  lemma StripIdempotent(s: string, ws: char -> bool)
    ensures Strip(Strip(s, ws), ws) == Strip(s, ws)
  {
    StripSpec(s, ws);
    StripClean(Strip(s, ws), ws);
  }

  /** Stripping leaves nothing exactly when every character is white space. */
  lemma StripEmpty(s: string, ws: char -> bool)
    ensures Strip(s, ws) == "" <==> forall k :: 0 <= k < |s| ==> ws(s[k])
  {
    var i := LeadCount(s, ws);
    if i < |s| {
      var t := s[i..];
      assert !ws(t[0]);
      assert TrailCount(t, ws) < |t|;
    }
  }

  /** Python's str.split(sep) for a one-character separator. */
  function Split(s: string, sep: char): (parts: seq<string>)
    ensures |parts| >= 1
    ensures forall i :: 0 <= i < |parts| ==> sep !in parts[i]
  {
    if |s| == 0 then [""]
    else
      var rest := Split(s[1..], sep);
      if s[0] == sep then [""] + rest
      else [[s[0]] + rest[0]] + rest[1..]
  }

  /** Python's sep.join(parts), for a non-empty list. */
  function Join(parts: seq<string>, sep: char): string
    requires |parts| >= 1
  {
    if |parts| == 1 then parts[0] else parts[0] + [sep] + Join(parts[1..], sep)
  }

  lemma {:induction false} SplitNoSep(p: string, sep: char)
    requires sep !in p
    ensures Split(p, sep) == [p]
  {
    if |p| > 0 {
      assert p[1..] + [] == p[1..];
      SplitNoSep(p[1..], sep);
      assert [p[0]] + p[1..] == p;
    }
  }

  lemma {:induction false} SplitAfterPart(p: string, sep: char, t: string)
    requires sep !in p
    ensures Split(p + [sep] + t, sep) == [p] + Split(t, sep)
  {
    if |p| == 0 {
      assert p + [sep] + t == [sep] + t;
      assert ([sep] + t)[1..] == t;
    } else {
      var s := p + [sep] + t;
      assert s[1..] == p[1..] + [sep] + t;
      SplitAfterPart(p[1..], sep, t);
      assert [p[0]] + p[1..] == p;
    }
  }

  /** Splitting a joined list gives the list back when no part holds the separator. */
  lemma {:induction false} SplitJoin(parts: seq<string>, sep: char)
    requires |parts| >= 1
    requires forall i :: 0 <= i < |parts| ==> sep !in parts[i]
    ensures Split(Join(parts, sep), sep) == parts
  {
    if |parts| == 1 {
      SplitNoSep(parts[0], sep);
    } else {
      SplitJoin(parts[1..], sep);
      SplitAfterPart(parts[0], sep, Join(parts[1..], sep));
      assert [parts[0]] + parts[1..] == parts;
    }
  }

  /** Joining the parts of a split gives the string back. */
  lemma {:induction false} JoinSplit(s: string, sep: char)
    ensures Join(Split(s, sep), sep) == s
  {
    if |s| > 0 {
      var rest := Split(s[1..], sep);
      JoinSplit(s[1..], sep);
      if s[0] == sep {
        assert [""] + rest == Split(s, sep);
        assert ([""] + rest)[1..] == rest;
        assert s == [sep] + s[1..];
      } else {
        var parts := Split(s, sep);
        assert parts == [[s[0]] + rest[0]] + rest[1..];
        if |rest| == 1 {
          assert s == [s[0]] + rest[0];
        } else {
          assert parts[1..] == rest[1..];
          assert Join(rest, sep) == rest[0] + [sep] + Join(rest[1..], sep);
          assert s == [s[0]] + s[1..];
        }
      }
    }
  }
}
