/** Go's `strings.Split`/`strings.Join` on a one-character separator, and the facts the DNS rewrite needs. */
module Strings {

  /** `strings.Split(s, string(sep))`: the pieces between separators; the empty string gives `[""]`. */
  function Split(s: string, sep: char): (parts: seq<string>)
    ensures |parts| >= 1
    ensures forall p :: p in parts ==> sep !in p
    decreases |s|
  {
    if |s| == 0 then [""]
    else
      var rest := Split(s[1..], sep);
      if s[0] == sep then [""] + rest else [[s[0]] + rest[0]] + rest[1..]
  }

  /** `strings.Join(parts, string(sep))`. */
  function Join(parts: seq<string>, sep: char): string {
    if |parts| == 0 then ""
    else if |parts| == 1 then parts[0]
    else parts[0] + [sep] + Join(parts[1..], sep)
  }

  /** Splitting and joining on the same separator gives the string back. */
  lemma {:induction false} JoinSplit(s: string, sep: char)
    ensures Join(Split(s, sep), sep) == s
    decreases |s|
  {
    if |s| > 0 {
      var rest := Split(s[1..], sep);
      JoinSplit(s[1..], sep);
      if s[0] != sep && |rest| > 1 {
        assert rest == [rest[0]] + rest[1..];
        assert Join(rest, sep) == rest[0] + [sep] + Join(rest[1..], sep);
        assert Join(Split(s, sep), sep) == [s[0]] + rest[0] + [sep] + Join(rest[1..], sep);
        assert s == [s[0]] + s[1..];
      } else if s[0] != sep {
        assert s == [s[0]] + s[1..];
      } else {
        assert s == [s[0]] + s[1..];
      }
    }
  }

  lemma {:induction false} SplitWithoutSeparator(b: string, sep: char)
    requires sep !in b
    ensures Split(b, sep) == [b]
    decreases |b|
  {
    if |b| > 0 {
      assert sep !in b[1..] by {
        forall k | 0 <= k < |b[1..]| ensures b[1..][k] != sep { assert b[1..][k] == b[k + 1]; }
      }
      SplitWithoutSeparator(b[1..], sep);
      assert b == [b[0]] + b[1..];
    }
  }

  /** A first piece without separators is split off as the first element. */
  lemma {:induction false} SplitFirst(a: string, rest: string, sep: char)
    requires sep !in a
    ensures Split(a + [sep] + rest, sep) == [a] + Split(rest, sep)
    decreases |a|
  {
    var s := a + [sep] + rest;
    if |a| == 0 {
      assert s == [sep] + rest;
      assert s[1..] == rest;
    } else {
      assert s[1..] == a[1..] + [sep] + rest;
      assert sep !in a[1..] by {
        forall k | 0 <= k < |a[1..]| ensures a[1..][k] != sep { assert a[1..][k] == a[k + 1]; }
      }
      SplitFirst(a[1..], rest, sep);
      assert a == [a[0]] + a[1..];
    }
  }

  /** Joining separator-free pieces and splitting again gives the pieces back. */
  lemma {:induction false} SplitJoin(parts: seq<string>, sep: char)
    requires |parts| >= 1
    requires forall p :: p in parts ==> sep !in p
    ensures Split(Join(parts, sep), sep) == parts
    decreases |parts|
  {
    if |parts| == 1 {
      SplitWithoutSeparator(parts[0], sep);
    } else {
      assert parts[0] in parts;
      assert forall p :: p in parts[1..] ==> p in parts;
      SplitJoin(parts[1..], sep);
      SplitFirst(parts[0], Join(parts[1..], sep), sep);
      assert parts == [parts[0]] + parts[1..];
    }
  }

  /** The piece after the last separator is split off as the last element. */
  lemma {:induction false} SplitLast(a: string, b: string, sep: char)
    requires sep !in b
    ensures Split(a + [sep] + b, sep) == Split(a, sep) + [b]
    decreases |a|
  {
    var s := a + [sep] + b;
    if |a| == 0 {
      assert s == [sep] + b;
      assert s[1..] == b;
      SplitWithoutSeparator(b, sep);
    } else {
      assert s[1..] == a[1..] + [sep] + b;
      SplitLast(a[1..], b, sep);
      var rest := Split(s[1..], sep);
      assert rest == Split(a[1..], sep) + [b];
      if a[0] != sep {
        assert rest[0] == Split(a[1..], sep)[0];
        assert rest[1..] == Split(a[1..], sep)[1..] + [b];
      }
    }
  }

  /** Index of the last occurrence of `sep`. */
  function LastIndex(s: string, sep: char): (i: nat)
    requires sep in s
    ensures i < |s| && s[i] == sep
    ensures sep !in s[i + 1..]
    decreases |s|
  {
    if s[|s| - 1] == sep then |s| - 1
    else
      assert sep in s[..|s| - 1] by {
        var k :| 0 <= k < |s| && s[k] == sep;
        assert s[..|s| - 1][k] == sep;
      }
      var i := LastIndex(s[..|s| - 1], sep);
      assert s[i + 1..] == s[..|s| - 1][i + 1..] + [s[|s| - 1]];
      i
  }

  /**
   * The rewrite of the DNS fallback: split on `sep`, drop the last piece, join
   * again and append `sep` followed by `tail`.
   */
  function ReplaceLastSegment(s: string, sep: char, tail: string): string {
    var parts := Split(s, sep);
    Join(parts[..|parts| - 1], sep) + [sep] + tail
  }

  /** What the rewrite means: everything up to and including the last separator, then `tail`. */
  lemma ReplaceLastSegmentKeepsPrefix(s: string, sep: char, tail: string)
    requires sep in s
    ensures ReplaceLastSegment(s, sep, tail) == s[..LastIndex(s, sep) + 1] + tail
  {
    var i := LastIndex(s, sep);
    var a, b := s[..i], s[i + 1..];
    assert s == a + [sep] + b;
    SplitLast(a, b, sep);
    var parts := Split(s, sep);
    assert parts[..|parts| - 1] == Split(a, sep);
    JoinSplit(a, sep);
    assert s[..i + 1] == a + [sep];
  }
}
