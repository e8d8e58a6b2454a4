/**
 * The few JavaScript string operations the bot relies on:
 * `String.prototype.includes`, `split` on a one-character separator,
 * `Array.prototype.join` and "last element of a split".
 */
module Strings {

  /** `sub` occurs in `s` starting at position `i`. */
  predicate OccursAt(s: string, sub: string, i: int)
  {
    0 <= i <= |s| - |sub| && s[i..i + |sub|] == sub
  }

  /** `s.includes(sub)`: `sub` occurs in `s` at some position. */
  function Includes(s: string, sub: string): (r: bool)
    ensures r <==> exists i :: OccursAt(s, sub, i)
    decreases |s|
  {
    if |sub| > |s| then
      assert forall i :: !OccursAt(s, sub, i);
      false
    else if s[..|sub|] == sub then
      assert OccursAt(s, sub, 0);
      true
    else
      var r := Includes(s[1..], sub);
      assert r ==> exists i :: OccursAt(s, sub, i) by {
        if r {
          var i :| OccursAt(s[1..], sub, i);
          assert s[i + 1..i + 1 + |sub|] == s[1..][i..i + |sub|];
          assert OccursAt(s, sub, i + 1);
        }
      }
      assert !OccursAt(s, sub, 0);
      assert forall i :: OccursAt(s, sub, i) ==> r by {
        forall i | OccursAt(s, sub, i) ensures r {
          assert s[1..][i - 1..i - 1 + |sub|] == s[i..i + |sub|];
          assert OccursAt(s[1..], sub, i - 1);
        }
      }
      r
  }

  /** Position of the first `c` in `s`. */
  function IndexOf(s: string, c: char): (i: nat)
    requires c in s
    ensures i < |s| && s[i] == c && c !in s[..i]
  {
    if s[0] == c then 0
    else
      var j := IndexOf(s[1..], c);
      assert s[..j + 1] == [s[0]] + s[1..][..j];
      j + 1
  }

  /** Any position holding the first `c` is the one `IndexOf` finds. */
  lemma {:induction false} IndexOfIsFirst(s: string, c: char, i: nat)
    requires i < |s| && s[i] == c && c !in s[..i]
    ensures IndexOf(s, c) == i
  {
    if i > 0 {
      assert s[0] == s[..i][0];
      assert s[1..][..i - 1] == s[..i][1..];
      IndexOfIsFirst(s[1..], c, i - 1);
    }
  }

  /** `parts.join(sep)` for a one-character separator. */
  function Join(parts: seq<string>, sep: char): string
  {
    if |parts| == 0 then []
    else if |parts| == 1 then parts[0]
    else parts[0] + [sep] + Join(parts[1..], sep)
  }

  /**
   * `s.split(sep)` for a one-character separator: always at least one
   * part, no part holds the separator, and joining the parts back gives `s`.
   */
  function Split(s: string, sep: char): (parts: seq<string>)
    ensures |parts| >= 1
    ensures forall k :: 0 <= k < |parts| ==> sep !in parts[k]
    ensures Join(parts, sep) == s
    decreases |s|
  {
    if sep !in s then [s]
    else
      var i := IndexOf(s, sep);
      var rest := Split(s[i + 1..], sep);
      assert s == s[..i] + [sep] + s[i + 1..];
      [s[..i]] + rest
  }

  /** Splitting undoes joining, as long as no part holds the separator. */
  lemma {:induction false} SplitJoin(parts: seq<string>, sep: char)
    requires |parts| >= 1
    requires forall k :: 0 <= k < |parts| ==> sep !in parts[k]
    ensures Split(Join(parts, sep), sep) == parts
    decreases |parts|
  {
    if |parts| > 1 {
      var s := Join(parts, sep);
      assert s == parts[0] + [sep] + Join(parts[1..], sep);
      assert sep in s by { assert s[|parts[0]|] == sep; }
      var i := |parts[0]|;
      assert s[..i] == parts[0];
      IndexOfIsFirst(s, sep, i);
      assert s[i + 1..] == Join(parts[1..], sep);
      SplitJoin(parts[1..], sep);
    }
  }

  /** `s.split('/')` followed by taking the last fragment. */
  function LastSegment(s: string): (r: string)
    ensures '/' !in r
    ensures |r| <= |s| && s[|s| - |r|..] == r
    ensures |r| == |s| || s[|s| - |r| - 1] == '/'
  {
    var parts := Split(s, '/');
    LastOfJoin(parts, '/');
    parts[|parts| - 1]
  }

  /** The last segment of a path ending in `/b`, where `b` holds no `/`, is `b`. */
  lemma LastSegmentAfter(a: string, b: string)
    requires '/' !in b
    ensures LastSegment(a + ['/'] + b) == b
  {
    var s := a + ['/'] + b;
    var r := LastSegment(s);
    var n := |s|;
    assert s[n - |b| - 1] == '/';
    assert forall j :: n - |r| <= j < n ==> s[j] == r[j - (n - |r|)];
    assert forall j :: n - |b| <= j < n ==> s[j] == b[j - (n - |b|)];
    assert |r| <= |b|;
    assert |r| >= |b|;
    assert r == s[n - |b|..] == b;
  }

  /** The last part of a join is a suffix of the joined string, preceded by the separator when there are several parts. */
  lemma {:induction false} LastOfJoin(parts: seq<string>, sep: char)
    requires |parts| >= 1
    ensures var s, r := Join(parts, sep), parts[|parts| - 1];
            |r| <= |s| && s[|s| - |r|..] == r && (|parts| > 1 ==> |r| < |s| && s[|s| - |r| - 1] == sep)
    decreases |parts|
  {
    if |parts| > 1 {
      LastOfJoin(parts[1..], sep);
      var tail := Join(parts[1..], sep);
      var s := Join(parts, sep);
      assert s == (parts[0] + [sep]) + tail;
      var r := parts[|parts| - 1];
      assert r == parts[1..][|parts[1..]| - 1];
      assert s[|s| - |r|..] == tail[|tail| - |r|..];
      if |parts[1..]| == 1 {
        assert |r| == |tail|;
        assert s[|s| - |r| - 1] == sep;
      } else {
        assert s[|s| - |r| - 1] == tail[|tail| - |r| - 1];
      }
    }
  }
}
