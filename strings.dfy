/** The two JavaScript string built-ins the core relies on:
    `Array.prototype.join` (context assembly) and `String.prototype.endsWith`
    (the `.pdf` filter). */
module Strings {

  /** Total length of a list of strings. */
  function SumLen(parts: seq<string>): nat {
    if parts == [] then 0 else |parts[0]| + SumLen(parts[1..])
  }

  /** `parts.join(sep)`: the parts in order with `sep` between neighbours;
      no parts give the empty string. */
  function Join(parts: seq<string>, sep: string): string {
    if parts == [] then ""
    else if |parts| == 1 then parts[0]
    else parts[0] + sep + Join(parts[1..], sep)
  }

  /** Where part `i` starts inside `Join(parts, sep)`: where part `i - 1`
      starts, plus its length and one separator. */
  function Offset(parts: seq<string>, sep: string, i: nat): nat
    requires i <= |parts|
  {
    if i == 0 then 0 else Offset(parts, sep, i - 1) + |parts[i - 1]| + |sep|
  }

  lemma {:induction false} OffsetTail(parts: seq<string>, sep: string, i: nat)
    requires 0 < i <= |parts|
    ensures Offset(parts, sep, i) == |parts[0]| + |sep| + Offset(parts[1..], sep, i - 1)
  {
    if i > 1 {
      OffsetTail(parts, sep, i - 1);
      assert parts[1..][i - 2] == parts[i - 1];
    }
  }

  lemma {:induction false} OffsetPrefix(parts: seq<string>, sep: string, n: nat, i: nat)
    requires i <= n <= |parts|
    ensures Offset(parts[..n], sep, i) == Offset(parts, sep, i)
  {
    if i > 0 {
      OffsetPrefix(parts, sep, n, i - 1);
      assert parts[..n][i - 1] == parts[i - 1];
    }
  }

  /** Offsets count every earlier part and one separator after each. */
  lemma {:induction false} OffsetIsSum(parts: seq<string>, sep: string, i: nat)
    requires i <= |parts|
    ensures Offset(parts, sep, i) == SumLen(parts[..i]) + i * |sep|
  {
    if i > 0 {
      OffsetIsSum(parts, sep, i - 1);
      assert parts[..i] == parts[..i - 1] + [parts[i - 1]];
      SumLenAppend(parts[..i - 1], [parts[i - 1]]);
      assert SumLen([parts[i - 1]]) == |parts[i - 1]|;
    }
  }

  /** A non-empty join ends where the last part ends: no separator after it. */
  lemma {:induction false} JoinLength(parts: seq<string>, sep: string)
    requires parts != []
    ensures |Join(parts, sep)| + |sep| == Offset(parts, sep, |parts|)
  {
    OffsetTail(parts, sep, |parts|);
    if |parts| == 1 {
      assert Offset(parts[1..], sep, 0) == 0;
    } else {
      JoinLength(parts[1..], sep);
    }
  }

  lemma {:induction false} SumLenAppend(a: seq<string>, b: seq<string>)
    ensures SumLen(a + b) == SumLen(a) + SumLen(b)
  {
    if a != [] {
      assert (a + b)[0] == a[0];
      assert (a + b)[1..] == a[1..] + b;
      SumLenAppend(a[1..], b);
    } else {
      assert a + b == b;
    }
  }

  /** The first part opens the join, and a separator follows it when there
      are more parts. */
  lemma {:induction false} JoinHead(parts: seq<string>, sep: string)
    requires parts != []
    ensures |parts[0]| <= |Join(parts, sep)|
    ensures Join(parts, sep)[..|parts[0]|] == parts[0]
    ensures |parts| > 1 ==> |parts[0]| + |sep| <= |Join(parts, sep)|
    ensures |parts| > 1 ==> Join(parts, sep)[|parts[0]|..|parts[0]| + |sep|] == sep
  {
    if |parts| > 1 {
      var j := Join(parts, sep);
      assert j == parts[0] + sep + Join(parts[1..], sep);
      assert j[..|parts[0]|] == parts[0];
      assert j[|parts[0]|..|parts[0]| + |sep|] == sep;
    }
  }

  /** The layout of a join: part `i` sits at `Offset(parts, sep, i)`, and
      exactly one separator follows it unless it is the last part. */
  lemma {:induction false} JoinAt(parts: seq<string>, sep: string, i: nat)
    requires i < |parts|
    ensures Offset(parts, sep, i) + |parts[i]| <= |Join(parts, sep)|
    ensures Join(parts, sep)[Offset(parts, sep, i)..Offset(parts, sep, i) + |parts[i]|] == parts[i]
    ensures i + 1 < |parts| ==> Offset(parts, sep, i + 1) <= |Join(parts, sep)|
    ensures i + 1 < |parts| ==>
      Join(parts, sep)[Offset(parts, sep, i) + |parts[i]|..Offset(parts, sep, i + 1)] == sep
  {
    var o := Offset(parts, sep, i);
    var tail := parts[i..];
    assert tail[0] == parts[i];
    JoinHead(tail, sep);
    if i == 0 {
      assert tail == parts;
    } else {
      JoinSplit(parts, sep, i);
      JoinLength(parts[..i], sep);
      OffsetPrefix(parts, sep, i, i);
      var pre := Join(parts[..i], sep) + sep;
      assert |pre| == o;
      var j := Join(parts, sep);
      assert j == pre + Join(tail, sep);
      assert j[o..o + |parts[i]|] == Join(tail, sep)[..|parts[i]|];
      if i + 1 < |parts| {
        assert j[o + |parts[i]|..o + |parts[i]| + |sep|]
            == Join(tail, sep)[|parts[i]|..|parts[i]| + |sep|];
      }
    }
  }

  /** Joining splits at any inner boundary: the first `i` parts, one
      separator, the remaining parts. */
  lemma {:induction false} JoinSplit(parts: seq<string>, sep: string, i: nat)
    requires 0 < i < |parts|
    ensures Join(parts, sep) == Join(parts[..i], sep) + sep + Join(parts[i..], sep)
  {
    if i == 1 {
      assert parts[..1] == [parts[0]];
      assert parts[1..] == parts[i..];
    } else {
      JoinSplit(parts[1..], sep, i - 1);
      assert parts[1..][..i - 1] == parts[..i][1..];
      assert parts[1..][i - 1..] == parts[i..];
    }
  }

  /** `s.endsWith(suffix)` (case-sensitive, exact characters). */
  predicate EndsWith(s: string, suffix: string) {
    |suffix| <= |s| && s[|s| - |suffix|..] == suffix
  }

  /** `endsWith` holds exactly when `s` is some string followed by `suffix`. */
  lemma EndsWithIffConcat(s: string, suffix: string)
    ensures EndsWith(s, suffix) <==> exists p :: s == p + suffix
  {
    if EndsWith(s, suffix) {
      var p := s[..|s| - |suffix|];
      assert s == p + suffix;
    }
    if exists p :: s == p + suffix {
      var p :| s == p + suffix;
      assert s[|s| - |suffix|..] == suffix;
    }
  }
}
