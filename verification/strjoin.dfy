/** Python's `sep.join(parts)` on a list of strs: the parts in order with one
    separator between each adjacent pair and none added before the first part
    or after the last. */
module StrJoin {

  function Join(sep: string, parts: seq<string>): (r: string)
    ensures |parts| == 0 ==> r == ""
    ensures |parts| > 0 ==> parts[0] <= r
    ensures |parts| > 0 ==> EndsWith(r, parts[|parts| - 1])
  {
    if |parts| == 0 then ""
    else if |parts| == 1 then parts[0]
    else
      var rest := Join(sep, parts[1..]);
      assert parts[1..][|parts[1..]| - 1] == parts[|parts| - 1];
      EndsWithExtend(parts[0] + sep, rest, parts[|parts| - 1]);
      parts[0] + sep + rest
  }

  /** `suffix` is a suffix of `s`. */
  predicate EndsWith(s: string, suffix: string) {
    |suffix| <= |s| && s[|s| - |suffix|..] == suffix
  }

  lemma EndsWithExtend(front: string, s: string, suffix: string)
    requires EndsWith(s, suffix)
    ensures EndsWith(front + s, suffix)
  {
    assert (front + s)[|front + s| - |suffix|..] == s[|s| - |suffix|..];
  }

  /** Total number of characters in the parts. */
  function TotalLength(parts: seq<string>): nat {
    if |parts| == 0 then 0 else |parts[0]| + TotalLength(parts[1..])
  }

  /** The joined string holds every character of every part plus exactly
      |parts| - 1 separators. */
  lemma {:induction false} JoinLength(sep: string, parts: seq<string>)
    requires |parts| > 0
    ensures |Join(sep, parts)| == TotalLength(parts) + (|parts| - 1) * |sep|
  {
    if |parts| > 1 {
      var rest := Join(sep, parts[1..]);
      assert Join(sep, parts) == parts[0] + sep + rest;
      JoinLength(sep, parts[1..]);
      assert |rest| == TotalLength(parts[1..]) + (|parts| - 2) * |sep|;
    }
  }

  /** Appending one part to a non-empty list appends one separator and the
      part: the left-to-right reading of `str.join`. */
  lemma {:induction false} JoinSnoc(sep: string, parts: seq<string>, last: string)
    requires |parts| > 0
    ensures Join(sep, parts + [last]) == Join(sep, parts) + sep + last
  {
    var ext := parts + [last];
    if |parts| == 1 {
      assert ext[1..] == [last];
    } else {
      assert ext[1..] == parts[1..] + [last];
      JoinSnoc(sep, parts[1..], last);
    }
  }

  /** Joining two non-empty lists is joining each and putting one separator
      between the results. */
  lemma {:induction false} JoinAppend(sep: string, a: seq<string>, b: seq<string>)
    requires |a| > 0 && |b| > 0
    ensures Join(sep, a + b) == Join(sep, a) + sep + Join(sep, b)
  {
    assert (a + b)[0] == a[0];
    if |a| == 1 {
      assert (a + b)[1..] == b;
    } else {
      assert (a + b)[1..] == a[1..] + b;
      JoinAppend(sep, a[1..], b);
    }
  }

  /** `sep.join(parts)` built left to right, one part at a time. */
  method JoinLeft(sep: string, parts: seq<string>) returns (s: string)
    ensures s == Join(sep, parts)
  {
    if |parts| == 0 {
      return "";
    }
    s := parts[0];
    var i := 1;
    while i < |parts|
      invariant 1 <= i <= |parts|
      invariant s == Join(sep, parts[..i])
    {
      assert parts[..i + 1] == parts[..i] + [parts[i]];
      JoinSnoc(sep, parts[..i], parts[i]);
      s := s + sep + parts[i];
      i := i + 1;
    }
    assert parts[..|parts|] == parts;
  }
}
