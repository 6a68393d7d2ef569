/**
 String helpers on `seq<char>`: splitting at the first occurrence of a
 character, and joining a list of strings with a one-character separator
 (Rust's `[String]::join`) together with its inverse, `Split`.
 */
module Text {

  import opened Options

  /** The part of `s` before the first `c` and the part after it; `None`
      when `c` does not occur in `s`. */
  function SplitAtFirst(s: string, c: char): (r: Option<(string, string)>)
    ensures r.None? <==> c !in s
    ensures r.Some? ==> s == r.value.0 + [c] + r.value.1 && c !in r.value.0
  {
    if |s| == 0 then None
    else if s[0] == c then
      assert s == [] + [c] + s[1..];
      Some(([], s[1..]))
    else
      match SplitAtFirst(s[1..], c)
      case None => None
      case Some((before, after)) =>
        assert s == [s[0]] + before + [c] + after;
        Some(([s[0]] + before, after))
  }

  /** A string of the form `before + [c] + after`, where `before` has no `c`,
      splits back into exactly those two parts. */
  lemma {:induction false} SplitAtFirstOf(before: string, c: char, after: string)
    requires c !in before
    ensures SplitAtFirst(before + [c] + after, c) == Some((before, after))
  {
    var s := before + [c] + after;
    if |before| == 0 {
      assert s[1..] == after;
    } else {
      assert s[1..] == before[1..] + [c] + after;
      SplitAtFirstOf(before[1..], c, after);
      assert before == [before[0]] + before[1..];
    }
  }

  /** The parts joined in order, with one `sep` between neighbours. */
  function Join(parts: seq<string>, sep: char): (r: string)
    ensures |parts| == 0 ==> r == ""
    ensures |parts| == 1 ==> r == parts[0]
    ensures |parts| > 0 ==> |r| == TotalLength(parts) + |parts| - 1
  {
    if |parts| == 0 then ""
    else if |parts| == 1 then parts[0]
    else parts[0] + [sep] + Join(parts[1..], sep)
  }

  /** The pieces of `s` between occurrences of `sep`, in order; never empty. */
  function Split(s: string, sep: char): (r: seq<string>)
    ensures |r| > 0
    decreases |s|
  {
    match SplitAtFirst(s, sep)
    case None => [s]
    case Some((before, after)) => [before] + Split(after, sep)
  }

  /** Total number of characters in the parts. */
  function TotalLength(parts: seq<string>): nat {
    if |parts| == 0 then 0 else |parts[0]| + TotalLength(parts[1..])
  }

  /** Joining two non-empty lists is joining each and putting one separator
      between the results. */
  lemma {:induction false} JoinAppend(a: seq<string>, b: seq<string>, sep: char)
    requires |a| > 0 && |b| > 0
    ensures Join(a + b, sep) == Join(a, sep) + [sep] + Join(b, sep)
  {
    if |a| == 1 {
      assert (a + b)[1..] == b;
    } else {
      assert (a + b)[1..] == a[1..] + b;
      JoinAppend(a[1..], b, sep);
    }
  }

  /** `Split` undoes `Join` when no part contains the separator: the parts
      come back in the same order with the same contents. */
  lemma {:induction false} SplitJoin(parts: seq<string>, sep: char)
    requires |parts| > 0
    requires forall i :: 0 <= i < |parts| ==> sep !in parts[i]
    ensures Split(Join(parts, sep), sep) == parts
  {
    if |parts| == 1 {
      assert SplitAtFirst(parts[0], sep).None?;
    } else {
      SplitAtFirstOf(parts[0], sep, Join(parts[1..], sep));
      SplitJoin(parts[1..], sep);
      assert parts == [parts[0]] + parts[1..];
    }
  }

  /** `Join` undoes `Split` on every string. */
  lemma {:induction false} JoinSplit(s: string, sep: char)
    ensures Join(Split(s, sep), sep) == s
    decreases |s|
  {
    match SplitAtFirst(s, sep)
    case None =>
    case Some((before, after)) =>
      JoinSplit(after, sep);
      var rest := Split(after, sep);
      assert ([before] + rest)[1..] == rest;
  }
}
