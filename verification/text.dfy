/** The one piece of string handling the middleware does itself: Go's
    `strings.SplitN(s, sep, 2)` for a one-character separator. */
module Text {
  import opened Wrappers

  /** Position of the first occurrence of `c` in `s`, if there is one. */
  function IndexOf(s: string, c: char): (r: Option<nat>)
    ensures r.None? <==> c !in s
    ensures r.Some? ==> r.value < |s| && s[r.value] == c
    ensures r.Some? ==> forall j :: 0 <= j < r.value ==> s[j] != c
  {
    if |s| == 0 then None
    else if s[0] == c then Some(0)
    else
      match IndexOf(s[1..], c)
      case None => None
      case Some(i) => Some(i + 1)
  }

  /** `strings.SplitN(s, [sep], 2)`: the whole string when the separator does not
      occur, otherwise the text before its first occurrence and everything after it. */
  function SplitOnce(s: string, sep: char): (parts: seq<string>)
    ensures 1 <= |parts| <= 2
    ensures |parts| == 1 <==> sep !in s
    ensures |parts| == 1 ==> parts[0] == s
    ensures |parts| == 2 ==> parts[0] + [sep] + parts[1] == s && sep !in parts[0]
  {
    match IndexOf(s, sep)
    case None => [s]
    case Some(i) =>
      assert s == s[..i] + [sep] + s[i + 1..];
      [s[..i], s[i + 1..]]
  }

  /** Splitting undoes joining at a separator that does not occur in the first part,
      whatever the second part contains: the split is at the FIRST separator. */
  lemma SplitOnceOfJoin(head: string, sep: char, tail: string)
    requires sep !in head
    ensures SplitOnce(head + [sep] + tail, sep) == [head, tail]
  {
    var s := head + [sep] + tail;
    assert s[|head|] == sep;
    var parts := SplitOnce(s, sep);
    assert s[..|head|] == head && s[|head| + 1..] == tail;
  }
}
