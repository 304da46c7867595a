/**
 Axis titles are drawn as a list of lines: the renderer splits each title on
 the line-feed character, the way Python's `str.split("\n")` does (an empty
 string gives one empty line, a trailing line feed gives a trailing empty
 line).
 */
module Text {

  const LineFeed: char := '\n'

  /** Glues lines back together with a line feed between neighbours. */
  function JoinLines(lines: seq<string>): string
    requires |lines| > 0
  {
    if |lines| == 1 then lines[0]
    else lines[0] + [LineFeed] + JoinLines(lines[1..])
  }

  /** No line contains a line feed. */
  predicate NoLineFeeds(lines: seq<string>) {
    forall i :: 0 <= i < |lines| ==> LineFeed !in lines[i]
  }

  /** Number of line feeds in `s`. */
  function CountLineFeeds(s: string): nat {
    if |s| == 0 then 0
    else (if s[0] == LineFeed then 1 else 0) + CountLineFeeds(s[1..])
  }

  /**
   `str.split("\n")`: the pieces between line feeds, one more piece than
   there are line feeds, none containing a line feed, and joining them back
   gives the title unchanged.
   */
  function SplitLines(s: string): (lines: seq<string>)
    ensures |lines| == CountLineFeeds(s) + 1
    ensures NoLineFeeds(lines)
    ensures JoinLines(lines) == s
  {
    if |s| == 0 then [""]
    else
      var rest := SplitLines(s[1..]);
      if s[0] == LineFeed then
        assert s == [LineFeed] + s[1..];
        [""] + rest
      else
        var lines := [[s[0]] + rest[0]] + rest[1..];
        assert lines[1..] == rest[1..];
        assert JoinLines(lines) == s by {
          if |rest| > 1 {
            assert rest == [rest[0]] + rest[1..];
          }
        }
        lines
  }

  /** Splitting a join of line-feed-free lines recovers exactly those lines. */
  lemma {:induction false} SplitJoin(lines: seq<string>)
    requires |lines| > 0
    requires NoLineFeeds(lines)
    ensures SplitLines(JoinLines(lines)) == lines
    decreases |JoinLines(lines)|
  {
    var first := lines[0];
    if |first| == 0 {
      if |lines| > 1 {
        var s := JoinLines(lines);
        assert s == [LineFeed] + JoinLines(lines[1..]);
        assert s[1..] == JoinLines(lines[1..]);
        SplitJoin(lines[1..]);
      }
    } else {
      var shorter := [first[1..]] + lines[1..];
      assert shorter[1..] == lines[1..];
      assert NoLineFeeds(shorter) by {
        forall i | 0 <= i < |shorter|
          ensures LineFeed !in shorter[i]
        {
          if i == 0 {
            assert LineFeed !in first;
          } else {
            assert shorter[i] == lines[i];
          }
        }
      }
      var s := JoinLines(lines);
      assert s == [first[0]] + JoinLines(shorter);
      assert s[1..] == JoinLines(shorter);
      SplitJoin(shorter);
      assert first[0] != LineFeed;
      assert first == [first[0]] + first[1..];
      assert lines == [first] + lines[1..];
    }
  }
}
