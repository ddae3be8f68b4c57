/** Helpers that shape text before it is sent to the user (app/utils/text.py). */
module TextUtils {
  import opened PyStr

  /**
   * `clamp(text, max_len)`: text longer than `max_len` is cut and ends in
   * "...". The cut uses Python's slice `text[:max_len - 3]`, so for
   * `max_len < 3` the stop index counts from the end of the text.
   */
  function Clamp(text: string, maxLen: int): (r: string)
    ensures |text| <= maxLen ==> r == text
    ensures maxLen >= 3 ==> |r| <= maxLen
    ensures |text| > maxLen >= 3 ==>
              |r| == maxLen && r[..maxLen - 3] == text[..maxLen - 3] && r[maxLen - 3..] == "..."
  {
    if |text| <= maxLen then text else Take(text, maxLen - 3) + "..."
  }

  /** Clamping twice is clamping once. */
  lemma ClampIdempotent(text: string, maxLen: int)
    requires maxLen >= 3
    ensures Clamp(Clamp(text, maxLen), maxLen) == Clamp(text, maxLen)
  {
  }

  /** `join_lines(lines)`: the lines joined with newlines, then stripped. */
  function JoinLines(lines: seq<string>): (r: string)
    ensures Trimmed(r)
    ensures lines == [] ==> r == ""
    ensures |lines| == 1 ==> r == Strip(lines[0])
  {
    StripTrimmed(Join("\n", lines));
    Strip(Join("\n", lines))
  }

  /** A join ends with the last character of its last part. */
  lemma {:induction false} JoinLast(sep: string, parts: seq<string>)
    requires |parts| > 0 && parts[|parts| - 1] != []
    ensures Join(sep, parts) != []
    ensures Join(sep, parts)[|Join(sep, parts)| - 1] == parts[|parts| - 1][|parts[|parts| - 1]| - 1]
  {
    if |parts| > 1 {
      JoinLast(sep, parts[1..]);
    }
  }

  /**
   * When the first line does not start and the last line does not end with
   * whitespace, `join_lines` keeps every line exactly as given.
   */
  lemma JoinLinesKeepsLines(lines: seq<string>)
    requires |lines| > 0 && lines[0] != [] && lines[|lines| - 1] != []
    requires !IsSpace(lines[0][0]) && !IsSpace(lines[|lines| - 1][|lines[|lines| - 1]| - 1])
    ensures JoinLines(lines) == Join("\n", lines)
  {
    var j := Join("\n", lines);
    JoinLast("\n", lines);
    assert j[0] == lines[0][0];
    TrimmedStrip(j);
  }
}
