/**
 * Newline-joined text: `JoinLines` is what `"\n".join(lines)` produces, and
 * `Split` cuts a text at every newline, as `text.split("\n")` does. `Split`
 * is the inverse used to read the copied text back line by line.
 */
module Lines {

  const Newline: char := '\n'

  /** The lines joined with one newline between consecutive lines. */
  function JoinLines(lines: seq<string>): string
  {
    if |lines| == 0 then ""
    else if |lines| == 1 then lines[0]
    else lines[0] + [Newline] + JoinLines(lines[1..])
  }

  /** The pieces of `s` between newlines: at least one, and none holds a newline. */
  function Split(s: string): (pieces: seq<string>)
    ensures |pieces| >= 1
    ensures forall i :: 0 <= i < |pieces| ==> Newline !in pieces[i]
    decreases |s|
  {
    if |s| == 0 then [""]
    else
      var rest := Split(s[1..]);
      if s[0] == Newline then [""] + rest
      else [[s[0]] + rest[0]] + rest[1..]
  }

  /** Joining the pieces again restores the text. */
  lemma {:induction false} JoinSplit(s: string)
    ensures JoinLines(Split(s)) == s
    decreases |s|
  {
    if |s| > 0 {
      var rest := Split(s[1..]);
      JoinSplit(s[1..]);
      if s[0] == Newline {
        assert ([""] + rest)[1..] == rest;
      } else {
        var pieces := [[s[0]] + rest[0]] + rest[1..];
        assert pieces[1..] == rest[1..];
        if |rest| > 1 {
          assert JoinLines(rest) == rest[0] + [Newline] + JoinLines(rest[1..]);
        }
        assert [s[0]] + s[1..] == s;
      }
    }
  }

  /** A text without newlines is one line. */
  lemma {:induction false} SplitSingleLine(s: string)
    requires Newline !in s
    ensures Split(s) == [s]
    decreases |s|
  {
    if |s| > 0 {
      assert Newline !in s[1..];
      SplitSingleLine(s[1..]);
      assert [s[0]] + s[1..] == s;
    }
  }

  /** Cutting at a newline: the pieces of `a + "\n" + b` are those of `a` followed by those of `b`. */
  lemma {:induction false} SplitAtNewline(a: string, b: string)
    ensures Split(a + [Newline] + b) == Split(a) + Split(b)
    decreases |a|
  {
    var s := a + [Newline] + b;
    if |a| == 0 {
      assert s[1..] == b;
    } else {
      assert s[1..] == a[1..] + [Newline] + b;
      SplitAtNewline(a[1..], b);
      if a[0] != Newline {
        var ra := Split(a[1..]);
        assert Split(a) == [[a[0]] + ra[0]] + ra[1..];
      }
    }
  }

  /**
   * Round trip: joining lines that hold no newline, followed by a last part
   * that may hold some, and splitting again gives back those lines followed
   * by the pieces of the last part.
   */
  lemma {:induction false} SplitJoinLines(lines: seq<string>, last: string)
    requires forall i :: 0 <= i < |lines| ==> Newline !in lines[i]
    ensures Split(JoinLines(lines + [last])) == lines + Split(last)
    decreases |lines|
  {
    if |lines| > 0 {
      var all := lines + [last];
      assert all[1..] == lines[1..] + [last];
      assert JoinLines(all) == lines[0] + [Newline] + JoinLines(lines[1..] + [last]);
      SplitAtNewline(lines[0], JoinLines(lines[1..] + [last]));
      SplitSingleLine(lines[0]);
      SplitJoinLines(lines[1..], last);
      assert [lines[0]] + lines[1..] == lines;
    } else {
      assert lines + [last] == [last];
    }
  }

}
