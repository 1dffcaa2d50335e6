/** JavaScript's `text.split('\n')`, and its inverse, joining lines with '\n'. */
module Lines {

  const Newline: char := '\n'

  /** `s.split('\n')`: the pieces between newlines. Splitting the empty string
      gives one empty piece, so there is always at least one line. */
  function SplitLines(s: string): (lines: seq<string>)
    ensures |lines| >= 1
    ensures forall k :: 0 <= k < |lines| ==> Newline !in lines[k]
    decreases |s|
  {
    if s == [] then [""]
    else
      var rest := SplitLines(s[1..]);
      if s[0] == Newline then [""] + rest
      else [[s[0]] + rest[0]] + rest[1..]
  }

  /** `lines.join('\n')`. */
  function JoinLines(lines: seq<string>): string
    requires |lines| >= 1
  {
    if |lines| == 1 then lines[0] else lines[0] + [Newline] + JoinLines(lines[1..])
  }

  function NewlineCount(s: string): nat
  {
    if s == [] then 0 else (if s[0] == Newline then 1 else 0) + NewlineCount(s[1..])
  }

  /** Joining the pieces of a split gives back the text. */
  lemma {:induction false} JoinSplit(s: string)
    ensures JoinLines(SplitLines(s)) == s
  {
    if s != [] {
      var rest := SplitLines(s[1..]);
      JoinSplit(s[1..]);
      if s[0] == Newline {
        assert SplitLines(s) == [""] + rest;
        assert JoinLines(SplitLines(s)) == [Newline] + JoinLines(rest);
      } else {
        var lines := SplitLines(s);
        assert lines == [[s[0]] + rest[0]] + rest[1..];
        if |rest| == 1 {
          assert JoinLines(lines) == [s[0]] + rest[0];
        } else {
          assert lines[1..] == rest[1..];
          assert JoinLines(lines) == [s[0]] + rest[0] + [Newline] + JoinLines(rest[1..]);
        }
      }
    }
  }

  /** A split yields one line more than the text has newlines. */
  lemma {:induction false} SplitLineCount(s: string)
    ensures |SplitLines(s)| == NewlineCount(s) + 1
  {
    if s != [] {
      SplitLineCount(s[1..]);
    }
  }

  /** A text without a newline is a single line. */
  lemma {:induction false} SplitSingle(a: string)
    requires Newline !in a
    ensures SplitLines(a) == [a]
  {
    if a != [] {
      SplitSingle(a[1..]);
      assert [a[0]] + a[1..] == a;
    }
  }

  /** The text up to the first newline is the first line; the rest is split on its own. */
  lemma {:induction false} SplitAtNewline(a: string, b: string)
    requires Newline !in a
    ensures SplitLines(a + [Newline] + b) == [a] + SplitLines(b)
    decreases |a|
  {
    var s := a + [Newline] + b;
    if a == [] {
      assert s[1..] == b;
    } else {
      assert s[1..] == a[1..] + [Newline] + b;
      SplitAtNewline(a[1..], b);
      assert [a[0]] + a[1..] == a;
    }
  }

  /** Splitting joined lines that hold no newline gives back the lines. */
  lemma {:induction false} SplitJoin(lines: seq<string>)
    requires |lines| >= 1
    requires forall k :: 0 <= k < |lines| ==> Newline !in lines[k]
    ensures SplitLines(JoinLines(lines)) == lines
  {
    if |lines| == 1 {
      SplitSingle(lines[0]);
    } else {
      SplitJoin(lines[1..]);
      SplitAtNewline(lines[0], JoinLines(lines[1..]));
    }
  }

  /** The first line is the text before the first newline, or the whole text when it has none. */
  lemma FirstLine(s: string)
    ensures Newline !in SplitLines(s)[0]
    ensures (SplitLines(s)[0] == s) <==> Newline !in s
    ensures Newline in s ==>
      |SplitLines(s)[0]| < |s| && s[..|SplitLines(s)[0]| + 1] == SplitLines(s)[0] + [Newline]
  {

  }
}
