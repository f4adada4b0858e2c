/** Newline-separated text: Python's `'\n'.join(lines)` and its inverse
    `text.split('\n')`. */
module TextLines {

  predicate NoNewlines(lines: seq<string>) {
    forall i :: 0 <= i < |lines| ==> '\n' !in lines[i]
  }

  lemma NoNewlinesAppend(a: seq<string>, b: seq<string>)
    requires NoNewlines(a) && NoNewlines(b)
    ensures NoNewlines(a + b)
  {
    assert forall i :: |a| <= i < |a + b| ==> (a + b)[i] == b[i - |a|];
  }

  /** `'\n'.join(lines)`: no newline before the first line or after the last. */
  function Join(lines: seq<string>): (text: string)
    ensures |lines| > 0 ==> lines[0] <= text
    ensures |lines| > 1 ==> lines[0] + "\n" <= text
    decreases |lines|
  {
    if |lines| == 0 then ""
    else if |lines| == 1 then lines[0]
    else lines[0] + "\n" + Join(lines[1..])
  }

  /** `text.split('\n')`: the maximal newline-free pieces between newlines. */
  function Split(text: string): (parts: seq<string>)
    ensures |parts| > 0
    ensures NoNewlines(parts)
    decreases |text|
  {
    if |text| == 0 then [""]
    else
      var rest := Split(text[1..]);
      if text[0] == '\n' then [""] + rest
      else [[text[0]] + rest[0]] + rest[1..]
  }

  lemma {:induction false} SplitSingle(line: string)
    requires '\n' !in line
    ensures Split(line) == [line]
    decreases |line|
  {
    if |line| > 0 {
      SplitSingle(line[1..]);
      assert [line[0]] + line[1..] == line;
    }
  }

  lemma {:induction false} SplitAfterLine(line: string, text: string)
    requires '\n' !in line
    ensures Split(line + "\n" + text) == [line] + Split(text)
    decreases |line|
  {
    if |line| == 0 {
      assert line + "\n" + text == "\n" + text;
      assert ("\n" + text)[1..] == text;
    } else {
      var t := line + "\n" + text;
      assert t[1..] == line[1..] + "\n" + text;
      SplitAfterLine(line[1..], text);
      assert [line[0]] + line[1..] == line;
    }
  }

  /** Splitting the joined text of newline-free lines gives the lines back, so the
      joined text has exactly `|lines|` lines. */
  lemma {:induction false} SplitJoin(lines: seq<string>)
    requires |lines| > 0 && NoNewlines(lines)
    ensures Split(Join(lines)) == lines
    decreases |lines|
  {
    if |lines| == 1 {
      SplitSingle(lines[0]);
    } else {
      SplitJoin(lines[1..]);
      SplitAfterLine(lines[0], Join(lines[1..]));
      assert [lines[0]] + lines[1..] == lines;
    }
  }

  /** Joining the pieces of any text with newlines restores the text. */
  lemma {:induction false} JoinSplit(text: string)
    ensures Join(Split(text)) == text
    decreases |text|
  {
    if |text| > 0 {
      var rest := Split(text[1..]);
      JoinSplit(text[1..]);
      if text[0] == '\n' {
        assert Join([""] + rest) == "" + "\n" + Join(rest);
      } else {
        var parts := [[text[0]] + rest[0]] + rest[1..];
        if |rest| == 1 {
          assert Join(parts) == [text[0]] + rest[0];
        } else {
          assert parts[1..] == rest[1..];
          assert Join(parts) == [text[0]] + rest[0] + "\n" + Join(rest[1..]);
          assert Join(rest) == rest[0] + "\n" + Join(rest[1..]);
        }
        assert text == [text[0]] + text[1..];
      }
    }
  }
}
