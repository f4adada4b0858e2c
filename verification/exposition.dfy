/** The parts of the Prometheus text exposition both renderers share: the
    `# HELP` and `# TYPE` lines of a gauge family, the labels at the end of both
    line templates, and where a reader of a sample line finds its value. */
module Exposition {
  import opened Units

  /** `# HELP <metric> <text>`. */
  function HelpLine(metric: string, text: string): string {
    "# HELP " + metric + " " + text
  }

  /** `# TYPE <metric> gauge`. */
  function TypeLine(metric: string): string {
    "# TYPE " + metric + " gauge"
  }

  /** The sample value of a line: the text after its last space (all of it when
      it has none). */
  function ValueField(line: string): string
    decreases |line|
  {
    if |line| == 0 || line[|line| - 1] == ' ' then ""
    else ValueField(line[..|line| - 1]) + [line[|line| - 1]]
  }

  /** Text without spaces after a space is the value field. */
  lemma {:induction false} ValueFieldOf(head: string, v: string)
    requires |head| > 0 && head[|head| - 1] == ' ' && ' ' !in v
    ensures ValueField(head + v) == v
    decreases |v|
  {
    var line := head + v;
    if |v| == 0 {
      assert line == head;
    } else {
      assert line[..|line| - 1] == head + v[..|v| - 1];
      ValueFieldOf(head, v[..|v| - 1]);
      assert v == v[..|v| - 1] + [v[|v| - 1]];
    }
  }

  /** Text put in front of a line that has a space leaves its value field alone. */
  lemma {:induction false} ValueFieldAfter(head: string, t: string)
    requires ' ' in t
    ensures ValueField(head + t) == ValueField(t)
    decreases |t|
  {
    var line := head + t;
    if t[|t| - 1] != ' ' {
      assert line[..|line| - 1] == head + t[..|t| - 1];
      assert ' ' in t[..|t| - 1] by {
        var i :| 0 <= i < |t| && t[i] == ' ';
        assert t[..|t| - 1][i] == ' ';
      }
      ValueFieldAfter(head, t[..|t| - 1]);
    }
  }

  /** The end both line templates share, from the `created` label on:
      `",created="..",timestamp="..",window="..",debugval="<raw>"} <value>`. The
      value field of every line ending so is the printed `val2base(raw)` when
      that has no space, in particular when it is a number. */
  function LabelTail(created: string, timestamp: string, window: string, raw: string): (t: string)
    requires !Val2Base(raw).Fail?
    ensures ' ' in t
    ensures ' ' !in Show(Val2Base(raw)) ==> ValueField(t) == Show(Val2Base(raw))
  {
    var head := "\",created=\"" + created + "\",timestamp=\"" + timestamp + "\",window=\"" + window
      + "\",debugval=\"" + raw + "\"} ";
    var v := Show(Val2Base(raw));
    assert (head + v)[|head| - 1] == ' ';
    assert ' ' !in v ==> ValueField(head + v) == v by {
      if ' ' !in v {
        ValueFieldOf(head, v);
      }
    }
    head + v
  }

  /** A converted value contains no space. */
  lemma NumberHasNoSpace(raw: string)
    requires Val2Base(raw).Num?
    ensures ' ' !in Show(Val2Base(raw))
  {
    var t := Show(Val2Base(raw));
    assert forall i :: 0 <= i < |t| ==> Decimal.IsDigit(t[i]);
  }

  /** The literal pieces of the headers and of the shared template end. */
  lemma PiecesOnOneLine()
    ensures '\n' !in "# HELP " && '\n' !in "# TYPE " && '\n' !in " gauge" && '\n' !in " "
    ensures '\n' !in "\",created=\"" && '\n' !in "\",timestamp=\"" && '\n' !in "\",window=\""
    ensures '\n' !in "\",debugval=\"" && '\n' !in "\"} "
  {
  }

  lemma HeaderLinesOnOneLine(metric: string, text: string)
    requires '\n' !in metric && '\n' !in text
    ensures '\n' !in HelpLine(metric, text) && '\n' !in TypeLine(metric)
  {
    PiecesOnOneLine();
  }

  lemma LabelTailOnOneLine(created: string, timestamp: string, window: string, raw: string)
    requires !Val2Base(raw).Fail?
    requires '\n' !in created && '\n' !in timestamp && '\n' !in window && '\n' !in raw
    ensures '\n' !in LabelTail(created, timestamp, window, raw)
  {
    var t := Show(Val2Base(raw));
    if Val2Base(raw).Num? {
      assert forall i :: 0 <= i < |t| ==> Decimal.IsDigit(t[i]);
    }
    PiecesOnOneLine();
  }
}
