/** `trans_node_metrics`: renders the node list of the metrics API as two gauge
    families, `kube_metrics_server_node_cpu` and `kube_metrics_server_node_mem`.

    `RenderNode` ... `TransNodeMetrics` follow the source statement by statement,
    including which exception a malformed document raises. `ReadNode` and
    `ExpectedLines` are a reference description over typed node samples, and the
    lemmas at the end prove that the two agree. */
module NodeMetrics {
  import opened Outcomes
  import opened PyJson
  import opened Units
  import opened TextLines
  import opened Sequences
  import opened Decimal
  import opened Exposition

  const Prefix: string := "kube_metrics_server_node_"
  const CpuHelp: string := HelpLine(Prefix + "cpu", "The CPU time of a node in seconds.")
  const CpuType: string := TypeLine(Prefix + "cpu")
  const MemHelp: string := HelpLine(Prefix + "mem", "The memory of a node in Bytes.")
  const MemType: string := TypeLine(Prefix + "mem")

  /** The label and usage strings of one node. */
  datatype NodeSample = NodeSample(
    name: string, created: string, timestamp: string, window: string,
    cpu: string, memory: string)

  /** Both usage values survive `val2base` (neither is of the `1m0s` form). */
  predicate Printable(n: NodeSample) {
    !Val2Base(n.cpu).Fail? && !Val2Base(n.memory).Fail?
  }

  /** The line template of `trans_node_metrics`, filled in for one family. Label
      values are inserted verbatim, without escaping, so only a value without
      spaces is sure to be read back; a converted quantity always is, and reads
      back as its number of base units. */
  function SeriesLine(family: string, n: NodeSample, raw: string): (line: string)
    requires !Val2Base(raw).Fail?
    ensures ' ' !in Show(Val2Base(raw)) ==> ValueField(line) == Show(Val2Base(raw))
    ensures Val2Base(raw).Num? ==> ValueField(line) == Show(Val2Base(raw))
    ensures Val2Base(raw).Num? ==> DigitsValue(ValueField(line)) == Val2Base(raw).n
  {
    var head := Prefix + family + "{node=\"" + n.name;
    var tail := LabelTail(n.created, n.timestamp, n.window, raw);
    ValueFieldAfter(head, tail);
    assert Val2Base(raw).Num? ==> ' ' !in Show(Val2Base(raw)) by {
      if Val2Base(raw).Num? {
        NumberHasNoSpace(raw);
      }
    }
    head + tail
  }

  function CpuLine(n: NodeSample): string
    requires Printable(n)
  {
    SeriesLine("cpu", n, n.cpu)
  }

  function MemLine(n: NodeSample): string
    requires Printable(n)
  {
    SeriesLine("mem", n, n.memory)
  }

  // ---------------------------------------------------------------------------
  // The source's evaluation.

  /** One iteration of the loop over nodes: the label dict, the value dict, then
      the cpu line and the mem line. Yields both lines. */
  function RenderNode(node: Json): (r: Outcome<(string, string)>)
    ensures r == Raises(AttributeError) <==> !(HasObject(node, "metadata") && HasObject(node, "usage"))
    ensures r == Raises(TypeError) <==>
      HasObject(node, "metadata") && HasObject(node, "usage")
      && (UsageValue(Leaf(node.fields["usage"].fields, "cpu")).Fail?
          || UsageValue(Leaf(node.fields["usage"].fields, "memory")).Fail?)
  {
    var name := GetIn(node, "metadata", "name");
    var created := GetIn(node, "metadata", "creationTimestamp");
    var timestamp := Get(node, "timestamp", JStr(""));
    var window := Get(node, "window", JStr(""));
    var cpu := GetIn(node, "usage", "cpu");
    var mem := GetIn(node, "usage", "memory");
    if name.None? || created.None? || timestamp.None? || window.None? || cpu.None? || mem.None? then
      Raises(AttributeError)
    else if UsageValue(cpu.value).Fail? || UsageValue(mem.value).Fail? then
      Raises(TypeError)
    else if !(name.value.JStr? && created.value.JStr? && timestamp.value.JStr? && window.value.JStr?) then
      Unmodelled
    else
      var n := NodeSample(name.value.s, created.value.s, timestamp.value.s, window.value.s, cpu.value.s, mem.value.s);
      Ok((CpuLine(n), MemLine(n)))
  }

  /** The loop over nodes, collecting one (cpu line, mem line) pair per node. */
  function RenderNodes(nodes: seq<Json>): Outcome<seq<(string, string)>> {
    MapEach(nodes, RenderNode)
  }

  /** The list `cpu + mem` just before it is joined: the cpu family's two
      header lines and one line per node, then the same for the mem family. */
  function NodeLines(data: Json): (r: Outcome<seq<string>>)
    ensures !data.JObj? ==> r == Raises(AttributeError)
    ensures r.Ok? ==> Items(data).Ok? && |r.value| == 4 + 2 * |Items(data).value|
    ensures r.Ok? ==> r.value[0] == CpuHelp && r.value[1] == CpuType
    ensures r.Ok? ==> r.value[|r.value| / 2] == MemHelp && r.value[|r.value| / 2 + 1] == MemType
  {
    match Items(data)
    case Raises(e) => Raises(e)
    case Unmodelled => Unmodelled
    case Ok(nodes) =>
      match RenderNodes(nodes)
      case Raises(e) => Raises(e)
      case Unmodelled => Unmodelled
      case Ok(pairs) =>
        var lines := ([CpuHelp, CpuType] + Firsts(pairs)) + ([MemHelp, MemType] + Seconds(pairs));
        TwoBlocks(CpuHelp, CpuType, Firsts(pairs), MemHelp, MemType, Seconds(pairs));
        assert |lines| / 2 == 2 + |pairs|;
        Ok(lines)
  }

  /** `trans_node_metrics(string)`, given the outcome of `json.loads(string)`. */
  function TransNodeMetrics(parsed: Option<Json>): (r: Outcome<string>)
    ensures !Json2Dict(parsed).JObj? ==> r == Raises(AttributeError)
    ensures r.Ok? ==> CpuHelp + "\n" <= r.value
  {
    match NodeLines(Json2Dict(parsed))
    case Ok(lines) => Ok(Join(lines))
    case Raises(e) => Raises(e)
    case Unmodelled => Unmodelled
  }

  // ---------------------------------------------------------------------------
  // Reference description.

  /** A node the template can be filled from: an object whose `metadata` and
      `usage` members are objects, and whose six fields are strings or absent
      (an absent field reads as ""). */
  function ReadNode(node: Json): Option<NodeSample> {
    if HasObject(node, "metadata") && HasObject(node, "usage") then
      var meta := node.fields["metadata"].fields;
      var usage := node.fields["usage"].fields;
      var name := Text(meta, "name");
      var created := Text(meta, "creationTimestamp");
      var timestamp := Text(node.fields, "timestamp");
      var window := Text(node.fields, "window");
      var cpu := Text(usage, "cpu");
      var memory := Text(usage, "memory");
      if name.Some? && created.Some? && timestamp.Some? && window.Some? && cpu.Some? && memory.Some? then
        Some(NodeSample(name.value, created.value, timestamp.value, window.value, cpu.value, memory.value))
      else None
    else None
  }

  /** Every node reads as a sample. */
  function ReadNodes(nodes: seq<Json>): (r: Option<seq<NodeSample>>)
    ensures r.Some? <==> forall i :: 0 <= i < |nodes| ==> ReadNode(nodes[i]).Some?
    ensures r.Some? ==> |r.value| == |nodes| && forall i :: 0 <= i < |nodes| ==> ReadNode(nodes[i]) == Some(r.value[i])
  {
    if forall i :: 0 <= i < |nodes| ==> ReadNode(nodes[i]).Some? then
      Some(seq(|nodes|, i requires 0 <= i < |nodes| => ReadNode(nodes[i]).value))
    else None
  }

  predicate AllPrintable(samples: seq<NodeSample>) {
    forall i :: 0 <= i < |samples| ==> Printable(samples[i])
  }

  /** The document's nodes all read as samples whose usage values are printable. */
  predicate Renderable(parsed: Option<Json>) {
    var items := Items(Json2Dict(parsed));
    items.Ok? && ReadNodes(items.value).Some? && AllPrintable(ReadNodes(items.value).value)
  }

  function Samples(parsed: Option<Json>): seq<NodeSample>
    requires Renderable(parsed)
  {
    ReadNodes(Items(Json2Dict(parsed)).value).value
  }

  function CpuLines(samples: seq<NodeSample>): (lines: seq<string>)
    requires AllPrintable(samples)
    ensures |lines| == |samples| && forall i :: 0 <= i < |samples| ==> lines[i] == CpuLine(samples[i])
  {
    seq(|samples|, i requires 0 <= i < |samples| && AllPrintable(samples) => CpuLine(samples[i]))
  }

  function MemLines(samples: seq<NodeSample>): (lines: seq<string>)
    requires AllPrintable(samples)
    ensures |lines| == |samples| && forall i :: 0 <= i < |samples| ==> lines[i] == MemLine(samples[i])
  {
    seq(|samples|, i requires 0 <= i < |samples| && AllPrintable(samples) => MemLine(samples[i]))
  }

  /** The exposition lines for a list of node samples: the cpu family's HELP and
      TYPE lines, one cpu line per node in order, then the mem family's HELP and
      TYPE lines and one mem line per node in order. */
  function ExpectedLines(samples: seq<NodeSample>): (lines: seq<string>)
    requires AllPrintable(samples)
    ensures |lines| == 4 + 2 * |samples|
    ensures lines[0] == CpuHelp && lines[1] == CpuType
    ensures lines[2 + |samples|] == MemHelp && lines[3 + |samples|] == MemType
    ensures forall i :: 0 <= i < |samples| ==> lines[2 + i] == CpuLine(samples[i])
    ensures forall i :: 0 <= i < |samples| ==> lines[4 + |samples| + i] == MemLine(samples[i])
  {
    TwoBlocks(CpuHelp, CpuType, CpuLines(samples), MemHelp, MemType, MemLines(samples));
    ([CpuHelp, CpuType] + CpuLines(samples)) + ([MemHelp, MemType] + MemLines(samples))
  }

  // ---------------------------------------------------------------------------
  // Agreement of the two.

  /** One node renders exactly when it reads as a printable sample, and then
      renders as that sample's cpu and mem lines. */
  lemma RenderNodeReadsSample(node: Json)
    ensures RenderNode(node).Ok? <==> ReadNode(node).Some? && Printable(ReadNode(node).value)
    ensures RenderNode(node).Ok? ==>
      RenderNode(node).value == (CpuLine(ReadNode(node).value), MemLine(ReadNode(node).value))
  {
    if ReadNode(node).Some? {
      var n := ReadNode(node).value;
      var meta := node.fields["metadata"].fields;
      var usage := node.fields["usage"].fields;
      assert Leaf(meta, "name") == JStr(n.name) && Leaf(meta, "creationTimestamp") == JStr(n.created);
      assert Leaf(node.fields, "timestamp") == JStr(n.timestamp) && Leaf(node.fields, "window") == JStr(n.window);
      assert Leaf(usage, "cpu") == JStr(n.cpu) && Leaf(usage, "memory") == JStr(n.memory);
    }
  }

  /** The loop over nodes completes exactly when every node reads as a printable
      sample, and then collects the samples' lines in node order. */
  lemma RenderNodesReadsSamples(nodes: seq<Json>)
    ensures RenderNodes(nodes).Ok? <==> ReadNodes(nodes).Some? && AllPrintable(ReadNodes(nodes).value)
    ensures RenderNodes(nodes).Ok? ==>
      Firsts(RenderNodes(nodes).value) == CpuLines(ReadNodes(nodes).value)
      && Seconds(RenderNodes(nodes).value) == MemLines(ReadNodes(nodes).value)
  {
    forall i | 0 <= i < |nodes|
      ensures RenderNode(nodes[i]).Ok? <==> ReadNode(nodes[i]).Some? && Printable(ReadNode(nodes[i]).value)
      ensures RenderNode(nodes[i]).Ok? ==>
        RenderNode(nodes[i]).value == (CpuLine(ReadNode(nodes[i]).value), MemLine(ReadNode(nodes[i]).value))
    {
      RenderNodeReadsSample(nodes[i]);
    }
    if RenderNodes(nodes).Ok? {
      var samples := ReadNodes(nodes).value;
      assert AllPrintable(samples) by {
        forall i | 0 <= i < |samples| ensures Printable(samples[i]) {
          assert ReadNode(nodes[i]) == Some(samples[i]);
        }
      }
      var pairs := RenderNodes(nodes).value;
      assert Firsts(pairs) == CpuLines(samples);
      assert Seconds(pairs) == MemLines(samples);
    }
  }

  /** The whole rendering: it returns exactly when every node reads as a
      printable sample, and then its text is the expected lines joined with
      newlines. */
  lemma NodeMetricsText(parsed: Option<Json>)
    ensures TransNodeMetrics(parsed).Ok? <==> Renderable(parsed)
    ensures TransNodeMetrics(parsed).Ok? ==> TransNodeMetrics(parsed).value == Join(ExpectedLines(Samples(parsed)))
  {
    var items := Items(Json2Dict(parsed));
    if items.Ok? {
      RenderNodesReadsSamples(items.value);
      if RenderNodes(items.value).Ok? {
        var pairs := RenderNodes(items.value).value;
        var samples := ReadNodes(items.value).value;
        assert ([CpuHelp, CpuType] + Firsts(pairs)) + ([MemHelp, MemType] + Seconds(pairs)) == ExpectedLines(samples);
      }
    }
  }

  /** Invalid JSON, a document without `items`, or an empty `items` list gives
      exactly the four HELP/TYPE lines. */
  lemma NodeHeaderOnly(parsed: Option<Json>)
    requires parsed.Some? ==> parsed.value.JObj? && ("items" in parsed.value.fields ==> parsed.value.fields["items"] == JArr([]))
    ensures TransNodeMetrics(parsed) == Ok(Join([CpuHelp, CpuType, MemHelp, MemType]))
    ensures |Split(TransNodeMetrics(parsed).value)| == 4
  {
    NoItems(parsed);
    HeadersOnOneLine();
    assert ([CpuHelp, CpuType] + Firsts<string, string>([])) + ([MemHelp, MemType] + Seconds<string, string>([])) == [CpuHelp, CpuType, MemHelp, MemType];
    SplitJoin([CpuHelp, CpuType, MemHelp, MemType]);
  }

  predicate NodeOnOneLine(n: NodeSample) {
    && '\n' !in n.name && '\n' !in n.created && '\n' !in n.timestamp
    && '\n' !in n.window && '\n' !in n.cpu && '\n' !in n.memory
  }

  lemma PrefixOnOneLine()
    ensures '\n' !in Prefix && '\n' !in Prefix + "cpu" && '\n' !in Prefix + "mem"
  {
  }

  lemma CpuHeadersOnOneLine()
    ensures '\n' !in CpuHelp && '\n' !in CpuType
  {
    PrefixOnOneLine();
    assert '\n' !in "The CPU time of a node in seconds.";
    HeaderLinesOnOneLine(Prefix + "cpu", "The CPU time of a node in seconds.");
  }

  lemma MemHeadersOnOneLine()
    ensures '\n' !in MemHelp && '\n' !in MemType
  {
    PrefixOnOneLine();
    assert '\n' !in "The memory of a node in Bytes.";
    HeaderLinesOnOneLine(Prefix + "mem", "The memory of a node in Bytes.");
  }

  lemma HeadersOnOneLine()
    ensures '\n' !in CpuHelp && '\n' !in CpuType && '\n' !in MemHelp && '\n' !in MemType
  {
    CpuHeadersOnOneLine();
    MemHeadersOnOneLine();
  }

  lemma SeriesLineOnOneLine(family: string, n: NodeSample, raw: string)
    requires !Val2Base(raw).Fail? && '\n' !in family && '\n' !in raw && NodeOnOneLine(n)
    ensures '\n' !in SeriesLine(family, n, raw)
  {
    PrefixOnOneLine();
    assert '\n' !in "{node=\"";
    LabelTailOnOneLine(n.created, n.timestamp, n.window, raw);
  }

  lemma SeriesOnOneLine(samples: seq<NodeSample>)
    requires AllPrintable(samples)
    requires forall i :: 0 <= i < |samples| ==> NodeOnOneLine(samples[i])
    ensures NoNewlines(CpuLines(samples)) && NoNewlines(MemLines(samples))
  {
    forall i | 0 <= i < |samples|
      ensures '\n' !in CpuLine(samples[i]) && '\n' !in MemLine(samples[i])
    {
      SeriesLineOnOneLine("cpu", samples[i], samples[i].cpu);
      SeriesLineOnOneLine("mem", samples[i], samples[i].memory);
    }
  }

  lemma ExpectedLinesOnOneLine(samples: seq<NodeSample>)
    requires AllPrintable(samples)
    requires forall i :: 0 <= i < |samples| ==> NodeOnOneLine(samples[i])
    ensures NoNewlines(ExpectedLines(samples))
  {
    HeadersOnOneLine();
    SeriesOnOneLine(samples);
    var cpu := [CpuHelp, CpuType] + CpuLines(samples);
    var mem := [MemHelp, MemType] + MemLines(samples);
    NoNewlinesAppend([CpuHelp, CpuType], CpuLines(samples));
    NoNewlinesAppend([MemHelp, MemType], MemLines(samples));
    NoNewlinesAppend(cpu, mem);
  }

  /** When no label or usage string contains a newline, the text splits back into
      the expected lines: 4 + 2 * (number of nodes) of them. */
  lemma NodeLineCount(parsed: Option<Json>)
    requires Renderable(parsed)
    requires forall i :: 0 <= i < |Samples(parsed)| ==> NodeOnOneLine(Samples(parsed)[i])
    ensures TransNodeMetrics(parsed).Ok?
    ensures Split(TransNodeMetrics(parsed).value) == ExpectedLines(Samples(parsed))
    ensures |Split(TransNodeMetrics(parsed).value)| == 4 + 2 * |Samples(parsed)|
  {
    NodeMetricsText(parsed);
    ExpectedLinesOnOneLine(Samples(parsed));
    SplitJoin(ExpectedLines(Samples(parsed)));
  }

  /** The JSON object of one node carrying exactly the fields of `n`. */
  function NodeObject(n: NodeSample): Json {
    var meta := JObj(map["name" := JStr(n.name), "creationTimestamp" := JStr(n.created)]);
    var usage := JObj(map["cpu" := JStr(n.cpu), "memory" := JStr(n.memory)]);
    JObj(map["metadata" := meta, "usage" := usage,
             "timestamp" := JStr(n.timestamp), "window" := JStr(n.window)])
  }

  lemma ReadNodeObject(n: NodeSample)
    ensures ReadNode(NodeObject(n)) == Some(n)
  {
  }

  lemma SingleNodeReads(n: NodeSample)
    ensures Items(JObj(map["items" := JArr([NodeObject(n)])])) == Ok([NodeObject(n)])
    ensures ReadNodes([NodeObject(n)]) == Some([n])
  {
    ReadNodeObject(n);
    var v := ReadNodes([NodeObject(n)]).value;
    assert |v| == 1 && v[0] == n;
    assert v == [n];
  }

  /** A document holding one node renders as six lines: the cpu header pair, the
      node's cpu line, the mem header pair and the node's mem line. */
  lemma SingleNodeDocument(n: NodeSample)
    requires Printable(n)
    ensures TransNodeMetrics(Some(JObj(map["items" := JArr([NodeObject(n)])])))
      == Ok(Join([CpuHelp, CpuType, CpuLine(n), MemHelp, MemType, MemLine(n)]))
  {
    var doc := JObj(map["items" := JArr([NodeObject(n)])]);
    SingleNodeReads(n);
    assert Renderable(Some(doc));
    NodeMetricsText(Some(doc));
    assert TransNodeMetrics(Some(doc)) == Ok(Join(ExpectedLines([n])));
    ExpectedSingle(n);
  }

  lemma ExpectedSingle(n: NodeSample)
    requires Printable(n)
    ensures ExpectedLines([n]) == [CpuHelp, CpuType, CpuLine(n), MemHelp, MemType, MemLine(n)]
  {
    var e := ExpectedLines([n]);
    assert e[2] == CpuLine([n][0]) && e[5] == MemLine([n][0]);
    SixElements(e, CpuHelp, CpuType, CpuLine(n), MemHelp, MemType, MemLine(n));
  }
}
