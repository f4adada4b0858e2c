/** `trans_pod_metrics`: renders the pod list of the metrics API as two gauge
    families, `kube_metrics_server_pod_cpu` and `kube_metrics_server_pod_mem`,
    with one series per container.

    `RenderContainer` ... `TransPodMetrics` follow the source statement by
    statement. `ReadPod`, `ReadPods` and `ExpectedLines` are a reference
    description over typed (pod, container) samples, and the lemmas at the end
    prove that the two agree and that series come in pod order, then container
    order. */
module PodMetrics {
  import opened Outcomes
  import opened PyJson
  import opened Units
  import opened TextLines
  import opened Sequences
  import opened Decimal
  import opened Exposition

  const Prefix: string := "kube_metrics_server_pod_"
  const CpuHelp: string := HelpLine(Prefix + "cpu", "The CPU time of a pod in seconds.")
  const CpuType: string := TypeLine(Prefix + "cpu")
  const MemHelp: string := HelpLine(Prefix + "mem", "The memory of a pod in Bytes.")
  const MemType: string := TypeLine(Prefix + "mem")

  /** The pod-level label strings. */
  datatype PodSample = PodSample(name: string, namespace: string, created: string, timestamp: string, window: string)

  /** The container name and its usage strings. */
  datatype ContainerSample = ContainerSample(name: string, cpu: string, memory: string)

  /** One series: a container together with the pod it belongs to. */
  datatype Series = Series(pod: PodSample, container: ContainerSample)

  /** Both usage values survive `val2base` (neither is of the `1m0s` form). */
  predicate Printable(c: ContainerSample) {
    !Val2Base(c.cpu).Fail? && !Val2Base(c.memory).Fail?
  }

  /** The line template of `trans_pod_metrics`, filled in for one family. Label
      values are inserted verbatim, without escaping, so only a value without
      spaces is sure to be read back; a converted quantity always is, and reads
      back as its number of base units. */
  function SeriesLine(family: string, s: Series, raw: string): (line: string)
    requires !Val2Base(raw).Fail?
    ensures ' ' !in Show(Val2Base(raw)) ==> ValueField(line) == Show(Val2Base(raw))
    ensures Val2Base(raw).Num? ==> ValueField(line) == Show(Val2Base(raw))
    ensures Val2Base(raw).Num? ==> DigitsValue(ValueField(line)) == Val2Base(raw).n
  {
    var head := Prefix + family + "{pod=\"" + s.pod.name
      + "\",container=\"" + s.container.name + "\",namespace=\"" + s.pod.namespace;
    var tail := LabelTail(s.pod.created, s.pod.timestamp, s.pod.window, raw);
    ValueFieldAfter(head, tail);
    assert Val2Base(raw).Num? ==> ' ' !in Show(Val2Base(raw)) by {
      if Val2Base(raw).Num? {
        NumberHasNoSpace(raw);
      }
    }
    head + tail
  }

  function CpuLine(s: Series): string
    requires Printable(s.container)
  {
    SeriesLine("cpu", s, s.container.cpu)
  }

  function MemLine(s: Series): string
    requires Printable(s.container)
  {
    SeriesLine("mem", s, s.container.memory)
  }

  // ---------------------------------------------------------------------------
  // The source's evaluation.

  /** The pod's label dict, its values still JSON. */
  datatype PodLabels = PodLabels(name: Json, namespace: Json, created: Json, timestamp: Json, window: Json)

  /** Building the label dict of a pod; `None` is the AttributeError of a pod
      that is not an object or whose `metadata` is absent or not an object. */
  function PodLabelsOf(pod: Json): (r: Option<PodLabels>)
    ensures r.Some? <==> HasObject(pod, "metadata")
    ensures r.Some? ==> r.value == (var meta := pod.fields["metadata"].fields;
      PodLabels(Leaf(meta, "name"), Leaf(meta, "namespace"), Leaf(meta, "creationTimestamp"),
                Leaf(pod.fields, "timestamp"), Leaf(pod.fields, "window")))
  {
    var name := GetIn(pod, "metadata", "name");
    var namespace := GetIn(pod, "metadata", "namespace");
    var created := GetIn(pod, "metadata", "creationTimestamp");
    var timestamp := Get(pod, "timestamp", JStr(""));
    var window := Get(pod, "window", JStr(""));
    if name.None? || namespace.None? || created.None? || timestamp.None? || window.None? then None
    else Some(PodLabels(name.value, namespace.value, created.value, timestamp.value, window.value))
  }

  predicate LabelsAreText(l: PodLabels) {
    l.name.JStr? && l.namespace.JStr? && l.created.JStr? && l.timestamp.JStr? && l.window.JStr?
  }

  function LabelSample(l: PodLabels): PodSample
    requires LabelsAreText(l)
  {
    PodSample(l.name.s, l.namespace.s, l.created.s, l.timestamp.s, l.window.s)
  }

  /** One iteration of the inner loop: the container name, the value dict, then
      the cpu line and the mem line. Yields both lines. */
  function RenderContainer(labels: PodLabels, container: Json): (r: Outcome<(string, string)>)
    ensures r == Raises(AttributeError) <==> !HasObject(container, "usage")
    ensures r == Raises(TypeError) <==>
      HasObject(container, "usage")
      && (UsageValue(Leaf(container.fields["usage"].fields, "cpu")).Fail?
          || UsageValue(Leaf(container.fields["usage"].fields, "memory")).Fail?)
  {
    var name := Get(container, "name", JStr(""));
    var cpu := GetIn(container, "usage", "cpu");
    var mem := GetIn(container, "usage", "memory");
    if name.None? || cpu.None? || mem.None? then
      Raises(AttributeError)
    else if UsageValue(cpu.value).Fail? || UsageValue(mem.value).Fail? then
      Raises(TypeError)
    else if !(LabelsAreText(labels) && name.value.JStr?) then
      Unmodelled
    else
      var s := Series(LabelSample(labels), ContainerSample(name.value.s, cpu.value.s, mem.value.s));
      Ok((CpuLine(s), MemLine(s)))
  }

  /** The inner loop over a pod's containers. */
  function RenderContainers(labels: PodLabels, containers: seq<Json>): Outcome<seq<(string, string)>> {
    MapEach(containers, c => RenderContainer(labels, c))
  }

  /** `pod.get('containers', [])`, iterated. */
  function ContainersOf(pod: Json): Outcome<seq<Json>>
    requires pod.JObj?
  {
    Iterate(ListLeaf(pod.fields, "containers"))
  }

  /** `m.get(key, [])` on a dict. */
  function ListLeaf(m: map<string, Json>, key: string): Json {
    if key in m then m[key] else JArr([])
  }

  /** One iteration of the outer loop: the pod's labels, then its containers,
      one line pair per container. */
  function RenderPod(pod: Json): (r: Outcome<seq<(string, string)>>)
    ensures !HasObject(pod, "metadata") ==> r == Raises(AttributeError)
    ensures HasObject(pod, "metadata") && ContainersOf(pod).Raises? ==> r == Raises(ContainersOf(pod).error)
    ensures r.Ok? ==> |r.value| == |Containers(pod)|
  {
    match PodLabelsOf(pod)
    case None => Raises(AttributeError)
    case Some(labels) =>
      match ContainersOf(pod)
      case Raises(e) => Raises(e)
      case Unmodelled => Unmodelled
      case Ok(containers) => RenderContainers(labels, containers)
  }

  /** The outer loop over pods; each pod appends its containers' line pairs. */
  function RenderPods(pods: seq<Json>): Outcome<seq<(string, string)>> {
    ForEach(pods, RenderPod)
  }

  /** The list `cpu + mem` just before it is joined: the cpu family's two
      header lines and one line per container, then the same for the mem family. */
  function PodLines(data: Json): (r: Outcome<seq<string>>)
    ensures !data.JObj? ==> r == Raises(AttributeError)
    ensures r.Ok? ==> Items(data).Ok? && |r.value| >= 4 && |r.value| % 2 == 0
    ensures r.Ok? ==> r.value[0] == CpuHelp && r.value[1] == CpuType
    ensures r.Ok? ==> r.value[|r.value| / 2] == MemHelp && r.value[|r.value| / 2 + 1] == MemType
  {
    match Items(data)
    case Raises(e) => Raises(e)
    case Unmodelled => Unmodelled
    case Ok(pods) =>
      match RenderPods(pods)
      case Raises(e) => Raises(e)
      case Unmodelled => Unmodelled
      case Ok(pairs) =>
        var lines := ([CpuHelp, CpuType] + Firsts(pairs)) + ([MemHelp, MemType] + Seconds(pairs));
        TwoBlocks(CpuHelp, CpuType, Firsts(pairs), MemHelp, MemType, Seconds(pairs));
        assert |lines| / 2 == 2 + |pairs|;
        Ok(lines)
  }

  /** `trans_pod_metrics(string)`, given the outcome of `json.loads(string)`. */
  function TransPodMetrics(parsed: Option<Json>): (r: Outcome<string>)
    ensures !Json2Dict(parsed).JObj? ==> r == Raises(AttributeError)
    ensures r.Ok? ==> CpuHelp + "\n" <= r.value
  {
    match PodLines(Json2Dict(parsed))
    case Ok(lines) => Ok(Join(lines))
    case Raises(e) => Raises(e)
    case Unmodelled => Unmodelled
  }

  // ---------------------------------------------------------------------------
  // Reference description.

  /** A container the template can be filled from: an object whose `usage`
      member is an object, with its name and usage values strings or absent. */
  function ReadContainer(c: Json): Option<ContainerSample> {
    if HasObject(c, "usage") then
      var usage := c.fields["usage"].fields;
      var name := Text(c.fields, "name");
      var cpu := Text(usage, "cpu");
      var memory := Text(usage, "memory");
      if name.Some? && cpu.Some? && memory.Some? then Some(ContainerSample(name.value, cpu.value, memory.value))
      else None
    else None
  }

  /** The pod's label strings, when its `metadata` is an object and its five
      label values are strings or absent. */
  function ReadPodSample(pod: Json): Option<PodSample> {
    if HasObject(pod, "metadata") then
      var meta := pod.fields["metadata"].fields;
      var name := Text(meta, "name");
      var namespace := Text(meta, "namespace");
      var created := Text(meta, "creationTimestamp");
      var timestamp := Text(pod.fields, "timestamp");
      var window := Text(pod.fields, "window");
      if name.Some? && namespace.Some? && created.Some? && timestamp.Some? && window.Some? then
        Some(PodSample(name.value, namespace.value, created.value, timestamp.value, window.value))
      else None
    else None
  }

  /** The containers of a pod, or none when they cannot be iterated. */
  function Containers(pod: Json): seq<Json> {
    if pod.JObj? && ContainersOf(pod).Ok? then ContainersOf(pod).value else []
  }

  /** The series of one pod: one per container, in container order, each paired
      with the pod's labels. The labels are only read when there is a container
      to print them for. */
  function ReadPod(pod: Json): (r: Option<seq<Series>>)
    ensures r.Some? ==> |r.value| == |Containers(pod)|
    ensures r.Some? && |Containers(pod)| > 0 ==> ReadPodSample(pod).Some?
    ensures r.Some? && |Containers(pod)| > 0 ==> forall j :: 0 <= j < |r.value| ==>
      (ReadContainer(Containers(pod)[j]).Some?
       && r.value[j] == Series(ReadPodSample(pod).value, ReadContainer(Containers(pod)[j]).value))
  {
    if HasObject(pod, "metadata") && ContainersOf(pod).Ok? then
      var cs := ContainersOf(pod).value;
      if forall j :: 0 <= j < |cs| ==> ReadContainer(cs[j]).Some? then
        if |cs| == 0 then Some([])
        else if ReadPodSample(pod).Some? then
          var p := ReadPodSample(pod).value;
          Some(seq(|cs|, j requires 0 <= j < |cs| && ReadContainer(cs[j]).Some? => Series(p, ReadContainer(cs[j]).value)))
        else None
      else None
    else None
  }

  /** The series of all pods, pod after pod. */
  function ReadPods(pods: seq<Json>): (r: Option<seq<Series>>)
    ensures r.Some? <==> forall i :: 0 <= i < |pods| ==> ReadPod(pods[i]).Some?
  {
    ConcatParts(pods, ReadPod)
  }

  function ContainersIn(pod: Json): nat {
    |Containers(pod)|
  }

  /** Number of containers over a list of pods. */
  function ContainerCount(pods: seq<Json>): nat {
    SizeSum(pods, ContainersIn)
  }

  predicate AllPrintable(series: seq<Series>) {
    forall k :: 0 <= k < |series| ==> Printable(series[k].container)
  }

  /** The document's pods all read as series whose usage values are printable. */
  predicate Renderable(parsed: Option<Json>) {
    var items := Items(Json2Dict(parsed));
    items.Ok? && ReadPods(items.value).Some? && AllPrintable(ReadPods(items.value).value)
  }

  function AllSeries(parsed: Option<Json>): seq<Series>
    requires Renderable(parsed)
  {
    ReadPods(Items(Json2Dict(parsed)).value).value
  }

  function LinePairs(series: seq<Series>): (pairs: seq<(string, string)>)
    requires AllPrintable(series)
    ensures |pairs| == |series|
      && forall k :: 0 <= k < |series| ==> pairs[k] == (CpuLine(series[k]), MemLine(series[k]))
  {
    seq(|series|, k requires 0 <= k < |series| && AllPrintable(series) => (CpuLine(series[k]), MemLine(series[k])))
  }

  function CpuLines(series: seq<Series>): (lines: seq<string>)
    requires AllPrintable(series)
    ensures |lines| == |series| && forall k :: 0 <= k < |series| ==> lines[k] == CpuLine(series[k])
  {
    seq(|series|, k requires 0 <= k < |series| && AllPrintable(series) => CpuLine(series[k]))
  }

  function MemLines(series: seq<Series>): (lines: seq<string>)
    requires AllPrintable(series)
    ensures |lines| == |series| && forall k :: 0 <= k < |series| ==> lines[k] == MemLine(series[k])
  {
    seq(|series|, k requires 0 <= k < |series| && AllPrintable(series) => MemLine(series[k]))
  }

  /** The exposition lines for a list of series: the cpu family's HELP and TYPE
      lines, one cpu line per series in order, then the mem family's HELP and
      TYPE lines and one mem line per series in order. */
  function ExpectedLines(series: seq<Series>): (lines: seq<string>)
    requires AllPrintable(series)
    ensures |lines| == 4 + 2 * |series|
    ensures lines[0] == CpuHelp && lines[1] == CpuType
    ensures lines[2 + |series|] == MemHelp && lines[3 + |series|] == MemType
    ensures forall k :: 0 <= k < |series| ==> lines[2 + k] == CpuLine(series[k])
    ensures forall k :: 0 <= k < |series| ==> lines[4 + |series| + k] == MemLine(series[k])
  {
    TwoBlocks(CpuHelp, CpuType, CpuLines(series), MemHelp, MemType, MemLines(series));
    ([CpuHelp, CpuType] + CpuLines(series)) + ([MemHelp, MemType] + MemLines(series))
  }

  // ---------------------------------------------------------------------------
  // Agreement of the two.

  lemma PodLabelsRead(pod: Json)
    requires HasObject(pod, "metadata")
    ensures LabelsAreText(PodLabelsOf(pod).value) <==> ReadPodSample(pod).Some?
    ensures ReadPodSample(pod).Some? ==> ReadPodSample(pod).value == LabelSample(PodLabelsOf(pod).value)
  {
  }

  /** One container renders exactly when it reads as a printable sample and the
      pod's labels are strings, and then renders as that series' two lines. */
  lemma RenderContainerReads(labels: PodLabels, c: Json)
    ensures RenderContainer(labels, c).Ok? <==>
      ReadContainer(c).Some? && Printable(ReadContainer(c).value) && LabelsAreText(labels)
    ensures RenderContainer(labels, c).Ok? ==>
      var s := Series(LabelSample(labels), ReadContainer(c).value);
      RenderContainer(labels, c).value == (CpuLine(s), MemLine(s))
  {
  }

  /** A pod whose containers are absent or an empty list contributes no series,
      and does not fail even when its labels are not strings; only a pod that
      is not an object or lacks an object `metadata` fails before its containers. */
  lemma PodWithoutContainers(pod: Json)
    requires HasObject(pod, "metadata") && ContainersOf(pod) == Ok([])
    ensures RenderPod(pod) == Ok([])
    ensures ReadPod(pod) == Some([])
  {
  }

  /** One pod renders exactly when it reads as printable series, and then
      renders as their line pairs, in container order. */
  lemma RenderPodReads(pod: Json)
    ensures RenderPod(pod).Ok? <==> ReadPod(pod).Some? && AllPrintable(ReadPod(pod).value)
    ensures RenderPod(pod).Ok? ==> RenderPod(pod).value == LinePairs(ReadPod(pod).value)
  {
    if HasObject(pod, "metadata") && ContainersOf(pod).Ok? {
      var labels := PodLabelsOf(pod).value;
      var cs := ContainersOf(pod).value;
      assert Containers(pod) == cs;
      PodLabelsRead(pod);
      forall j | 0 <= j < |cs|
        ensures RenderContainer(labels, cs[j]).Ok? <==>
          ReadContainer(cs[j]).Some? && Printable(ReadContainer(cs[j]).value) && LabelsAreText(labels)
        ensures RenderContainer(labels, cs[j]).Ok? ==>
          var s := Series(LabelSample(labels), ReadContainer(cs[j]).value);
          RenderContainer(labels, cs[j]).value == (CpuLine(s), MemLine(s))
      {
        RenderContainerReads(labels, cs[j]);
      }
      if RenderPod(pod).Ok? {
        assert RenderPod(pod) == RenderContainers(labels, cs);
        if |cs| > 0 {
          assert RenderContainer(labels, cs[0]).Ok?;
          var series := ReadPod(pod).value;
          assert AllPrintable(series);
          assert RenderPod(pod).value == LinePairs(series);
        } else {
          assert RenderPod(pod).value == LinePairs(ReadPod(pod).value);
        }
      }
    }
  }

  lemma AllPrintableAppend(a: seq<Series>, b: seq<Series>)
    ensures AllPrintable(a + b) <==> AllPrintable(a) && AllPrintable(b)
  {
    assert forall k :: 0 <= k < |a| ==> (a + b)[k] == a[k];
    assert forall k :: 0 <= k < |b| ==> (a + b)[|a| + k] == b[k];
  }

  lemma LinePairsAppend(a: seq<Series>, b: seq<Series>)
    requires AllPrintable(a) && AllPrintable(b)
    ensures AllPrintable(a + b) && LinePairs(a + b) == LinePairs(a) + LinePairs(b)
  {
    AllPrintableAppend(a, b);
    assert forall k :: 0 <= k < |a| ==> (a + b)[k] == a[k];
    assert forall k :: 0 <= k < |b| ==> (a + b)[|a| + k] == b[k];
  }

  /** The loop over pods completes exactly when every pod reads as printable
      series, and then collects their line pairs pod after pod. */
  lemma {:induction false} RenderPodsReads(pods: seq<Json>)
    ensures RenderPods(pods).Ok? <==> ReadPods(pods).Some? && AllPrintable(ReadPods(pods).value)
    ensures RenderPods(pods).Ok? ==> RenderPods(pods).value == LinePairs(ReadPods(pods).value)
    decreases |pods|
  {
    if |pods| > 0 {
      RenderPodReads(pods[0]);
      RenderPodsReads(pods[1..]);
      var first := ReadPod(pods[0]);
      var rest := ReadPods(pods[1..]);
      if first.Some? && rest.Some? {
        AllPrintableAppend(first.value, rest.value);
        if AllPrintable(first.value) && AllPrintable(rest.value) {
          LinePairsAppend(first.value, rest.value);
        }
      }
    }
  }

  /** The whole rendering: it returns exactly when every pod reads as printable
      series, and then its text is the expected lines joined with newlines. */
  lemma PodMetricsText(parsed: Option<Json>)
    ensures TransPodMetrics(parsed).Ok? <==> Renderable(parsed)
    ensures TransPodMetrics(parsed).Ok? ==> TransPodMetrics(parsed).value == Join(ExpectedLines(AllSeries(parsed)))
  {
    var items := Items(Json2Dict(parsed));
    if items.Ok? {
      RenderPodsReads(items.value);
      if RenderPods(items.value).Ok? {
        var pairs := RenderPods(items.value).value;
        var series := ReadPods(items.value).value;
        assert Firsts(pairs) == CpuLines(series);
        assert Seconds(pairs) == MemLines(series);
        assert ([CpuHelp, CpuType] + Firsts(pairs)) + ([MemHelp, MemType] + Seconds(pairs)) == ExpectedLines(series);
      }
    }
  }

  /** Every container of every pod yields exactly one series. */
  lemma SeriesPerContainer(pods: seq<Json>)
    requires ReadPods(pods).Some?
    ensures |ReadPods(pods).value| == ContainerCount(pods)
  {
    PodSizes(pods);
    ConcatPartsLength(pods, ReadPod, ContainersIn);
  }

  /** Each pod's series are as many as its containers. */
  lemma PodSizes(pods: seq<Json>)
    ensures SizesMatch(pods, ReadPod, ContainersIn)
  {
  }

  /** Series come in pod order, then container order: container `j` of pod `i`
      is series number (containers of the pods before `i`) + `j`, carrying pod
      `i`'s labels and its own container name and usage. */
  lemma SeriesOrder(pods: seq<Json>, i: nat, j: nat)
    requires ReadPods(pods).Some?
    requires i < |pods| && j < |Containers(pods[i])|
    ensures ContainerCount(pods[..i]) + j < |ReadPods(pods).value|
    ensures ReadPodSample(pods[i]).Some? && ReadContainer(Containers(pods[i])[j]).Some?
    ensures ReadPods(pods).value[ContainerCount(pods[..i]) + j]
      == Series(ReadPodSample(pods[i]).value, ReadContainer(Containers(pods[i])[j]).value)
  {
    PodSizes(pods);
    ConcatPartsIndex(pods, ReadPod, ContainersIn, i, j);
    PodSeries(pods[i], j);
  }

  lemma PodSeries(pod: Json, j: nat)
    requires ReadPod(pod).Some? && j < |Containers(pod)|
    ensures ReadPodSample(pod).Some? && ReadContainer(Containers(pod)[j]).Some?
    ensures ReadPod(pod).value[j] == Series(ReadPodSample(pod).value, ReadContainer(Containers(pod)[j]).value)
  {
  }

  /** Invalid JSON, a document without `items`, or an empty `items` list gives
      exactly the four HELP/TYPE lines. */
  lemma PodHeaderOnly(parsed: Option<Json>)
    requires parsed.Some? ==> parsed.value.JObj? && ("items" in parsed.value.fields ==> parsed.value.fields["items"] == JArr([]))
    ensures TransPodMetrics(parsed) == Ok(Join([CpuHelp, CpuType, MemHelp, MemType]))
    ensures |Split(TransPodMetrics(parsed).value)| == 4
  {
    NoItems(parsed);
    HeadersOnOneLine();
    assert ([CpuHelp, CpuType] + Firsts<string, string>([])) + ([MemHelp, MemType] + Seconds<string, string>([])) == [CpuHelp, CpuType, MemHelp, MemType];
    SplitJoin([CpuHelp, CpuType, MemHelp, MemType]);
  }

  lemma PrefixOnOneLine()
    ensures '\n' !in Prefix && '\n' !in Prefix + "cpu" && '\n' !in Prefix + "mem"
  {
  }

  lemma CpuHeadersOnOneLine()
    ensures '\n' !in CpuHelp && '\n' !in CpuType
  {
    PrefixOnOneLine();
    assert '\n' !in "The CPU time of a pod in seconds.";
    HeaderLinesOnOneLine(Prefix + "cpu", "The CPU time of a pod in seconds.");
  }

  lemma MemHeadersOnOneLine()
    ensures '\n' !in MemHelp && '\n' !in MemType
  {
    PrefixOnOneLine();
    assert '\n' !in "The memory of a pod in Bytes.";
    HeaderLinesOnOneLine(Prefix + "mem", "The memory of a pod in Bytes.");
  }

  lemma HeadersOnOneLine()
    ensures '\n' !in CpuHelp && '\n' !in CpuType && '\n' !in MemHelp && '\n' !in MemType
  {
    CpuHeadersOnOneLine();
    MemHeadersOnOneLine();
  }

  /** The literal parts of the line template before the shared end. */
  lemma LeadingPiecesOnOneLine()
    ensures '\n' !in "{pod=\"" && '\n' !in "\",container=\"" && '\n' !in "\",namespace=\""
  {
  }

  predicate SeriesOnOneLine(s: Series) {
    && '\n' !in s.pod.name && '\n' !in s.pod.namespace && '\n' !in s.pod.created
    && '\n' !in s.pod.timestamp && '\n' !in s.pod.window
    && '\n' !in s.container.name && '\n' !in s.container.cpu && '\n' !in s.container.memory
  }

  lemma SeriesLineOnOneLine(family: string, s: Series, raw: string)
    requires !Val2Base(raw).Fail? && '\n' !in family && '\n' !in raw && SeriesOnOneLine(s)
    ensures '\n' !in SeriesLine(family, s, raw)
  {
    PrefixOnOneLine();
    LeadingPiecesOnOneLine();
    LabelTailOnOneLine(s.pod.created, s.pod.timestamp, s.pod.window, raw);
  }

  lemma ExpectedLinesOnOneLine(series: seq<Series>)
    requires AllPrintable(series)
    requires forall k :: 0 <= k < |series| ==> SeriesOnOneLine(series[k])
    ensures NoNewlines(ExpectedLines(series))
  {
    HeadersOnOneLine();
    forall k | 0 <= k < |series|
      ensures '\n' !in CpuLine(series[k]) && '\n' !in MemLine(series[k])
    {
      SeriesLineOnOneLine("cpu", series[k], series[k].container.cpu);
      SeriesLineOnOneLine("mem", series[k], series[k].container.memory);
    }
    var cpu := [CpuHelp, CpuType] + CpuLines(series);
    var mem := [MemHelp, MemType] + MemLines(series);
    NoNewlinesAppend([CpuHelp, CpuType], CpuLines(series));
    NoNewlinesAppend([MemHelp, MemType], MemLines(series));
    NoNewlinesAppend(cpu, mem);
  }

  /** When no label or usage string contains a newline, the text splits back into
      the expected lines: 4 + 2 * (number of containers over all pods) of them. */
  lemma PodLineCount(parsed: Option<Json>)
    requires Renderable(parsed)
    requires forall k :: 0 <= k < |AllSeries(parsed)| ==> SeriesOnOneLine(AllSeries(parsed)[k])
    ensures TransPodMetrics(parsed).Ok?
    ensures Split(TransPodMetrics(parsed).value) == ExpectedLines(AllSeries(parsed))
    ensures |Split(TransPodMetrics(parsed).value)| == 4 + 2 * ContainerCount(Items(Json2Dict(parsed)).value)
  {
    PodMetricsText(parsed);
    SeriesPerContainer(Items(Json2Dict(parsed)).value);
    ExpectedLinesOnOneLine(AllSeries(parsed));
    SplitJoin(ExpectedLines(AllSeries(parsed)));
  }

  // ---------------------------------------------------------------------------
  // A document with one pod running two containers.

  function ContainerObject(c: ContainerSample): Json {
    JObj(map["name" := JStr(c.name), "usage" := JObj(map["cpu" := JStr(c.cpu), "memory" := JStr(c.memory)])])
  }

  function PodObject(p: PodSample, containers: seq<Json>): Json {
    var meta := JObj(map["name" := JStr(p.name), "namespace" := JStr(p.namespace),
                         "creationTimestamp" := JStr(p.created)]);
    JObj(map["metadata" := meta, "timestamp" := JStr(p.timestamp), "window" := JStr(p.window),
             "containers" := JArr(containers)])
  }

  /** A pod running containers `a` then `b` reads as two series, in that order,
      both carrying the pod's labels. */
  lemma ReadTwoContainerPod(p: PodSample, a: ContainerSample, b: ContainerSample)
    ensures ReadPod(PodObject(p, [ContainerObject(a), ContainerObject(b)])) == Some([Series(p, a), Series(p, b)])
  {
    var pod := PodObject(p, [ContainerObject(a), ContainerObject(b)]);
    assert ContainersOf(pod) == Ok([ContainerObject(a), ContainerObject(b)]);
    assert ReadContainer(ContainerObject(a)) == Some(a);
    assert ReadContainer(ContainerObject(b)) == Some(b);
    assert ReadPodSample(pod) == Some(p);
    var v := ReadPod(pod).value;
    assert |v| == 2 && v[0] == Series(p, a) && v[1] == Series(p, b);
    assert v == [Series(p, a), Series(p, b)];
  }
}
