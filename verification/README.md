# metrics-server to Prometheus transformer, modelled in Dafny

The service polls the Kubernetes metrics API for node and pod usage. It
re-publishes that usage as Prometheus text exposition. This project models the
transformation core in `data/src/transform.py`:

- `json2dict` turns the response body into a decoded document. An unparsable
  body becomes `{}`.
- `val2base` normalises a quantity string such as `15Ki`, `1Gi` or `250m` to
  base units. It does this by trying five anchored, case-insensitive regular
  expressions in order.
- `trans_node_metrics` renders the node list as two gauge families,
  `kube_metrics_server_node_cpu` and `kube_metrics_server_node_mem`.
  `trans_pod_metrics` does the same for the pod list, with one series per
  container. Each family starts with its `# HELP` and `# TYPE` lines. All cpu
  lines come before all mem lines.

Modules:

- `Outcomes`: the result of running Python code. A result is either `Ok`, or a
  raised `AttributeError` or `TypeError`, or `Unmodelled`. `Unmodelled` means
  the code returns normally, but its text is not modelled here (see Left out).
  The module also holds the two loop shapes the renderers use:
  - `MapEach`: one result per element;
  - `ForEach`: the elements' results concatenated.
  In both, the first raising iteration decides the exception.
- `PyJson`: decoded JSON values. It also covers `json2dict`, `dict.get` with a
  default, `obj.get(a, []).get(b, '')`, and what a `for` loop does with each
  kind of JSON value.
- `Decimal` and `TextLines`: how an int prints and reads back, and
  `'\n'.join` with its inverse `split('\n')`.
- `Units`: `val2base`. The matchers are written out by hand. They keep the
  fact that Python's `$` also matches before one final newline. They also keep
  the non-ASCII letters that `re.IGNORECASE` folds onto `i`, `k` and `s`.
  `Val2Base` is proved equal to a reference reading: the value of the leading
  digit run, classified by the unit text that follows it.
- `Exposition`: what both line templates share. This covers the `# HELP` and
  `# TYPE` lines, the labels from `created` on, and the sample value, which a
  reader finds after the last space.
- `NodeMetrics` and `PodMetrics`: each renderer is written twice.
  - First, statement by statement in the order Python evaluates it, including
    which exception each malformed document raises.
  - Second, as a typed reference: a document reads as samples (or series), and
    `ExpectedLines` lays out the exposition text from them.
  Lemmas prove the two agree on every document.
- `Sequences`: generic helpers for positions in concatenated lists.

Where the code and its documentation disagree, the model follows the code:

- The `val2base` docstring (`data/src/transform.py:53`) lists `1m0s` as handled.
  The code at lines 76-78 computes `int(minutes) * 60 + seconds`, where
  `seconds` is still a `str`, so it raises `TypeError`. See Findings.
- The `json2dict` docstring (lines 31-32) promises a dict, or an empty dict for
  invalid JSON. But valid JSON that is not an object passes through unchanged
  (a list, `None`, a number or a string). `data.get` at lines 112 and 151 then
  raises `AttributeError`.

The two renderers' docstrings (lines 96-99 and 135-138) promise a string for
valid or invalid JSON. The code raises `AttributeError` in these cases:
- a non-object document (above);
- a node or pod that is not an object (lines 114 and 153);
- a container that is not an object (line 161);
- an absent or non-object `metadata` or `usage` member.

It raises `TypeError` in these cases:
- an `items` or `containers` member that is `null`, a boolean or a number;
- a usage value that is not a string;
- a usage value of the `1m0s` form.

## Model

| member | source | states |
|---|---|---|
| PyJson.Json2Dict | data/src/transform.py:25-39 | A body that fails to parse yields the empty dict. A body that parses is passed on unchanged, whatever JSON value it decodes to. The result is `{}` exactly when the body failed or was `{}`. |
| PyJson.Get | data/src/transform.py:114-121 | `obj.get(key, default)` succeeds exactly on dicts. It yields the member when the key is present, even a `null` member, and the default otherwise. |
| PyJson.GetIn | data/src/transform.py:114-121 | `obj.get(outer, []).get(inner, '')` succeeds exactly when `outer` names an object member. Its value is then the inner leaf, with `''` for an absent leaf. |
| PyJson.Iterate | data/src/transform.py:160 | A `for` loop whose body calls `.get` gets the following from each kind of value: a list yields its elements; an empty dict or empty string yields nothing; `null`, booleans and numbers raise `TypeError`; a non-empty dict or string raises `AttributeError`. |
| PyJson.Items | data/src/transform.py:112 | `data.get('items', [])` iterated: a non-object document raises `AttributeError`, an absent `items` yields no items, and a present one is iterated. |
| PyJson.NoItems | data/src/transform.py:101-112 | An unparsable body, `{}`, or a document without `items` or with empty `items` has no items. |
| PyJson.NonObjectDocument | data/src/transform.py:112 | A body that decodes to anything but an object makes `data.get` raise `AttributeError`. |
| Outcomes.MapEach | data/src/transform.py:112-124 | A loop producing one result per element completes exactly when every iteration does, and then gives the iterations' results in order. It raises exactly when some iteration raises, and the exception is the first raising iteration's. |
| Outcomes.ForEach | data/src/transform.py:151-167 | A loop appending a list per element completes exactly when every iteration does, and then yields the iterations' lists concatenated in order. It raises exactly when some iteration raises, and the outcome is the first raising iteration's. |
| Decimal.DigitsValue | data/src/transform.py:65 | `int()` of a digit string is 0 exactly when every digit is `0`. |
| Decimal.NatToDecimal | data/src/transform.py:123 | Formatting an int gives a non-empty digit string with no leading zero. |
| Decimal.DecimalRoundTrip | data/src/transform.py:123 | Reading back the digits printed for a number gives the number. |
| Decimal.CanonicalRoundTrip | data/src/transform.py:123 | Printing the value of a digit string without leading zeros gives that string back. |
| Decimal.DecimalExamples | data/src/transform.py:123-124 | 15000 and 2097152 print as `15000` and `2097152`. |
| TextLines.Join | data/src/transform.py:125 | `'\n'.join(lines)` opens with the first line, followed by a newline when there is a second line. |
| TextLines.SplitJoin | data/src/transform.py:125 | Splitting the newline-joined text of newline-free lines at newlines gives those lines back. So the exposition text has exactly one line per list entry. |
| TextLines.JoinSplit | data/src/transform.py:125 | Joining the newline-separated pieces of any text restores the text. |
| Units.Val2Base | data/src/transform.py:42-86 | On every string, the ordered five-pattern cascade equals a reference reading. The reading takes the value of the maximal leading digit run, then classifies the text after it: `Ki`, `Mi` or `Gi` gives bytes; `m<digits>s` raises `TypeError`; `m` gives seconds; anything else, or no leading digit, returns the input. |
| Units.PatternsExclusive | data/src/transform.py:62-83 | At most one of the five patterns matches any string. |
| Units.Val2BaseBytes | data/src/transform.py:62-73 | `<digits>Ki`, `<digits>Mi` and `<digits>Gi` in any letter case, optionally followed by one newline, give the digits' value times 1024, 1024^2 and 1024^3. |
| Units.Val2BaseMinutes | data/src/transform.py:80-83 | `<digits>m` in either case gives the digits' value times 60. |
| Units.Val2BaseMinSecFails | data/src/transform.py:75-78 | Every `<digits>m<digits>s` value raises `TypeError`, because the seconds group is added as a string. |
| Units.Val2BasePassThrough | data/src/transform.py:85-86 | A value is returned unchanged when its anchored part does not start with a digit, or does not end in one of the unit letters i, m, s. |
| Units.UsageValue | data/src/transform.py:123-124 | `val2base` on a usage leaf converts only strings. Any other JSON value makes `re.search` raise `TypeError`. |
| Units.Show | data/src/transform.py:110 | The value slot of the template shows a converted int as its canonical numeral (no leading zero; the digits read back as the int), and an unconverted value verbatim. |
| Units.Val2BaseIntended | data/src/transform.py:75-78 | The corrected conversion never fails. It agrees with the code on every value pattern 4 does not match. On the values pattern 4 does match, the code fails and the corrected version does not. |
| Units.MatchMinSecGroups | data/src/transform.py:76 | Pattern 4 matches `<digits>m<digits>s` (with any letter case and an optional final newline) and captures the minutes and the seconds. |
| Units.Val2BaseIntendedMinSec | data/src/transform.py:75-78 | Corrected, `<digits>m<digits>s` is the minutes times 60 plus the seconds. |
| Units.IntendedMinSecExample | data/src/transform.py:53 | Corrected, the docstring's `1m0s` is 60. |
| Units.IntendedFiveMinutesExample | data/src/transform.py:75-78 | Corrected, `5m0s` is 300. |
| Exposition.LabelTail | data/src/transform.py:110 | The end both templates share contains a space. Its value field, the text after the last space, is the printed `val2base` result whenever that has no space. |
| Units.KibibyteExample | data/src/transform.py:63-65 | `15Ki` is 15360 bytes. |
| Units.LowerCaseKibibyteExample | data/src/transform.py:63-65 | `2048ki` is 2097152 bytes: the match ignores case. |
| Units.MebibyteExample | data/src/transform.py:67-69 | `1Mi` is 1048576 bytes. |
| Units.GibibyteExample | data/src/transform.py:71-73 | `1Gi` is 1073741824 bytes. |
| Units.MinutesExample | data/src/transform.py:80-83 | `250m` is 15000: the `m` suffix is read as minutes, not millicores. |
| Units.MinSecExample | data/src/transform.py:75-78 | `1m0s` raises `TypeError`, although the docstring lists it as handled. |
| Units.PassThroughExamples | data/src/transform.py:85-86 | The empty string and `abc` come back unchanged. |
| Units.UnconvertedNumberExamples | data/src/transform.py:62-86 | A bare number `42` and a fractional `1.5Ki` match no pattern and come back unchanged. |
| NodeMetrics.SeriesLine | data/src/transform.py:110 | A node line's value field, the text after the last space, is the printed `val2base` result when that has no space. For a converted quantity it always is, and it reads back as the quantity in base units. |
| NodeMetrics.RenderNode | data/src/transform.py:113-124 | One iteration raises `AttributeError` exactly when the node lacks an object `metadata` or `usage`. It raises `TypeError` exactly when both are objects and a usage value is not a string or has the `1m0s` form. |
| NodeMetrics.NodeLines | data/src/transform.py:101-124 | A non-object document raises `AttributeError`. A completed `cpu + mem` list has `4 + 2n` entries for `n` nodes. It starts with the cpu HELP and TYPE lines, and the mem HELP and TYPE lines start its second half. |
| NodeMetrics.TransNodeMetrics | data/src/transform.py:89-125 | A non-object document raises `AttributeError`. Returned text opens with the cpu HELP line and a newline. |
| NodeMetrics.ReadNodes | data/src/transform.py:112-122 | The nodes read as typed samples exactly when each one does, one sample per node in order. |
| NodeMetrics.ExpectedLines | data/src/transform.py:105-125 | The layout: cpu HELP and TYPE, one cpu line per node in order, mem HELP and TYPE, one mem line per node in order. That is `4 + 2n` lines. |
| NodeMetrics.RenderNodeReadsSample | data/src/transform.py:113-124 | One node renders exactly when it reads as a sample whose usage values convert. It then renders as that sample's template-filled cpu and mem lines. |
| NodeMetrics.RenderNodesReadsSamples | data/src/transform.py:112-124 | The node loop completes exactly when every node reads as a convertible sample. It then collects the samples' cpu lines and mem lines in node order. |
| NodeMetrics.NodeMetricsText | data/src/transform.py:101-125 | `trans_node_metrics` returns text exactly when the document's nodes all read as convertible samples. The text is then the newline join of the expected layout. |
| NodeMetrics.NodeHeaderOnly | data/src/transform.py:101-125 | An unparsable body, `{}`, or a document with no or empty `items` gives exactly the four HELP/TYPE lines. |
| NodeMetrics.ExpectedLinesOnOneLine | data/src/transform.py:110 | When no label or usage string contains a newline, each rendered line is free of newlines. |
| NodeMetrics.NodeLineCount | data/src/transform.py:105-125 | With newline-free fields, the text splits back into the expected lines: `4 + 2 * nodes` of them. |
| NodeMetrics.ReadNodeObject | data/src/transform.py:113-121 | A node object carrying the six fields reads back as exactly those fields. |
| NodeMetrics.SingleNodeReads | data/src/transform.py:112-121 | A document with one node has that node as its only item, and it reads as its sample. |
| NodeMetrics.SingleNodeDocument | data/src/transform.py:105-125 | A one-node document renders as six lines: cpu HELP, TYPE, the node's cpu line, then mem HELP, TYPE, the node's mem line. |
| PodMetrics.SeriesLine | data/src/transform.py:149 | A container line's value field, the text after the last space, is the printed `val2base` result when that has no space. For a converted quantity it always is, and it reads back as the quantity in base units. |
| PodMetrics.RenderPod | data/src/transform.py:151-160 | A pod without an object `metadata` raises `AttributeError`. A `containers` member that cannot be iterated raises its exception. A completed pod gives one line pair per container. |
| PodMetrics.PodLines | data/src/transform.py:140-167 | A non-object document raises `AttributeError`. A completed `cpu + mem` list has an even number of at least four entries. It starts with the cpu HELP and TYPE lines, and the mem HELP and TYPE lines start its second half. |
| PodMetrics.TransPodMetrics | data/src/transform.py:128-168 | A non-object document raises `AttributeError`. Returned text opens with the cpu HELP line and a newline. |
| PodMetrics.PodLabelsOf | data/src/transform.py:152-158 | A pod's label dict can be built exactly when the pod is an object with an object `metadata`. Name, namespace and creation time are read from `metadata`; timestamp and window from the pod. |
| PodMetrics.PodLabelsRead | data/src/transform.py:152-158 | The label dict holds only strings exactly when the pod reads as a typed label sample. Both then carry the same five strings. |
| PodMetrics.ReadPod | data/src/transform.py:151-167 | A pod reads as one series per container, in container order. Each series pairs the pod's labels with that container's name and usage. |
| PodMetrics.ReadPods | data/src/transform.py:151 | The pods read as series exactly when each pod does. |
| PodMetrics.LinePairs | data/src/transform.py:166-167 | Each series gives its cpu line and its mem line, in order. |
| PodMetrics.ExpectedLines | data/src/transform.py:144-168 | The layout: cpu HELP and TYPE, one cpu line per series in order, mem HELP and TYPE, one mem line per series in order. |
| PodMetrics.RenderContainerReads | data/src/transform.py:161-167 | A container renders exactly when it reads as a convertible sample and the pod's labels are strings. It then renders as that series' cpu and mem lines. |
| PodMetrics.RenderContainer | data/src/transform.py:161-167 | One container raises `AttributeError` exactly when it lacks an object `usage`. It raises `TypeError` exactly when a usage value is not a string or has the `1m0s` form. The pod's labels play no part. |
| PodMetrics.PodWithoutContainers | data/src/transform.py:151-160 | A pod with an object `metadata` and absent or empty `containers` adds no lines. This holds even when its labels are not strings. |
| PodMetrics.RenderPodReads | data/src/transform.py:151-167 | One pod renders exactly when it reads as series whose usage values convert. It then renders as those series' line pairs. |
| PodMetrics.RenderPodsReads | data/src/transform.py:151-167 | The pod loop completes exactly when every pod reads as convertible series. It then gives all pods' line pairs, pod after pod. |
| PodMetrics.PodMetricsText | data/src/transform.py:140-168 | `trans_pod_metrics` returns text exactly when the document's pods all read as convertible series. The text is then the newline join of the expected layout. |
| PodMetrics.PodHeaderOnly | data/src/transform.py:140-168 | An unparsable body, `{}`, or a document with no or empty `items` gives exactly the four HELP/TYPE lines. |
| PodMetrics.SeriesPerContainer | data/src/transform.py:151-167 | There are as many series as containers over all pods. |
| PodMetrics.SeriesOrder | data/src/transform.py:151-167 | Container `j` of pod `i` is the series at position (containers of pods before `i`) + `j`. It carries pod `i`'s labels and that container's values. |
| PodMetrics.PodSeries | data/src/transform.py:152-167 | Within one pod, series `j` pairs the pod's labels with container `j`. |
| PodMetrics.ExpectedLinesOnOneLine | data/src/transform.py:149 | When no label or usage string contains a newline, each rendered line is free of newlines. |
| PodMetrics.PodLineCount | data/src/transform.py:144-168 | With newline-free fields, the text splits back into the expected lines: `4 + 2 * containers` of them. |
| PodMetrics.ReadTwoContainerPod | data/src/transform.py:151-167 | A pod running containers `a` then `b` reads as two series in that order, both with the pod's labels. |

## Findings

| source | as written | input that shows it | evidently intended | confidence | as-written member | corrected member |
|---|---|---|---|---|---|---|
| data/src/transform.py:76-78 | `int(val.group(1))*60 + val.group(2)` adds the seconds group, a `str`, to an int | `1m0s` (listed as handled at line 53) raises `TypeError` | `int(val.group(1))*60 + int(val.group(2))`, so `1m0s` is 60 and `5m0s` is 300 | high; not executed | Units.MinSecExample | Units.Val2BaseIntended |

The renderers keep the code as written (`Units.Val2Base`), because they model
the text the program actually produces. A `1m0s` usage value therefore makes a
rendering raise. `Units.Val2BaseMinSecFails` proves that every value of that
form fails in the code. `Units.Val2BaseIntendedMinSec` gives the corrected
value for every such input.

## Left out

- The Flask application and its routes (`data/src/transform.py:171-252`) are not modelled. They are HTTP plumbing around the two renderers.
- The `requests` calls and the proxy URL constants (lines 20-22) are left out: that is network I/O.
- `json.loads` itself is left out. The model takes its outcome as a parameter: a decoded value, or `None` for `ValueError`. Nesting so deep that it raises `RecursionError` is not modelled, and neither is the treatment of duplicate keys.
- JSON numbers are modelled as ints. Their value never reaches the output except through the unmodelled `str()` below.
- The text that `'{}'.format` gives a label value that is not a string (a number, boolean, `null`, list or dict) is not modelled. Such documents have the outcome `Unmodelled`, and the lemmas state exactly when that happens.
- Python's `re` engine is not modelled in general. Only the five fixed patterns are written out as matchers, together with the `$` and IGNORECASE behaviour they depend on.
- Units.Val2Base: Python's limit on int/str conversion is not modelled. Since CPython 3.11 and the matching security releases, `int()` raises `ValueError` on a digit run longer than 4300 digits (lines 65, 69, 73, 83). The model assumes an interpreter without that limit (older, or with the limit disabled), where any digit run converts.
- Units.Show: by the same assumption, `'{}'.format` of an int with more than 4300 digits prints it rather than raising `ValueError`.
- JSON strings are sequences of Unicode scalar values. `json.loads` can produce lone surrogates from `\ud800`-style escapes; a Dafny `string` cannot hold them, so such documents are outside the model.
- Iterating a non-empty dict or string in the renderers' loops yields str keys or characters. The first `.get` on one of them raises `AttributeError`. That outcome is modelled; the iteration itself is not.
