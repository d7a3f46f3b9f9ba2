# netris-exporter port-health collector, in Dafny

This project models the collector class `NetrisExporter` of the netris-exporter
Prometheus exporter. On every scrape, `collect` fetches the lookingglass data of a
Netris-managed fabric. It starts three fresh gauge families: `netris_port_status`,
`netris_port_rx` and `netris_port_tx`, each labelled `site`, `chassis`, `port`.
`get_metrics` then walks every chassis and every entry of its `hardwareHealth` list
and keeps only the `check_port` records. For each record it:

- maps `port_status` to 1 when it is `"ok"` and to 0 otherwise;
- takes the leading run of non-whitespace characters of `message` as the port label;
- appends one status sample labelled `[site, chassis, port]`;
- appends one RX and one TX sample when the message matches
  `.*(?P<rx>\S+)% RX.+(?P<tx>\S+)% TX.*`.

`collect` then yields the three families in the order status, rx, tx.

Files:

- `wrappers.dfy`: `Option` and `Result`.
- `port_message.dfy` (module `PortMessage`): the per-record text handling.
  - `StatusValue` is the status mapping.
  - `LeadingToken` is `re.match('^\S+', message)[0]`.
  - `UtilSplit` and `ChosenSplit` specify the RX/TX regex. `UtilSplit` gives the
    split points of any match anchored at index 0. `ChosenSplit` picks the one
    Python's backtracking matcher reports: every quantifier is greedy, so that is the
    lexicographically greatest split.
  - `RxTx` computes the captures by scanning. It finds the last `"% TX"` before the
    first line feed that has a non-whitespace character before it. It then finds the
    last such `"% RX"` at least six characters earlier. It is proved to return
    exactly the captures of the chosen split.
- `exporter.dfy` (module `Exporter`): the data model and the class.
  - The input is the lookingglass `data` list: `Chassis` with `name`, `site` name and
    `hardwareHealth` checks.
  - The families are `Family` values holding `Sample(labels, value)` lists.
  - `Run` is the specification of one pass over the checks, in chassis-then-check
    order, one `Step` per check.
  - The class `NetrisExporter` has the fields `status`, `rx` and `tx`.
    `GetMetrics` runs the two nested loops of `get_metrics`. `AddCheck` is the body
    of the inner loop. `Collect` resets the three families and then fills and yields
    them. `GetMetrics` and `Collect` are proved against `Run`.
- `pass_properties.dfy` (module `PassProperties`): what a pass produces, stated
  against the checks it saw.

Whitespace is Python 3's `\s` for `str` patterns, the characters for which
`str.isspace` holds (9–13, 28–32, U+0085, U+00A0, U+1680, U+2000–U+200A, U+2028,
U+2029, U+202F, U+205F, U+3000). `.` matches anything except a line feed.

Two behaviours of the code are worth stating plainly, since the model keeps them:

- The regex captures only the single non-whitespace character right before `% RX`
  and `% TX`, so `15% RX` is reported as `"5"`. The samples hold the captured
  strings, not numbers.
- A `check_port` message that is empty or starts with whitespace makes `m[0]` raise.
  The pass stops there. Samples already appended stay in the fields, and `collect`
  yields nothing. The model has this error path: `GetMetrics` returns `false` and
  `Collect` returns `Failure(MissingPortToken)`. There is no precondition that
  excludes such messages.

## Model

| member | source | states |
|---|---|---|
| `PortMessage.IsSpace` | exporter.py:38-41 | defines `\s` (and so `\S`) of a `str` pattern: the characters for which `str.isspace` holds |
| `PortMessage.UtilSplit` | exporter.py:41 | defines a match of `.*(?P<rx>\S+)% RX.+(?P<tx>\S+)% TX.*` anchored at index 0 by its split points: `.*` and `.+` cover no line feed, the groups are non-empty runs of non-whitespace, the two literals sit right after them |
| `PortMessage.ChosenSplit` | exporter.py:41 | defines the match `re.match` reports: the split no other split precedes in backtracking order, where greedy quantifiers try longer spans first, left to right |
| `PortMessage.StatusValue` | exporter.py:34-36 | the value is 0 or 1, and it is 1 exactly when `port_status` is `"ok"` (so 0 for every other string, the empty one included) |
| `PortMessage.TokenEnd` | exporter.py:38 | from index i, the end of the run of non-whitespace characters: every character in between is non-whitespace, and the end is the end of the string or a whitespace character |
| `PortMessage.LeadingToken` | exporter.py:38-39 | no token exactly when the message is empty or starts with whitespace (the source then fails on `m[0]`); otherwise the token is the maximal non-empty leading run of non-whitespace characters |
| `PortMessage.GroupsAreSingleCharacters` | exporter.py:41 | in the split Python's matcher reports, the rx group and the tx group are one character each (greedy `.*` takes the rest) |
| `PortMessage.FirstNewline` | exporter.py:41 | the index of the first line feed at or after `from` (or the length): the farthest `.` can reach |
| `PortMessage.LastMark` | exporter.py:41 | the largest index up to `hi` where the literal is preceded by a non-whitespace character, and none after it; none when there is no such index |
| `PortMessage.SplitMarks` | exporter.py:41 | every match has a `"% RX"` mark and a `"% TX"` mark, each preceded by non-whitespace, at least six characters apart, with no line feed before the tx mark |
| `PortMessage.NoTxMark` | exporter.py:41-42 | with no `"% TX"` mark (preceded by non-whitespace) at index 6 or later before the first line feed, the regex has no match |
| `PortMessage.NoRxMark` | exporter.py:41-42 | with the last such `"% TX"` mark at j and no `"% RX"` mark at or before j - 6, the regex has no match |
| `PortMessage.LastMarksChosen` | exporter.py:41 | the last `"% TX"` mark and the last `"% RX"` mark six or more characters before it give the split that backtracking reports |
| `PortMessage.RxTx` | exporter.py:41-44 | there is no result exactly when the regex has no match; otherwise the result is the (rx, tx) captures of the split that backtracking reports first |
| `PortMessage.RxTxOfSingleMarks` | exporter.py:41 | for `before + "% RX" + between + "% TX" + after` where no piece holds another `%`, `before` and `between` hold no line feed, `before` is non-empty and ends in a non-whitespace character, and `between` has at least two characters and ends in a non-whitespace character, the captures are the last character of `before` and the last character of `between` |
| `PortMessage.LeadingTokenOfWord` | exporter.py:38-39 | a message made of a non-whitespace word followed by nothing or by whitespace has that word as its port label |
| `PortMessage.SampleMessagePort` | exporter.py:37-39 | the message quoted in the source comment gives port `"swp15"` |
| `PortMessage.SampleMessageUtilization` | exporter.py:37-44 | the message quoted in the source comment gives rx `"0"` and tx `"0"` |
| `PortMessage.GreedyCapture` | exporter.py:41 | `"p 15% RX, 27% TX"` captures `"5"` and `"7"`, not `"15"` and `"27"` |
| `Exporter.StatusFamily` | exporter.py:50 | the fresh status family: name `netris_port_status`, the source's help text, label names `site`, `chassis`, `port`, no samples |
| `Exporter.RxFamily` | exporter.py:51 | the fresh RX family: name `netris_port_rx`, the source's help text, the same label names, no samples |
| `Exporter.TxFamily` | exporter.py:52 | the fresh TX family: name `netris_port_tx`, the source's help text, the same label names, no samples |
| `Exporter.Family.AddMetric` | exporter.py:40-44 | `add_metric`: name, help text and label names are kept; the sample list keeps its old samples as a prefix and gains exactly one sample, with the given labels and value, at the end |
| `Exporter.Entries` | exporter.py:28-31 | defines the order in which the nested loops visit the checks: chassis by chassis in list order, each chassis's `hardwareHealth` in order, each check tagged with that chassis's site name and name |
| `Exporter.Tag` | exporter.py:29-31 | the checks of one chassis, in list order, each with that chassis's site name and name attached: one entry per check |
| `Exporter.IsPortCheck` | exporter.py:32-33 | defines the filter: a record takes part exactly when its `check_name` is `"check_port"` |
| `Exporter.Faulty` | exporter.py:38-39 | defines the failing record: a `check_port` record whose message has no leading token, so that `m[0]` raises |
| `Exporter.Observe` | exporter.py:40-44 | the `add_metric` calls of one record: exactly one status sample with the labels and status value at the end; RX and TX each gain exactly one sample with the same labels and the two captures when the message matched, and stay unchanged otherwise; the failure flag is kept |
| `Exporter.Step` | exporter.py:32-44 | one iteration of the inner loop: a pass that has raised stays as it is; the step raises exactly when the pass had raised or the record is a `check_port` record without a port token; samples are only ever appended, at most one status sample, and RX and TX grow together and never by more than status |
| `Exporter.Run` | exporter.py:28-44 | one pass over the checks in order, one step each: no more status samples than checks, and as many RX as TX samples, no more than status samples |
| `Exporter.EffectOf` | exporter.py:32-44 | a record other than `check_port` is ignored; a `check_port` record without a leading token is the failing case; any other record is observed with labels `[site, chassis, token]`, status 1 exactly for `"ok"`, and the RX/TX captures of its message |
| `Exporter.NetrisExporter.constructor` | exporter.py:11-14 | stores the API base URL, the credentials with `authSchemeID` 1 and the JSON content-type header; the three families start empty |
| `Exporter.NetrisExporter.GetMetrics` | exporter.py:27-44 | each family ends as its old value with the samples of `Run(Entries(data))` appended; `ok` is false exactly when that pass fails on a missing port token, and then only what came before the bad record was appended |
| `Exporter.NetrisExporter.AddCheck` | exporter.py:32-44 | one check appends exactly what one step of `Run` appends for it (nothing for other check names, one status sample, plus RX and TX on a match), and reports failure exactly when it is a `check_port` record without a port token |
| `Exporter.NetrisExporter.Collect` | exporter.py:48-56 | on a fetch failure nothing is yielded and the fields are untouched; otherwise the three families are rebuilt empty and filled from this pass only, and `[status, rx, tx]` is yielded in that order unless the pass failed |
| `Exporter.CollectTwice` | exporter.py:48-56 | two collections on the same data give identical results, and each is the result of one fresh pass: `Failure(MissingPortToken)` when the pass raises, otherwise the three fresh families filled with that pass's samples, in the order status, rx, tx |
| `Exporter.EntriesAppend` | exporter.py:28-31 | the checks of two chassis lists, one after the other, are the checks of their concatenation (chassis-then-check order) |
| `Exporter.RunAppend` | exporter.py:28-44 | a pass over two check lists in a row is the first pass followed by the second; after a failure in the first nothing more is appended |
| `Exporter.RestAfterFault` | exporter.py:38-39 | once a record raises, the outcome of the whole pass is the outcome up to and including that record |
| `PassProperties.OnlyPortChecksContribute` | exporter.py:31-33 | a pass over all checks equals a pass over the `check_port` checks alone: other records produce no sample and no error |
| `PassProperties.FailsIffFaultyCheck` | exporter.py:38-39 | a pass fails exactly when some `check_port` message has no leading token |
| `PassProperties.StopsAtFirstFault` | exporter.py:28-40 | a pass that meets its first faulty record at position k has exactly the samples of the first k records |
| `PassProperties.UtilizationPairsWithStatus` | exporter.py:40-44 | RX and TX have equal length, no more than status; the k-th RX and k-th TX sample have the same labels, and that label set is also on some status sample |
| `PassProperties.StatusSamplesFollowPortChecks` | exporter.py:29-40 | for a pass that does not fail, there is one status sample per `check_port` record, in order, labelled `[site, chassis, port token]` and valued by the status mapping |
| `PassProperties.UtilizationSamplesFollowMatches` | exporter.py:41-44 | for a pass that does not fail, there is one RX and one TX sample per `check_port` record whose message matches, in order, with that record's labels and the two captured strings |
| `PassProperties.SamplePass` | exporter.py:31-44 | a non-port check followed by the quoted `check_port` record with status `"ok"` yields status 1, rx `"0"` and tx `"0"`, all labelled `[site, chassis, "swp15"]` |

## Left out

- `lookingglass` (exporter.py:16-25): the HTTP session, the authentication POST and the JSON GET are network I/O. `Collect` takes their result as a parameter: the `data` list, or the text of the exception raised on a non-OK response.
- The `__main__` block (exporter.py:58-80): it loads the YAML config, starts the HTTP server, (un)registers collectors and runs the sleep loop. This is I/O and scheduling.
- `GaugeMetricFamily` internals are not modelled: the per-sample metric name, the `dict(zip(labels, values))` label mapping, timestamps, and the float conversion done at exposition time. A family is its name, help text, label names and the list of `(labels, value)` samples.
- The yielded families are values, not shared objects. Python yields the very objects held in the fields, but the next pass replaces those objects rather than mutating them, so the values seen are the same.
- Before the first `collect`, the Python object has no `status`, `rx` or `tx` attribute (calling `get_metrics` first would raise `AttributeError`). The model starts them as the empty families; only `collect` calls `get_metrics`, and it assigns them first.
- Malformed JSON is not modelled: missing keys (`KeyError`) and non-string `check_name`, `port_status` or `message` values. The input records always carry their fields as strings.
- Whitespace follows the `str.isspace` set of recent Python 3 versions. A Python built on an older Unicode database can differ on a few code points.
- `Exporter.CollectTwice`: `collect` is modelled as never overlapping itself. The threaded exposition server started at exporter.py:73 can run two scrapes at once over the same `status`, `rx` and `tx` fields (exporter.py:50-53), and then samples of the two passes can mix. "Nothing is carried over between passes" holds for passes that do not overlap.
- Strings are sequences of Dafny `char`, which are Unicode scalar values. A Python `str` decoded by `json.loads` can hold a lone surrogate (for example `"\ud800"`), and a message holding one cannot be represented in the model.
- Check types other than `check_port` have no code in exporter.py beyond being skipped, and that skipping is modelled.
