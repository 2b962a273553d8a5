# Franklin performance logger — a Dafny model

`index.js` of the Franklin performance logger plugin is a single browser module.
`init(options)` writes a start-up record to the console. It then merges the
caller's options over `DEFAULT_OPTIONS` and, inside one `try`, registers a
`PerformanceObserver` for every enabled tracker:

- DOMContentLoaded/load (`dcl`)
- first contentful paint (`fcp`)
- first paint (`fp`)
- first input delay (`fid`)
- largest contentful paint (`lcp`)
- layout shifts (`cls`)
- long tasks (`tbt`)
- resources (`resources`)

Each observer's callback writes one styled `log` record per reported entry. Some
callbacks add auxiliary lines: the input target, the LCP element, the rectangles
and node of every layout-shift source, and the entry as JSON when `debug` is set.

The model has these modules, one per file:

- `Js`: JavaScript values, truthiness, `||` and property reads.
- `Strings`: `padStart`, integer `toString` and its parse-back, `toFixed(2)` of an integer.
- `Labels`: `LABEL_COLORS` and the label colour rule of `log`.
- `Entries`: the performance entries, one variant per observed type.
- `Console`: the console lines. A record's rendered text reads back to its time, kind and message.
- `Config`: `DEFAULT_OPTIONS` and the object spread that merges the caller's options.
- `Trackers`: the lines each tracker's callback writes for one entry and for a batch.
- `Registration`: what `init` leaves registered, for every configuration and every set
  of entry types the host rejects. The two paint trackers observe the same type, so a
  host that rejects `paint` rejects both.
- `Logger`: the page as a class.
  - Its fields are the console and the registered observers.
  - `Init` performs the registration blocks one after the other.
  - `Deliver` runs a callback's `forEach` loop over a batch.
  - Each is proved against the functions of `Registration` and `Trackers`.
- `AsWritten`: the callbacks as the code reads `options.debug` and `node.nodeType`, with the
  caller's `options` taken as a value fixed at `init`.
  Two ways they throw are recorded under Findings below.

The rest of the model uses the corrected behaviour:

- the callbacks read `debug` from the merged configuration;
- a source whose node is null is logged as `null`.

In the code all eight registrations sit in one `try` block. An exception from
`observe({ type: 'longtask' })` therefore skips the `resources` registration after it
too. The model follows the code: `Registration.LongTaskRejectionLosesResources` shows
that with the defaults and only `longtask` rejected, `resources` is not registered.

## Model

| member | source | states |
|---|---|---|
| Js.Or | index.js:38 | `a \|\| b` is truthy iff either operand is; it is `a` whenever `a` is truthy and `b` whenever `a` is falsy |
| Js.Get | index.js:170-191 | reading `config.<flag>` (or `options.debug`, index.js:62) gives `undefined` for a missing property and the stored value for a present one |
| Labels.LabelColor | index.js:38 | the colour is always truthy: the override when truthy, else the table's colour for the type, else the `misc` colour |
| Labels.LabelColorFromTable | index.js:13-23 | without an override, the label colour is one of the `LABEL_COLORS` strings |
| Strings.PadStart | index.js:48-50 | the input is kept when it is long enough or the filler is empty; otherwise the result has the target length, ends with the input and is filled with the repeated filler |
| Strings.IntToString | index.js:40 | an integer's text is non-empty and made of digits and `-`; it is all digits iff the integer is non-negative, has no leading zero except for 0 itself, and a negative one is `-` followed by digits not starting with 0 |
| Strings.IntToStringRoundTrip | index.js:40 | parsing an integer's text gives the integer back |
| Strings.Fixed2 | index.js:57 | `toFixed(2)` of an integer ends in `.00`, and the text before `.00` parses back to the integer |
| Config.Merge | index.js:168 | the merged keys are the defaults' keys plus the caller's; a caller's key keeps the caller's value, and every other default keeps its default |
| Config.Enabled | index.js:170-191 | `if (config[key])` holds iff the key is present with a truthy value; a missing key reads as `undefined` and is off |
| Config.EnabledAfterMerge | index.js:25-35 | a flag the caller sets is enabled iff its value is truthy; one the caller leaves out is enabled iff it is a default other than `debug` |
| Config.ExplicitUndefinedDisables | index.js:168 | a default flag given explicitly as `undefined` is `undefined` after the spread and so disabled |
| Config.DebugOfObjectAgreesWithMerge | index.js:62 | with an options object, the raw `options.debug` and the merged `config.debug` have the same truthiness |
| Console.Log | index.js:37-45 | a record carries the time, type and message given, and a truthy colour: the override when truthy, else the type's label colour |
| Console.TimeColumn | index.js:40 | the time column is at least 5 wide, ends with the time's digits and is space-padded on the left |
| Console.TimeColumnReadsBack | index.js:40 | trimming the padding of the time column and parsing it gives the time back |
| Console.ParseLabelWords | index.js:40 | the text after the time column reads back as the type label and the message |
| Console.RecordText | index.js:40 | the rendered record is the time column (at least 5 wide), one space, the type, one space, then the message |
| Console.RecordTextRoundTrip | index.js:39-40 | a record's rendered text reads back to its time, type and message |
| Trackers.ObservedType | index.js:67-163 | the `type` passed to `observe` (index.js:67, 79, 92, 105, 126, 138, 150, 163) is `paint` exactly for the two paint trackers |
| Trackers.SharedTypeIsPaint | index.js:79-150 | two different trackers observe the same type only if they are `fcp` (index.js:79) and `fp` (index.js:150) |
| Trackers.ObservesByType | index.js:52-164 | a tracker receives exactly the entries of the type it observes |
| Trackers.DebugLines | index.js:62-64 | `if (options.debug) console.log(JSON.stringify(entry))` writes one line, the entry's JSON, with `debug`, and nothing without it |
| Trackers.Reports | index.js:72 | the `fcp` tracker reports a paint entry iff it is named `first-contentful-paint`, the `fp` tracker (index.js:143) iff it is named `first-paint`, and every other tracker reports every entry |
| Trackers.NavigationLines | index.js:55-64 | a truthy `loadEventStart` gives a dark-red `load` record at that time reading `<name>. Load handler took <loadEventEnd - loadEventStart, two decimals>ms`; otherwise a `dcl` record at `domContentLoadedEventStart` reading `<name>. DomContentLoaded handler took <duration, two decimals>ms`; then the debug line |
| Trackers.NavigationRecords | index.js:55-61 | a navigation entry gives exactly one record |
| Trackers.PaintLines | index.js:72-76 | a paint entry with another name writes nothing; one with the wanted name writes an empty-message record of the tracker's type at its start time, then the debug line |
| Trackers.PaintRecords | index.js:143-147 | a paint entry gives one record when its name is the one filtered for, and none otherwise |
| Trackers.FirstInputLines | index.js:84-90 | a `fid` record at the start time reading `<name> took <duration>ms`, then the event target, then the debug line |
| Trackers.FirstInputRecords | index.js:85-86 | a first-input entry gives exactly one record |
| Trackers.LargestContentfulPaintLines | index.js:97-103 | an `lcp` record whose message is the URL, then the element, then the debug line |
| Trackers.LargestContentfulPaintRecords | index.js:98-99 | an LCP entry gives exactly one record |
| Trackers.Pad4 | index.js:117-118 | a coordinate is padded to at least 4 characters, ends with its text, is filled with spaces before it, and holds only spaces, `-` and digits |
| Trackers.RectRow | index.js:117-118 | a row is the padded `top`, `right`, `bottom` and `left` in that order, each followed by exactly one space except the last, whatever their widths; it is at least 19 characters long and holds only spaces, `-` and digits |
| Trackers.RectText | index.js:116-118 | the text is the `from:` label and row, one line break, then the `to:` label and row, and that line break is the only one |
| Trackers.TwoLines | index.js:116-118 | two rows without line breaks under the `from:` and `to:` labels form exactly two lines |
| Trackers.RectRowColumns | index.js:117-118 | for coordinates that fit the column, the four padded values sit at fixed columns separated by single spaces |
| Trackers.RectTextColumns | index.js:116-118 | the `from` row and the `to` row sit at fixed positions on two lines |
| Trackers.InspectedNode | index.js:119 | a text node is replaced by its parent element, any other node is logged itself, and a null node stays null |
| Trackers.SourceLines | index.js:113-122 | a source writes its rectangles, the inspected node and, with `debug`, the entry |
| Trackers.LayoutShiftLines | index.js:110-124 | a `cls` record with the rounded score and `ms` at the start time, then the lines of every source in order |
| Trackers.SourcesLinesAt | index.js:112-123 | source `j`'s lines sit at a fixed block of the output, so no source is lost or reordered |
| Trackers.SourcesLines | index.js:112-123 | the inner `forEach` writes 2 lines per source, or 3 with `debug`, and none of them is a record |
| Trackers.SourcesLinesCounts | index.js:112-123 | the sources write no record, and one JSON line per source with `debug` |
| Trackers.LayoutShiftFanOut | index.js:110-124 | a layout shift gives exactly one record, and as many debug lines as it has sources |
| Trackers.LongTaskLines | index.js:131-135 | a `tbt` record at the start time whose message is the duration and `ms`, then the debug line |
| Trackers.LongTaskRecords | index.js:132 | a long task gives exactly one record |
| Trackers.BlockingSuffix | index.js:156 | a render-blocking resource gets ` (by <initiator>, blocking)`, and any other resource gets nothing |
| Trackers.ResourceLines | index.js:155-160 | a `load` record at start time plus duration whose message is the name followed by the blocking suffix, which is non-empty iff the resource is render-blocking |
| Trackers.ResourceRecords | index.js:157 | a resource gives exactly one record |
| Trackers.EntryLinesHead | index.js:52-164 | a reported entry's lines start with a record of the tracker's type, and an entry that is not reported writes nothing |
| Trackers.EntryLinesRecords | index.js:52-164 | an entry gives one record iff its tracker reports it, and none otherwise |
| Trackers.CountsOfJoin | index.js:53-65 | the records and JSON lines of joined output add up |
| Trackers.BatchLinesSnoc | index.js:54 | a batch with one more entry writes that entry's lines after the others |
| Trackers.BatchLinesPrefix | index.js:54 | the lines of the first `i+1` entries are those of the first `i` followed by entry `i`'s |
| Trackers.BatchLinesOfJoin | index.js:54 | two consecutive parts of a batch write their lines one after the other |
| Trackers.EntryLines | index.js:52-164 | a tracker writes nothing for an entry exactly when it does not report it |
| Trackers.BatchLines | index.js:53-65 | a batch writes exactly one record per reported entry |
| Trackers.BatchLinesJoinStep | index.js:54 | extending the second part of a batch by one entry appends that entry's lines |
| Registration.Rank | index.js:169-193 | every tracker has one position in the registration order |
| Registration.SwitchedOn | index.js:170-191 | a tracker is switched on iff its configuration flag is truthy |
| Registration.Refused | index.js:67-163 | a tracker's `observe` throws iff the entry type it observes is one the host rejects |
| Registration.PaintTrackersRefusedTogether | index.js:79-150 | `fcp` (index.js:79) and `fp` (index.js:150) both observe `paint`, so the host rejects either both or neither |
| Registration.OnlyLongTaskRefused | index.js:138 | a host that rejects only `longtask` rejects exactly the long-task tracker |
| Registration.Run | index.js:169-196 | the blocks only append to what is registered, at most one tracker per block, and only switched-on trackers of the list |
| Registration.Step | index.js:169-196 | after an earlier throw, or for a disabled tracker, nothing changes; a rejected type stops the `try`; otherwise the tracker is registered |
| Registration.FirstRejected | index.js:169-196 | the position of the first switched-on tracker whose type is rejected, or the end of the order |
| Registration.RegisteredOn | index.js:169-196 | a tracker is registered iff it is switched on and no switched-on tracker at or before it in the order is rejected |
| Registration.Registered | index.js:168-196 | a tracker is registered iff its merged flag is truthy and no tracker with a truthy flag at or before it observes a rejected type |
| Registration.KeptMembers | index.js:170-191 | the switched-on trackers of a list are exactly those that are in the list and switched on |
| Registration.RunStopped | index.js:194-196 | once a registration has thrown, the remaining blocks change nothing |
| Registration.RunRegisters | index.js:169-196 | a run registers the switched-on trackers before the first rejection, in order |
| Registration.RegisteredIsEnabledPrefix | index.js:169-196 | `init` registers exactly the switched-on trackers that come before the first rejected one, in the fixed order |
| Registration.NoRejectionRegistersAllEnabled | index.js:169-193 | when no switched-on tracker is rejected, every switched-on tracker is registered, in order |
| Registration.RejectionAbortsLater | index.js:169-196 | a switched-on tracker whose type is rejected is not registered, and no tracker after it is either |
| Registration.DefaultsEnable | index.js:25-35 | with an empty options object every tracker flag is enabled |
| Registration.DefaultsSwitchAllOn | index.js:25-35 | with an empty options object every tracker is switched on |
| Registration.EmptyOptionsRegisterAll | index.js:166-193 | with an empty options object and a host that accepts all types, all eight trackers register in order |
| Registration.OneFlagOff | index.js:168-193 | setting one tracker's flag to `false` switches off that tracker and no other |
| Registration.AllButClsRegister | index.js:185-187 | with only `cls` switched off, the other seven register in order |
| Registration.ClsOffRegistersAllButCls | index.js:185-187 | `{ cls: false }` registers every tracker except the layout-shift tracker |
| Registration.TbtRejectedRun | index.js:188-196 | with every tracker on and `longtask` rejected, the first six register and `resources` does not |
| Registration.LongTaskRejectionLosesResources | index.js:188-196 | with the defaults and a host that rejects only `longtask`, the first six trackers register and `resources` does not |
| Logger.RunOrderUnrolled | index.js:169-193 | the registration run over the fixed order is the eight blocks one after the other |
| Logger.Page.Observe | index.js:53-67 | `observe` throws iff the tracker's observed entry type is one the host rejects; otherwise it adds the observer, and the console is unchanged |
| Logger.Page.Block | index.js:170-172 | one `if (config.flag)` block performs one registration step and registers the observer iff that step registers the tracker |
| Logger.Page.Init | index.js:166-197 | `init` appends exactly the start-up record at the given time, and registers exactly the observers that the registration run gives for the merged configuration and the host's rejected types, each reading the merged `debug` |
| Logger.Page.WriteSources | index.js:112-123 | the inner `forEach` appends every source's lines in order |
| Logger.Page.WriteLayoutShift | index.js:110-124 | the layout-shift callback appends the score record and every source's lines for one entry |
| Logger.Page.WriteEntry | index.js:52-164 | a callback appends exactly the tracker's lines for one entry |
| Logger.Page.WriteNext | index.js:54 | one iteration of `forEach` appends entry `i`'s lines after those of the entries before it |
| Logger.Page.Deliver | index.js:53-65 | a callback appends exactly the lines of the whole batch, in delivery order, and leaves the observers unchanged |
| AsWritten.ReadDebug | index.js:62 | reading `options.debug` fails iff `init` got no argument; with an object, it agrees with the merged flag |
| AsWritten.SourceOutcome | index.js:113-122 | one source as written throws iff `SourceThrows` (its node is null or `init` got no argument); its output is a prefix of the corrected lines, and equal to them when it does not throw |
| AsWritten.SourceOutcomeBeforeThrow | index.js:116-120 | a source that throws has written its shift-source line alone when its node is null (the throw is at `node.nodeType`), and that line plus the rect rows when `init` got no argument (the throw is at `options.debug`) |
| AsWritten.SourcesOutcome | index.js:112-123 | the inner `forEach` as written stops at the first throw; its output is a prefix of the corrected lines, and equal to them when nothing throws |
| AsWritten.EntryOutcome | index.js:52-164 | one entry as written throws iff `EntryThrows`; it writes a prefix of the corrected lines, and exactly them when nothing throws |
| AsWritten.EntryOutcomeBeforeThrow | index.js:52-164 | any callback other than the layout shift's throws at `options.debug`, after everything else it logs, so what it wrote is its lines with the debug flag off; a layout shift writes its `cls` record, then what its sources write |
| AsWritten.FirstThrowing | index.js:112-123 | the position of the first source that throws as written, or the number of sources when none does |
| AsWritten.FirstThrowingEntry | index.js:54 | the position of the first entry whose callback as written throws, or the length of the batch when none does |
| AsWritten.BatchOutcome | index.js:53-65 | a batch as written throws iff some entry throws; it writes a prefix of the corrected lines, exactly them when nothing throws, and otherwise every entry before the first throwing one in full followed by what that entry wrote |
| AsWritten.FirstThrowingEntryStopped | index.js:54 | once an entry has thrown, a further entry leaves the first throwing position unchanged |
| AsWritten.SourcesAgree | index.js:112-123 | when every source has a node, the code as written writes the same lines as the model and does not throw |
| AsWritten.EntryAgrees | index.js:52-164 | with an options object, and a node for every source, an entry's lines as written equal the model's |
| AsWritten.AgreesWithOptionsAndNodes | index.js:166-171 | with an options object, and a node for every layout-shift source, a callback as written writes exactly the model's lines and never throws |
| AsWritten.NoOptionsDebugOff | index.js:25-35 | without an argument the merged `debug` flag is off |
| AsWritten.TwoLongTasks | index.js:131-135 | a batch of two long tasks writes both tasks' lines: two records |
| AsWritten.NoOptionsLosesRestOfBatch | index.js:133 | after `init()`, a two-task batch writes one record and throws, where the merged configuration writes two records |
| AsWritten.NoOptionsStopsAfterFirst | index.js:131-135 | after `init()`, a two-task batch as written writes the first task's record and then throws |
| AsWritten.NoOptionsLongTask | index.js:133 | after `init()`, a long task as written writes its record and then throws |
| AsWritten.BatchOutcomeStopped | index.js:53-65 | once an entry has thrown, the later entries of the batch write nothing |
| AsWritten.NullNodeLosesRestOfBatch | index.js:119 | a layout shift whose first source has a null node writes the score and one rectangle pair, then throws; the second source is lost |
| AsWritten.NullNodeOutcome | index.js:119 | as written, that layout shift writes the score and the first rectangle pair, then throws |
| AsWritten.NullNodeCorrectedLines | index.js:112-123 | corrected, that layout shift writes the score and both sources, the null node logged as `null` |

## Left out

- The `PerformanceObserver` API is not modelled. The host is represented by two
  parameters: the set of entry types it rejects in `observe` (`types` of
  `Logger.Page.Init`), and the batches it delivers to `Logger.Page.Deliver`. Buffered delivery, its timing and its
  asynchrony are not modelled.
- `getEntriesByName` of the paint trackers is modelled as a filter on the entry's name.
  Both paint trackers receive every paint entry.
- The wall clock is not modelled. `new Date() - performance.timeOrigin` is the parameter
  `now` of `Logger.Page.Init`.
- Floating point is not modelled. Times, durations and rectangle coordinates are
  integers, so `Math.round` is the identity.
  - `Strings.Fixed2` is `toFixed(2)` only for integers.
  - The layout-shift score is kept as its already rounded text `scoreText`.
    `Math.round(value * 100000) / 100000` is not modelled.
- The CSS strings of the styled `console.log` are not modelled. Only the label colour
  they carry is kept.
- `JSON.stringify(entry)` and the console's rendering of DOM nodes are not modelled as
  text. They are lines that hold the entry or the node.
- `Trackers.RectTextColumns`: the fixed columns are stated only for coordinates whose
  text fits in four characters. A longer value widens its column, as `padStart` does.
- Option values are booleans, strings, numbers, `undefined` and `null`. `NaN` and
  object values are not modelled. Neither is a primitive passed as `options`. Its
  spread adds no flag key, but a non-empty string adds its index keys `"0"`, `"1"`, ….
- Inherited properties of `LABEL_COLORS`, such as a type named `toString`, are not modelled.
- Registration: the observed entry-type strings are fixed per tracker and are not read
  from configuration.
- `Logger.Page.Observe`: a rejected entry type is the only way `observe` fails.
- `Logger.Page.Init`: the model reads `debug` once, at `init`, from the merged configuration.
  The code hands the caller's own `options` object to every tracker and reads
  `options.debug` at each delivery (index.js:62, 74, 87, 100, 120, 133, 145, 158).
  A caller that changes `debug` on that object after `init` turns the JSON lines on or
  off. This live read through a shared object is not modelled.

## Findings

| source | as written | input that shows it | evidently intended | confidence | as-written member | corrected member |
|---|---|---|---|---|---|---|
| index.js:171 | every tracker is called with the raw `options`, and its callback reads `options.debug` at each delivery (for example index.js:133), so it also follows later changes the caller makes to that object | `init()` with no argument, then a batch of two long tasks: the first record is written, then reading `debug` of `undefined` throws and the second task is lost | the callbacks read `debug` from the merged `config`, which is `false`, and write both records | not executed | AsWritten.NoOptionsLosesRestOfBatch | Logger.Page.Init |
| index.js:119 | `node.nodeType` is read with no null check, although a layout-shift source's node is null once the node has left the document | a layout shift whose first source has a null node and whose second has a node: the score and the first rectangles are written, then the read throws and the second source is lost | a null node is logged as `null` and the remaining sources are written | not executed | AsWritten.NullNodeLosesRestOfBatch | Trackers.SourcesLinesAt |
