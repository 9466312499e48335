# cypress-fail-report, modelled in Dafny

This project models the core of `cypress-fail-report`. The plugin watches a Chrome browser driven by Cypress through the Chrome debugging protocol. It collects the log entries, console messages and network traffic of each test. When a test does not pass, it writes them to a JSON report named after the test.

The model covers four parts:

- **Event store** (`event_store.dfy`, module `EventStore`). This is the single shared `events` object. It has four containers: `entry` (log records by source), `console` (console messages by level), and `network.request` and `network.response` (records by request id).
  - The class `Events` is that object. Its methods `Clear`, `LogEntry`, `LogConsole`, `LogRequest` and `LogResponse` update its fields in place, as `clearEvents`, `logEntry`, `logConsole`, `logRequest` and `logResponse` do.
  - `Clear` reassigns the fields of the same object. Every holder of the reference, such as the four protocol callbacks, therefore sees the reset.
  - Each method is proved against a pure step function on the value `Store`.
  - A ghost field `Window` holds every delivery since the last reset. The object invariant `Valid()` says the store is always `Replay(Window)`. The `Replay*` lemmas then say what each container holds in terms of the deliveries.
  - Protocol callbacks may arrive in any order. The model therefore treats them as any sequence of method calls.
- **Port resolver** (`port_resolver.dfy`, module `PortResolver`). `EnsureRdpPort` looks for the first launch argument whose first 23 characters are `--remote-debugging-port`.
  - If it finds one, it reads the port as `Number(flag.split("=")[1])` and leaves the arguments alone.
  - Otherwise it appends `--remote-debugging-port=N` with `N = 40000 + offset`, where `offset` in [0, 25000] replaces the random draw.
  - `slice`, `split`, `Number` and the decimal rendering of a number are written out. The lemmas prove that the added flag reads back as its port. Resolving again therefore gives the same port and adds nothing.
- **Report rules** (`report.dfy`, module `Report`). The `afterEach` gate asks for a report for every outcome but `"passed"`. A report's path is `./cypress/reports/<full title>.json`, and the title can be read back from the path. The `failReport` task writes the store as it stands and does not clear it.
- `wrappers.dfy` holds an `Option` type, which stands for a JavaScript value that may be `undefined`.

`install(on)` (src/index.js:19) takes no options: the options object passed at cypress/plugins/index.js:2-7 is ignored. The model follows src/index.js, in which the following do not exist:

- A host blacklist.
- "Only failed requests" pruning: requests are never deleted.
- An "always report" switch or a configurable report directory.
- Configurable console levels: the allow-list is fixed to `warning` and `error`.
- A fatal parse error for a port flag without a usable number. Instead, `Number(...)` yields `NaN` or some other number, and that value is returned.

## Model

| member | source | states |
|---|---|---|
| `EventStore.Empty` | src/index.js:56-63 | after a reset, all four containers are empty |
| `EventStore.IsAllowedConsoleLevel` | src/index.js:74 | a console level is allowed exactly when it is `"warning"` or `"error"`, the fixed list of src/index.js:4 |
| `EventStore.AddEntry` | src/index.js:65-71 | the record is appended at the end of its source's list, creating the list if the source is new; every other source's list, `console` and `network` are unchanged |
| `EventStore.AddConsole` | src/index.js:73-79 | a level off the allow-list `["warning", "error"]` leaves the store exactly as it was; an allowed level gets exactly `{args, timestamp}` appended to its list and nothing else changes |
| `EventStore.PutRequest` | src/index.js:81-85 | the id now maps to `{url, method, headers, timestamp}` (replacing any earlier record: last write wins); other ids, responses, entries and console are unchanged |
| `EventStore.SendTime` | src/index.js:90 | the send time is send end minus send start when the response has timing, and -1 when it has none |
| `EventStore.PutResponse` | src/index.js:87-100 | the id now maps to the response record whether or not a request with that id exists; `sendTime` is send end minus send start with timing and -1 without; requests and other responses are unchanged |
| `EventStore.ReplayEntries` | src/index.js:68-70 | since the last reset, the list for a source is exactly that source's log records, one per `logEntry` call and in call order, so its length is the number of such calls |
| `EventStore.ReplayConsole` | src/index.js:73-79 | since the last reset, an allowed level's list is exactly that level's messages in call order; a level off the allow-list never appears in `console` |
| `EventStore.ReplayRequest` | src/index.js:81-85 | since the last reset, the request kept for an id is the one from the last `requestWillBeSent` for it, and absent if there was none; responses never touch requests |
| `EventStore.ReplayResponse` | src/index.js:87-100 | since the last reset, the response kept for an id is the one from the last `responseReceived` for it, with no orphan check, and absent if there was none |
| `EventStore.Events.constructor` | src/index.js:19-22 | the shared object starts out reset, with an empty delivery window |
| `EventStore.Events.Clear` | src/index.js:56-63 | all four containers of the same object are emptied whatever they held, and the delivery window restarts |
| `EventStore.Events.LogEntry` | src/index.js:65-71 | the object's new value is `AddEntry` of its old value, and the invariant `Valid()` is kept |
| `EventStore.Events.LogConsole` | src/index.js:73-79 | the object's new value is `AddConsole` of its old value; a level off the allow-list leaves every field unchanged |
| `EventStore.Events.LogRequest` | src/index.js:81-85 | the object's new value is `PutRequest` of its old value, and the invariant is kept |
| `EventStore.Events.LogResponse` | src/index.js:87-100 | the object's new value is `PutResponse` of its old value, and the invariant is kept |
| `EventStore.Events.EntriesSinceClear` | src/index.js:65-71 | since the last `clearEvents`, the object's list for a source holds exactly that source's `logEntry` records, in call order |
| `EventStore.Events.ConsoleSinceClear` | src/index.js:73-79 | since the last `clearEvents`, the object's list for an allowed level holds exactly that level's messages in call order, and a disallowed level is never a key of `console` |
| `EventStore.Events.RequestSinceClear` | src/index.js:81-85 | since the last `clearEvents`, the object's request for an id is the one from the last `logRequest` for it, and absent if there was none |
| `EventStore.Events.ResponseSinceClear` | src/index.js:87-100 | since the last `clearEvents`, the object's response for an id is the one from the last `logResponse` for it, and absent if there was none |
| `PortResolver.SliceFromStart` | src/index.js:144 | `slice(0, n)` gives the first `n` characters, or the whole of a shorter string; characters are counted as Unicode scalar values, which agrees with JavaScript's UTF-16 units for the 23-character ASCII prefix test |
| `PortResolver.HasPortPrefix` | src/index.js:143-145 | an argument passes the `find` test exactly when it starts with `--remote-debugging-port` |
| `PortResolver.FirstPortFlag` | src/index.js:143-145 | `find` yields the first argument that passes the test, and nothing exactly when none does |
| `PortResolver.Split` | src/index.js:148 | `split("=")` gives at least one piece, no piece contains `=`, and joining the pieces with `=` gives back the string |
| `PortResolver.SplitOnce` | src/index.js:148 | a string with exactly one `=` splits into the text before it and the text after it |
| `PortResolver.DecimalString` | src/index.js:153 | a port renders as a non-empty run of decimal digits |
| `PortResolver.DecimalRoundTrip` | src/index.js:153 | reading back the decimal rendering of a port gives the port |
| `PortResolver.PortFlag` | src/index.js:153 | the added flag is the flag name, then `=`, then the decimal rendering of the port |
| `PortResolver.NumberOf` | src/index.js:148 | `Number` of the empty text, or of a run of decimal digits whose value is at most 2^53 (so exactly representable as a double), is that number; any other text is left unevaluated |
| `PortResolver.ParsePortFlag` | src/index.js:148 | a flag with no `=` reads as `Number(undefined)`, which is NaN; a flag with an `=` reads as `Number` of the text between its first `=` and the next one (or the end) |
| `PortResolver.FlagValueIsParsed` | src/index.js:148 | for any value without a further `=`, the flag `--remote-debugging-port=<value>` reads as `Number(value)` |
| `PortResolver.PortFlagRoundTrip` | src/index.js:148-153 | the flag the resolver adds passes the prefix test and reads back as the chosen port, for every port up to 2^53 |
| `PortResolver.ExistingFlagReadsPort` | src/index.js:147-149 | an existing `--remote-debugging-port=9222` flag reads as 9222 |
| `PortResolver.FlagWithoutValueIsNaN` | src/index.js:148 | a bare `--remote-debugging-port` flag with no `=` reads as `NaN`, not as an error |
| `PortResolver.AddedFlagIsFound` | src/index.js:142-156 | after a flag is appended to arguments that had none, it is the first port flag and reads back as its port, so a second resolution returns the same port and appends nothing |
| `PortResolver.LaunchArgs.constructor` | src/index.js:142-153 | the launch argument list that the resolver reads and grows in place starts out as the given arguments |
| `PortResolver.EnsureRdpPort` | src/index.js:142-156 | with a port flag present, it returns the port of the first one and leaves the arguments unchanged; otherwise it appends exactly one flag for port `40000 + offset` and returns that port, which lies in [40000, 65000] |
| `Report.ReportTask` | src/index.js:11-16 | the report task runs, with the test's full title, exactly when the test's state is not `"passed"` |
| `Report.ReportPath` | src/index.js:30-31 | the path is `./cypress/reports/`, then the title, then `.json` |
| `Report.ReportPathRoundTrip` | src/index.js:30-31 | the title can be read back from its report path |
| `Report.TitleOfPathSound` | src/index.js:30-31 | any path a title is read back from is that title's report path |
| `Report.ReportPathInjective` | src/index.js:30-31 | distinct titles get distinct report files |
| `Report.FailReport` | src/index.js:29-47 | the file is the title's report path, from which the title reads back; the document holds the title and the store as it stands, and the store is not changed |

## Left out

- The connection manager (`browserLaunchHandler` and its `tryConnect` retry loop, src/index.js:103-139) is not modelled. It makes asynchronous debugging-protocol calls and retries every 100 ms through a timer. Apart from `EnsureRdpPort`'s append, it returns the launch options unchanged. Its choice between `launchOptions.args` and `launchOptions` itself is not modelled either.
- Directory creation and file writing (`fs.mkdir`, `fs.writeFileSync`, src/index.js:40-44) are filesystem I/O and are left out. So is the serialisation to JSON. `FailReport` gives the path and the document value only.
- The Cypress wiring (`beforeEach`, `afterEach`, `cy.task`, and the `on(...)` registration) belongs to the test runner. Only the outcome gate (`ReportTask`) and the store operations the tasks call are modelled.
- The random draw `Math.round(Math.random() * 25000)` is not modelled. It becomes the parameter `offset`, which is required to lie in [0, 25000], the range the draw produces.
- Timestamps and the send start and end times are floating-point numbers in the protocol. They are modelled as exact reals, so rounding in `sendEnd - sendStart` is not modelled.
- `debugLog` only writes to the console and is left out.
- JavaScript objects are modelled as plain maps. A key that names an inherited property (such as `constructor`) is not modelled. The `in` test would find such a key on a fresh object, where the model treats it as absent.
- Protocol payload fields that the callbacks do not read are omitted. A console argument (a protocol remote object) is reduced to a string.
- `NumberOf`: `Number(text)` is computed only for the empty text and for runs of decimal digits whose value is at most 2^53. Any other text gives `Unevaluated(text)` instead of its JavaScript value, which may be a number or `NaN`. That covers signs, surrounding spaces, hexadecimal, exponents, fractions and garbage. It also covers digit runs above 2^53, which `Number` rounds to the nearest double, or to `Infinity` past about 309 digits. No valid port is that large.
- `ReportPath`: only the path string is modelled. A title containing `/`, or characters a file system refuses, is not treated specially.
- `PortFlagRoundTrip`, `AddedFlagIsFound`: both are stated only for ports up to 2^53. A larger port would not read back exactly through `Number`. The resolver only ever adds ports in [40000, 65000].
- `ParsePortFlag`: a flag with an `=` reads as `Number` of its value through `NumberOf`. When that value is not a run of digits worth at most 2^53, the result is `Unevaluated`, which may stand for NaN (for `--remote-debugging-port=abc`, say) as well as for a number.
- `SliceFromStart`: strings are sequences of Unicode scalar values, whereas JavaScript's `slice` counts UTF-16 code units. The two differ on characters outside the Basic Multilingual Plane. The only use compares against a 23-character ASCII name, so the prefix test is unaffected.
