# Visual snapshot runner: a verified model

The runner visits every URL path listed in a spreadsheet under every requested
device profile and has each page snapshotted by a visual-diff service. Almost
all of it drives a browser, a spreadsheet reader, a worker pool and a
snapshot service. This project models the sequential logic in between and
proves what it promises:

- `Naming`: the names that identify a snapshot. `test_name` is the path with
  its outer slashes stripped and each inner slash replaced by `_`, or
  `"root"`. `device_identifier` is the device name lower-cased, with spaces
  turned into `_`. `snapshot_name` joins the two with `_`.
- `Devices`: the fixed device registry (`DEVICE_CONFIGS`) and how a
  device name is resolved to an optional emulation descriptor from the
  browser engine's catalog. An unknown name raises `KeyError`.
- `Runner`: one test unit (`run_test`), modelled as the sequence of requests
  it makes of the browser and the snapshot service, plus the name it returns
  or the error it raises.
- `Scroll`: the incremental scroll loop (`slow_scroll`). The page is a height
  oracle: `height(k)` is the document height measured after `k` steps.
- `PathSource`: the loop in `read_urls_from_excel`. It keeps the truthy
  first-column values of the rows after the header.
- `Orchestrator`: the `__main__` decision. With no paths the program exits
  with status 1. Otherwise it submits the path × device cross product,
  path-major.
- `Wrappers`: `Option` and `Result`.

The comment at `test_runner.py:28` says the leading slash is removed, but
line 29 (`path.strip("/")`) strips every leading and every trailing slash;
the model follows line 29. Snapshot names are not unique to their (path,
device) pair: `Naming.SnapshotNameCollides` and
`Naming.SnapshotNameCollidesAtRoot` prove two collisions. So the model makes
no uniqueness claim about snapshot names; `Orchestrator.JobsDistinct` proves
uniqueness of the jobs only.

## Model

| member | source | states |
|---|---|---|
| `Naming.ReplaceChar` | test_runner.py:29 | single-character `str.replace`: same length, every occurrence replaced, every other character kept in place |
| `Naming.StripSlashes` | test_runner.py:29 | `strip("/")`: empty exactly when the path is all slashes; otherwise the piece right after the leading slash run, followed only by slashes, neither starting nor ending with a slash |
| `Naming.StripSlashesOfTrimmed` | test_runner.py:29 | slashes + body + slashes strips to exactly that body when the body does not start or end with a slash (all outer slashes go, not just one) |
| `Naming.TestName` | test_runner.py:29 | never empty, never contains `/`; `"root"` for an all-slash path; otherwise the stripped path with each `/` turned into `_` and every other character kept in order |
| `Naming.TestNameIsRoot` | test_runner.py:29 | the test name is `"root"` exactly when the path is all slashes or strips to `"root"` itself |
| `Naming.SingleSegment` | test_runner.py:29 | `"/" + body` has test name `body` when `body` is non-empty and has no slash |
| `Naming.TestNameProductsShoes` | test_runner.py:29 | `/products/shoes/` gives `products_shoes` |
| `Naming.TestNameDoubledSlashes` | test_runner.py:29 | `//a//b//` gives `a__b` |
| `Naming.TestNameOnlySlashes` | test_runner.py:29 | the empty path and `///` give `root` |
| `Naming.TestNameAbout` | test_runner.py:29 | `/about` gives `about` |
| `Naming.TestNameInnerSlash` | test_runner.py:29 | `/a/b` gives `a_b` |
| `Naming.TestNameUnderscore` | test_runner.py:29 | `/a_b` gives `a_b` |
| `Naming.TestNameRoot` | test_runner.py:29 | `/root` gives `root` |
| `Naming.Url` | test_runner.py:32 | the URL is the base URL followed by the path, unchanged |
| `Naming.LowerChar` | test_runner.py:51 | ASCII upper-case letters map to their lower-case letters (code point + 32); every other character is unchanged |
| `Naming.DeviceIdentifier` | test_runner.py:51 | same length as the device name, no space, no upper-case ASCII letter, spaces become `_`, every other position is the lower-cased character |
| `Naming.DeviceIdentifierIPad` | test_runner.py:51 | `iPad (gen 7)` gives `ipad_(gen_7)` |
| `Naming.DeviceIdentifierDesktop` | test_runner.py:51 | `desktop` gives `desktop` |
| `Naming.NonSlashSurvives` | test_runner.py:29 | every character of the path other than `/` is still in its test name |
| `Naming.SnapshotName` | test_runner.py:76 | the name is as long as the test name plus the device identifier plus one, with `_` right after the test name |
| `Naming.PageTitle` | test_runner.py:52 | the title is `Snapshot - `, the test name, ` - ` and the device identifier, each at its own offset |
| `Naming.QuoteBreaksTitle` | test_runner.py:52 | a single quote in the path or in the device name breaks the single-quoted title literal |
| `Naming.SnapshotNameParts` | test_runner.py:76 | a snapshot name splits into the test name, one `_` and the device identifier; its length is the sum of the parts' lengths plus one |
| `Naming.SnapshotNameExample` | test_runner.py:76 | path `/about` on `desktop` gives `about_desktop` |
| `Naming.SnapshotNameCollides` | test_runner.py:29 | `/a/b` and `/a_b` get the same snapshot name on every device |
| `Naming.SnapshotNameCollidesAtRoot` | test_runner.py:29 | the empty path and `/root` get the same snapshot name on every device |
| `Devices.ResolveDevice` | test_runner.py:39 | fails with `KeyError(name)` exactly when the name is not registered; a name mapped to no key or to the empty key gives no descriptor (default context); a registered non-empty key gives the catalog's entry for it, or none when the catalog lacks it (`dict.get`) |
| `Devices.ShippedRegistry` | test_runner.py:9-13 | with the shipped table, `desktop` resolves to no emulation and every other name raises `KeyError` |
| `Runner.ConsentStep` | test_runner.py:55-61 | the accept control is clicked exactly for a non-empty locator whose control is visible; the source swallows a failing query or click, and the model treats that as no click |
| `Runner.Opening` | test_runner.py:42-52 | a session starts with the launch, the context with the resolved emulation, the page, the navigation to the URL and the title, in that order |
| `Runner.Ritual` | test_runner.py:42-81 | a completed session is the opening, then exactly the consent requests, then scroll, widget removal and the snapshot under the given name, then closing the context and the browser |
| `Runner.RitualClicks` | test_runner.py:55-61 | the session clicks the accept control only through its consent requests |
| `Runner.RitualSnapshot` | test_runner.py:63-77 | the session's only snapshot carries the given name and comes right after the scroll and the widget removal |
| `Runner.RunTest` | test_runner.py:27-83 | an error exactly for an unregistered device or a broken title script; an unregistered device raises `KeyError` before the browser is launched; a broken title script ends the unit after the opening (navigation to base URL + path, title `Snapshot - <test name> - <device identifier>`) with no close; otherwise the unit returns the snapshot name and its requests are exactly the completed session `Runner.Ritual` (opening, consent, scroll, widget removal, snapshot, then closing context and browser) |
| `Runner.SnapshotOnce` | test_runner.py:63-83 | a unit snapshots under a name exactly when it returns that name, and takes no snapshot when it fails |
| `Runner.SnapshotLast` | test_runner.py:63-81 | the snapshot is the third-last request, right after scrolling and widget removal |
| `Runner.ConsentClicked` | test_runner.py:55-61 | the accept control is clicked exactly when the device is registered, the title script works, the locator is non-empty and the control is visible |
| `Runner.QuotedPathAborts` | test_runner.py:47-52 | a registered unit whose path holds a quote that breaks the script, such as `/it's`, fails at the title script after navigating, takes no snapshot and does not close the browser |
| `Runner.ShippedRun` | test_runner.py:9-43 | with the shipped table, `desktop` runs in the default context and returns its snapshot name exactly when its title script works; any other device fails with `KeyError` and makes no request |
| `Scroll.MaxSteps` | test_runner.py:19-20 | ceil(bound / 500) for a positive bound, 0 otherwise |
| `Scroll.SlowScroll` | test_runner.py:15-25 | on exit the position is 500 × steps and covers the last measured height; each earlier position was below its height; the scroll targets are 500, 1000, … and strictly increasing; no step when the first height is ≤ 0; at most ceil(B / 500) steps when every height is ≤ B |
| `Scroll.StopsAfterUnique` | test_runner.py:17-25 | the number of steps is determined by the page's heights |
| `Scroll.ConstantHeightSteps` | test_runner.py:17-25 | a page whose height stays h takes exactly ceil(h / 500) steps (none when h ≤ 0) |
| `Scroll.BoundedSteps` | test_runner.py:17-25 | a page whose heights never exceed B stops within ceil(B / 500) steps |
| `PathSource.DataRows` | test_runner.py:89 | the rows from the second on; none for an empty sheet |
| `PathSource.TruthyValues` | test_runner.py:88-93 | the filtered values are no more than the cells and none is empty |
| `PathSource.TruthyValuesConcat` | test_runner.py:89-92 | filtering distributes over concatenation, so row order is kept |
| `PathSource.TruthyValuesMembers` | test_runner.py:90-92 | a string is kept exactly when some cell holds it and it is not empty |
| `PathSource.ReadUrls` | test_runner.py:85-93 | the loop returns the truthy first cells of the data rows in order; each is non-empty; no more than the data rows; a string is returned exactly when a data row holds it and it is non-empty |
| `Orchestrator.JobsFor` | test_runner.py:122 | one job per device, in device order, all for the given path |
| `Orchestrator.JobsLength` | test_runner.py:114-123 | exactly \|paths\| × \|devices\| jobs |
| `Orchestrator.JobsAt` | test_runner.py:114-123 | path-major order: job i·\|devices\| + j is path i on device j |
| `Orchestrator.JobsCover` | test_runner.py:114-123 | a job is submitted exactly when its path is in the paths and its device among the devices |
| `Orchestrator.JobsDistinct` | test_runner.py:114-123 | distinct paths and distinct devices give pairwise distinct jobs |
| `Orchestrator.Schedule` | test_runner.py:107-123 | no paths means exit status 1 and nothing submitted; otherwise it submits exactly the path-major cross product `Orchestrator.Jobs`, \|paths\| × \|devices\| jobs |
| `Orchestrator.Run` | test_runner.py:106-123 | reading then scheduling: the program exits exactly when no data row has a truthy first cell |

## Left out

- Browser automation (launch, contexts, navigation, JavaScript evaluation, visibility queries, clicks): foreign I/O. Launch, context, page, navigation, the title script, the click, the widget-removal script, the snapshot and the two closes are one `Runner.Event` each. The `is_visible` query (line 57) is no event: its answer is the parameter `acceptVisible`. The whole `slow_scroll` call (lines 15-25), with its `evaluate`, `scrollTo` and `wait_for_timeout` calls, is the single `SlowScroll` event; `Runner` does not link that event to `Scroll.SlowScroll`, which models the loop on its own height oracle.
- The snapshot service call (`percy_snapshot`): an external service. It is the `Snapshot` event.
- Workbook loading (`load_workbook`, `iter_rows`): file I/O. The sheet is given as its first-column cells.
- The worker pool, completion order, per-future exception isolation and the status lines printed per unit: concurrency and console output. The model is the list of submitted jobs.
- `print`, argument parsing, `time.sleep` and `wait_for_timeout`: no logical content.
- The `mode` argument: `run_test` accepts it and never uses it.
- The per-call defaults `scroll_increment=500` and `delay`: the only caller uses the defaults, so the increment is the constant 500 and the delay is dropped.
- Naming.DeviceIdentifier: lower-cases ASCII letters only. Python's `str.lower` applies full Unicode rules, which can change the length; non-ASCII characters stay unchanged here.
- Naming.LowerChar: ASCII letters only, for the same reason.
- PathSource.ReadUrls: cells holding numbers, dates or other non-text values are not modelled; a cell is blank or text.
- Runner.RunTest: apart from the title script, navigation, the page scripts, the snapshot call and the browser never fail after the device lookup in this model. In the source such a failure skips closing the context and the browser. The model therefore does not capture that missing cleanup.
- Runner.RunTest: the title script is taken to break only on a single quote, a line feed or a carriage return in the test name or the device identifier (`Naming.TitleScriptFails`). A backslash is an escape inside the quoted literal: a valid escape changes the written title, and a trailing `\` or a malformed `\x` or `\u` escape also raises in the source. Neither is modelled. In the other direction, a quote that forms valid JavaScript (test name `'+'`, which makes the script `document.title = 'Snapshot - '+' - desktop'`) lets the source run on with another title and return its snapshot name, while the model reports `TitleScriptFailed`.
- Runner.QuotedPathAborts: holds of the model for every quoted path; in the source only a quote that breaks the script aborts the unit (see the line above).
- Runner.RunTest: when a unit raises, the `with sync_playwright()` block shuts the driver down on exit. That shutdown is foreign and is not an event here.
- Scroll.SlowScroll: termination is proved only for pages whose height never exceeds a bound. The source has no iteration cap, and a page that keeps growing makes it loop forever.
- Uniqueness of snapshot names: not claimed, because it does not hold (see `Naming.SnapshotNameCollides`).
