# smon in Dafny

A model of *smon*, a small service monitor, and proofs about it. It has three parts:

- **libsmon.py**: the checker library. A checker remembers its last status, when it last ran, and its ten
  most recent statuses. It works out when it is next due. A command checker swaps an empty command output
  for `"(no output)"`. `MyTimer` remembers whether it was canceled and raises `TimerCanceled` from `join`
  if it was. The scheduler keeps a bounded history of completed runs, newest first.
- **smon.py**: the HTTP endpoint `/`. It runs every `check_*` method of the monitor and answers with the
  outputs joined by newlines: code 200 if every check was OK, 504 otherwise. `check_mdraid` swaps an empty
  mdadm output for `"no raid configured?"`.
- **static/script.js**: the browser client. On open it sends `LIST`. The first message it can parse is
  rendered into `#checks`, one block and one separator per record. The client then sends `LIST` again and
  replaces its own message handler with one that only logs. From then on it is stalled.

Modules, one per file:

| file | module | models |
|---|---|---|
| Wrappers.dfy | `Wrappers` | `Option` (Python's `None`, a failed parse) and `Outcome` (a call that may raise) |
| Checks.dfy | `Checks` | the `(status, output)` pair both Python files use, and the "output or a default" rule |
| Bounded.dfy | `Bounded` | `collections.deque(maxlen=n)` as a sequence: `append`, `appendleft`, and what repeated use keeps |
| LibSmon.dfy | `LibSmon` | classes `MyTimer`, `Checker`, `Scheduler` and one iteration of the worker loop |
| Smon.dfy | `Smon` | `check_mdraid`, the `all()` loop, `"\n".join` and its inverse |
| Client.dfy | `Client` | the client as a `View` value with step functions, a `Page` class whose methods are proved against them, and lemmas over any sequence of socket events |

Modelling choices:

- Time is an integer parameter. The worker step takes two: the time `_check` records, and the time the
  history entry records.
- A command's result is a `CheckResult` parameter, since running it is a subprocess call.
- `CMDChecker` is a subclass in Python. Here it is a `Checker` whose `const kind` is `Command(cmd)`.
  `Check` dispatches on `kind`.
- `last_checked` is `Option<int>`. A checker counts as never checked when it is `None` or `0`, because
  Python's `not self.last_checked` is true for both.
- `last_status` is `Option<CheckResult>`. `None` stands for the class default
  `(None, "<no check were performed yet>")`.
- `dir(monitor)` is a parameter: a sequence of attribute names, each with the result calling it would
  return. Only attributes named `check_…` are ever called.
- Parsing a message is abstract. It gives `None` when `$.parseJSON` throws, or when the parsed value is one
  `for ... of` cannot iterate (such as `null`, a number or a plain object), since the handler then throws
  before rendering anything. Otherwise it gives the items the loop iterates; a parsed string is iterated
  character by character, so the payload `""` is `Some([])`.
- An item is `Malformed` exactly when the `[name, tstamp, [status, out]]` destructuring throws on it, that is
  when the item or its third element is not iterable. The records before it are rendered and the rest of the
  handler does not run. Every other item is a `Wellformed` record holding the text jQuery would set for each
  field: a string such as `"abc"`, a short third element, numbers, and extra elements are all well formed.
- The stall after the first message is kept as the code has it. The handler slot is the `Handler` datatype.
  The three client phases `AwaitingOpen`, `Active` and `Stalled` come from the slot and the socket's open flag.

## Model

| member | source | states |
|---|---|---|
| `Checks.WithDefaultOutput` | libsmon.py:104 | the status is kept; an empty output becomes the fallback; a non-empty output passes through unchanged |
| `Checks.WithDefaultOutputSettles` | smon.py:23 | with a non-empty fallback the output is never empty, and substituting twice equals substituting once |
| `LibSmon.CmdCheck` | libsmon.py:102-104 | `CMDChecker.check` keeps the command's status, turns an empty output into `"(no output)"`, and passes a non-empty output through |
| `LibSmon.MyTimer.constructor` | libsmon.py:40-43 | the timer keeps `interval == t` and starts not canceled |
| `LibSmon.MyTimer.Cancel` | libsmon.py:45-47 | after `cancel` the `canceled` flag is set and the interval is unchanged |
| `LibSmon.MyTimer.Join` | libsmon.py:49-52 | `join` raises `TimerCanceled` exactly when `canceled` is set |
| `LibSmon.Checker.constructor` | libsmon.py:57-66 | defaults interval 60 and name `"<no name>"`; never checked, no status yet, empty status deque |
| `LibSmon.Checker.Check` | libsmon.py:79-80 | the base check always reports ERR with `"<this is a generic check>"`; a command checker's result is `CmdCheck` of the command's result: its status, its output, or `"(no output)"` when that is empty |
| `LibSmon.Checker.GetNextCheck` | libsmon.py:82-90 | -1 when never checked (`None` or 0); otherwise never before `now` and never before `last_checked + interval`, and always one of the two |
| `LibSmon.Checker.RunCheck` | libsmon.py:69-77 | `_check` returns the check's result, stores the same value as `last_status`, sets `last_checked` to the time given, and appends the result to the bounded `statuses` deque |
| `LibSmon.Scheduler.constructor` | libsmon.py:112-119 | the history starts empty with the given bound (default 10000) |
| `LibSmon.Scheduler.Record` | libsmon.py:165 | `history.appendleft`: the history stays within `histlen`, and the new entry goes in front |
| `LibSmon.WorkerStep` | libsmon.py:161-165 | one worker iteration updates the checker as `_check` does, and puts `(time, status, output)` of that same result at the front of the history |
| `Bounded.Append` | libsmon.py:76 | `statuses += [s]` on `deque(maxlen=10)`: grows by one while not full; when full the oldest item is dropped and the rest keep their order; never over the bound |
| `Bounded.Prepend` | libsmon.py:165 | `appendleft` on a bounded deque: grows at the front while not full; when full the last item is dropped; never over the bound |
| `Bounded.AppendAllKeepsNewest` | libsmon.py:66 | after any number of appends the status deque holds exactly the 10 most recent results, oldest first |
| `Bounded.PrependAllKeepsNewestFirst` | libsmon.py:119 | after any number of prepends the history holds exactly the `histlen` most recent entries, newest first |
| `Smon.CheckMdraid` | smon.py:21-23 | keeps the mdadm status; an empty output becomes `"no raid configured?"`; a non-empty output passes through |
| `Smon.Outputs` | smon.py:36 | each called check contributes exactly one output line, in order |
| `Smon.SelectedExactly` | smon.py:31-34 | an attribute is called if and only if its name starts with `check_` |
| `Smon.All` | smon.py:28-37 | the body is the called checks' outputs joined by `"\n"` in enumeration order; the code is 200 or 504, and 200 exactly when every called check returned OK |
| `Smon.SplitJoin` | smon.py:37 | when no output contains a newline, splitting the body on newlines gives back each check's output in order |
| `Smon.JoinSplit` | smon.py:37 | joining the newline-separated pieces of any body gives the body back |
| `Client.Render` | static/script.js:6-22 | N records append exactly 2N children |
| `Client.RenderAt` | static/script.js:8-22 | the 2i-th appended child is the i-th record's block and the next is a separator; a block is `"check ok"` whatever the status, holding name, timestamp and output |
| `Client.FirstMalformed` | static/script.js:6-7 | the loop reaches exactly the entries before the first malformed one |
| `Client.Records` | static/script.js:7 | the records of well-formed entries, one per entry, in order |
| `Client.Page.constructor` | static/script.js:2 | the page starts with the container as loaded, nothing sent, socket not yet open, first handler installed |
| `Client.Page.DisplayList` | static/script.js:5-33 | appends, after the existing children, a block and a separator for each entry in order, up to the first malformed one; it completes exactly when every entry is well formed |
| `Client.Page.OnOpen` | static/script.js:35-37 | the open handler sends `LIST` once and marks the socket open |
| `Client.Page.OnMessage` | static/script.js:39-48 | the page changes as the message step function says: parse, render, send `LIST`, install the nested handler; an exception stops it where it is |
| `Client.OpenSendsList` | static/script.js:35-37 | opening a waiting page sends exactly `"LIST"`, renders nothing, and makes it Active |
| `Client.FirstMessage` | static/script.js:39-47 | the first well-formed list of N records appends 2N children after the old ones in record order, sends `"LIST"` once and stalls the page; with N = 0 it appends nothing but still sends |
| `Client.ParseFailureChangesNothing` | static/script.js:40 | a message that does not parse renders nothing, sends nothing and keeps the handler |
| `Client.MalformedEntryStopsHandler` | static/script.js:40-45 | a malformed entry in the first message renders the entries before it, sends nothing and keeps the first handler |
| `Client.StalledStaysStill` | static/script.js:45-47 | once the nested handler is installed, no sequence of messages renders or sends anything |
| `Client.AppendOnly` | static/script.js:21-22 | over any sequence of events the container only grows at its end |
| `Client.AtMostOneReply` | static/script.js:35-47 | over any sequence of events only `"LIST"` is sent: exactly once per open, and at most once more in reply to all messages together |

## Left out

- `run_cmd` (libsmon.py:15-22) and `check` (smon.py:10-17): running a subprocess is outside the model; its result is a parameter.
- `Scheduler.schedule` and `Scheduler.run` (libsmon.py:124-146) and the blocking queue reads in `Worker.run`: daemon threads, `PriorityQueue`, `Queue`, `Lock` and timer sleeps are concurrency. Only the history update and the checker update of one worker iteration are modelled.
- `Scheduler.__init__` also starts worker threads and creates a placeholder `MyTimer(0)`; neither is modelled.
- `MyTimer` start, sleep and firing (`threading.Timer`): only the `canceled` flag and `interval` are modelled.
- The "behind schedule" log in `_check` (libsmon.py:70-73): logging only. Time is an integer, not a float.
- `Checker.__lt__` (libsmon.py:92-94): always `True`; it exists only so `PriorityQueue` can compare checkers.
- The global `all_checks` registration (libsmon.py:55-62), `Log` and `logfilter`: side effects only.
- `CMDChecker.__repr__` (libsmon.py:106-107): a display string.
- The `print` on smon.py:32, the bottle route and server (smon.py:27, smon.py:40-41), the WebSocket transport, jQuery element construction, `$.parseJSON` itself and `console.log` on script.js:46.
- `Smon.All` takes the attribute listing as given. That `dir` lists names in sorted order is not modelled.
- The conversion from a parsed item to the text jQuery sets (destructuring a string or short array, `undefined` leaving a field empty, numbers turned into text) is outside the model. A `Wellformed` record holds its result.
- Whether the browser delivers a sent message is not modelled: every `ws.send` is appended to the log. `onopen` runs only on an open socket, and a closing or closed socket discards data without throwing.
- setup.py (packaging metadata) and tests.py (timing-based threaded runs with no assertions).
