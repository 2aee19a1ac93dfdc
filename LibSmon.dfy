/**
 * libsmon.py: checkers with their per-check bookkeeping and next-run rule,
 * the cancellable timer, and the scheduler's bounded run history.
 * Wall-clock time is an explicit integer parameter; the result of running a
 * command is an explicit `CheckResult` parameter.
 */
module LibSmon {
  import opened Wrappers
  import opened Checks
  import Bounded

  /** `deque(maxlen=10)` for a checker's recent statuses. */
  const StatusesMaxLen: nat := 10
  const GenericCheckOutput: string := "<this is a generic check>"
  const NoOutput: string := "(no output)"

  /** The exception `MyTimer.join` raises after `cancel`. */
  datatype TimerCanceled = TimerCanceled

  /** A timer that remembers its interval and whether it was canceled. */
  class MyTimer {
    var interval: int
    var canceled: bool

    constructor (t: int)
      ensures interval == t && !canceled
    {
      interval := t;
      canceled := false;
    }

    method Cancel()
      modifies this`canceled
      ensures canceled
    {
      canceled := true;
    }

    /** Waiting for the timer ends in `TimerCanceled` exactly when it was canceled. */
    method Join() returns (r: Outcome<TimerCanceled>)
      ensures r.Fail? <==> canceled
    {
      if canceled {
        r := Fail(TimerCanceled);
      } else {
        r := Pass;
      }
    }
  }

  /** Which `check` a checker runs: the base class's, or `CMDChecker`'s. */
  datatype CheckerKind = Generic | Command(cmd: string)

  /** `CMDChecker.check`: the command's result, with an empty output replaced. */
  function CmdCheck(cmdResult: CheckResult): (r: CheckResult)
    ensures r.ok == cmdResult.ok
    ensures r.output != ""
    ensures cmdResult.output != "" ==> r.output == cmdResult.output
    ensures cmdResult.output == "" ==> r.output == NoOutput
  {
    WithDefaultOutput(cmdResult, NoOutput)
  }

  class Checker {
    const kind: CheckerKind
    var interval: int
    var name: string
    var descr: Option<string>
    /** `None` until the first check. */
    var lastChecked: Option<int>
    /** `None` stands for the class default `(None, "<no check were performed yet>")`. */
    var lastStatus: Option<CheckResult>
    /** The bounded deque of recent statuses, oldest first. */
    var statuses: seq<CheckResult>

    ghost predicate Valid()
      reads this
    {
      |statuses| <= StatusesMaxLen
    }

    constructor (kind: CheckerKind, interval: int := 60, name: string := "<no name>", descr: Option<string> := None)
      ensures Valid()
      ensures this.kind == kind && this.interval == interval && this.name == name && this.descr == descr
      ensures lastChecked == None && lastStatus == None && statuses == []
    {
      this.kind := kind;
      this.interval := interval;
      this.name := name;
      this.descr := descr;
      lastChecked := None;
      lastStatus := None;
      statuses := [];
    }

    /** Python treats both `None` and `0` as "never checked". */
    predicate NeverChecked()
      reads this
    {
      lastChecked == None || lastChecked == Some(0)
    }

    /** `check()`: the base class always reports an error; a command checker reports its command. */
    function Check(cmdResult: CheckResult): (r: CheckResult)
      ensures kind == Generic ==> r == CheckResult(ERR, GenericCheckOutput)
      ensures kind.Command? ==> r == CmdCheck(cmdResult)
      ensures kind.Command? ==> r.ok == cmdResult.ok && r.output != ""
      ensures kind.Command? && cmdResult.output != "" ==> r.output == cmdResult.output
      ensures kind.Command? && cmdResult.output == "" ==> r.output == NoOutput
    {
      match kind
      case Generic => CheckResult(ERR, GenericCheckOutput)
      case Command(_) => CmdCheck(cmdResult)
    }

    /**
     * `get_next_check`: -1 (run now) for a checker never checked; otherwise
     * the later of `now` and `last_checked + interval`.
     */
    function GetNextCheck(now: int): (t: int)
      reads this
      ensures NeverChecked() ==> t == -1
      ensures !NeverChecked() ==> t >= now && t >= lastChecked.value + interval
      ensures !NeverChecked() ==> t == now || t == lastChecked.value + interval
    {
      if NeverChecked() then -1
      else if lastChecked.value + interval < now then now
      else lastChecked.value + interval
    }

    /**
     * `_check`: run the check, remember its result and the time, push the
     * result onto the bounded status deque, and return it.
     */
    method RunCheck(now: int, cmdResult: CheckResult) returns (r: CheckResult)
      requires Valid()
      modifies this`lastStatus, this`lastChecked, this`statuses
      ensures Valid()
      ensures r == Check(cmdResult)
      ensures lastStatus == Some(r) && lastChecked == Some(now)
      ensures statuses == Bounded.Append(old(statuses), r, StatusesMaxLen)
    {
      r := Check(cmdResult);
      lastStatus := Some(r);
      lastChecked := Some(now);
      statuses := Bounded.LastN(statuses + [r], StatusesMaxLen);
    }
  }

  /** One completed run as the worker records it: `(time, status, output)`. */
  datatype HistoryEntry = HistoryEntry(time: int, ok: bool, output: string)

  class Scheduler {
    const histlen: nat
    /** The bounded deque of completed runs, newest first. */
    var history: seq<HistoryEntry>

    ghost predicate Valid()
      reads this
    {
      |history| <= histlen
    }

    constructor (histlen: nat := 10000)
      ensures Valid() && this.histlen == histlen && history == []
    {
      this.histlen := histlen;
      history := [];
    }

    /** `history.appendleft(entry)`. */
    method Record(entry: HistoryEntry)
      requires Valid()
      modifies this`history
      ensures Valid()
      ensures history == Bounded.Prepend(old(history), entry, histlen)
    {
      history := Bounded.FirstN([entry] + history, histlen);
    }
  }

  /**
   * One iteration of the worker loop: run the checker, then record the
   * result at the front of the scheduler's history.  `checkedAt` is the time
   * `_check` reads, `recordedAt` the time the history entry carries.
   */
  method WorkerStep(s: Scheduler, c: Checker, checkedAt: int, recordedAt: int, cmdResult: CheckResult)
    requires s.Valid() && c.Valid()
    modifies s`history, c`lastStatus, c`lastChecked, c`statuses
    ensures s.Valid() && c.Valid()
    ensures c.lastStatus == Some(c.Check(cmdResult)) && c.lastChecked == Some(checkedAt)
    ensures c.statuses == Bounded.Append(old(c.statuses), c.Check(cmdResult), StatusesMaxLen)
    ensures s.history == Bounded.Prepend(old(s.history), HistoryEntry(recordedAt, c.Check(cmdResult).ok, c.Check(cmdResult).output), s.histlen)
    ensures 0 < s.histlen ==> s.history[0] == HistoryEntry(recordedAt, c.Check(cmdResult).ok, c.Check(cmdResult).output)
  {
    var r := c.RunCheck(checkedAt, cmdResult);
    s.Record(HistoryEntry(recordedAt, r.ok, r.output));
  }
}
