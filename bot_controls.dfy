/** The bot control panel: status indicator, Start/Stop buttons, uptime and
    loss notices, and the state updates of polling and of the two commands.
    Each `async` handler is one step from the state before its first `await`
    to the state after its `finally`; the REST calls are inputs. */
module BotControls {
  import opened Types
  import opened Wrappers

  /** The component's state: `status`, `loading`, `error`. */
  datatype Controls = Controls(status: Option<BotStatus>, loading: bool, error: Option<string>)

  const Mounted: Controls := Controls(None, false, None)

  const FetchFailed: string := "Failed to fetch bot status"
  const StartFailed: string := "Failed to start bot"
  const StopFailed: string := "Failed to stop bot"

  /** `getStatusColor()`. */
  function StatusColor(status: Option<BotStatus>): (cls: string)
    ensures status.None? ==> cls == "bg-gray-500"
    ensures status.Some? && StateName(status.value.state) == "running" ==> cls == "bg-green-500"
    ensures status.Some? && StateName(status.value.state) == "idle" ==> cls == "bg-yellow-500"
    ensures status.Some? && StateName(status.value.state) == "error" ==> cls == "bg-red-500"
    ensures status.Some? && StateName(status.value.state) == "stopping" ==> cls == "bg-orange-500"
    ensures status.Some? && StateName(status.value.state) !in {"running", "idle", "error", "stopping"} ==> cls == "bg-gray-500"
  {
    match status
    case None => "bg-gray-500"
    case Some(s) =>
      match StateName(s.state)
      case "running" => "bg-green-500"
      case "idle" => "bg-yellow-500"
      case "error" => "bg-red-500"
      case "stopping" => "bg-orange-500"
      case _ => "bg-gray-500"
  }

  /** The declared states get their own colours. */
  lemma DeclaredStateColors(s: BotStatus)
    ensures s.state == Running ==> StatusColor(Some(s)) == "bg-green-500"
    ensures s.state == Idle ==> StatusColor(Some(s)) == "bg-yellow-500"
    ensures s.state == Failed ==> StatusColor(Some(s)) == "bg-red-500"
    ensures s.state == Stopping ==> StatusColor(Some(s)) == "bg-orange-500"
  {
  }

  /** `String.prototype.toUpperCase` on one ASCII character; other
      characters are kept. */
  function UpperChar(ch: char): (r: char)
    ensures 'a' <= ch <= 'z' ==> 'A' <= r <= 'Z' && r as int == ch as int - 32
    ensures !('a' <= ch <= 'z') ==> r == ch
  {
    if 'a' <= ch <= 'z' then (ch as int - 32) as char else ch
  }

  /** `s.charAt(0).toUpperCase() + s.slice(1)`. */
  function Capitalize(s: string): (r: string)
    ensures |r| == |s|
    ensures s != [] ==> r[0] == UpperChar(s[0]) && r[1..] == s[1..]
  {
    if s == [] then "" else [UpperChar(s[0])] + s[1..]
  }

  /** `getStatusText()`. */
  function StatusText(status: Option<BotStatus>): (text: string)
    ensures status.None? ==> text == "Unknown"
    ensures status.Some? ==> text == Capitalize(StateName(status.value.state))
  {
    match status
    case None => "Unknown"
    case Some(s) => Capitalize(StateName(s.state))
  }

  /** The text is the state name with its first letter capitalised: same
      length, same tail. */
  lemma StatusTextShape(s: BotStatus)
    ensures |StatusText(Some(s))| == |StateName(s.state)|
    ensures StateName(s.state) != [] ==> StatusText(Some(s))[1..] == StateName(s.state)[1..]
  {
  }

  lemma StatusTextOfRunning(s: BotStatus)
    requires s.state == Running
    ensures StatusText(Some(s)) == "Running"
  {
    assert StateName(s.state) == "running";
    assert StatusText(Some(s)) == [UpperChar('r')] + "unning";
  }

  /** `disabled={loading || status?.isRunning}`. */
  predicate StartDisabled(c: Controls) {
    c.loading || (c.status.Some? && c.status.value.isRunning)
  }

  /** `disabled={loading || !status?.isRunning}`: no status counts as not
      running. */
  predicate StopDisabled(c: Controls) {
    c.loading || c.status.None? || !c.status.value.isRunning
  }

  /** Start and Stop are never both enabled; while idle (not loading) exactly
      one of them is. */
  lemma ButtonsExclusive(c: Controls)
    ensures !(!StartDisabled(c) && !StopDisabled(c))
    ensures !c.loading ==> StartDisabled(c) != StopDisabled(c)
    ensures c.loading ==> StartDisabled(c) && StopDisabled(c)
    ensures c.status.None? ==> (StartDisabled(c) <==> c.loading) && StopDisabled(c)
  {
  }

  /** The uptime notice: shown only when a status exists with positive
      uptime, as whole minutes, `Math.floor(uptime / 1000 / 60)`. */
  function UptimeMinutes(status: Option<BotStatus>): (m: Option<int>)
    ensures m.Some? <==> status.Some? && status.value.uptime > 0
    ensures m.Some? ==> 0 <= m.value && m.value * 60000 <= status.value.uptime < (m.value + 1) * 60000
  {
    if status.Some? && status.value.uptime > 0 then Some(status.value.uptime / 60000) else None
  }

  /** The consecutive-loss warning: shown only when a status exists with
      at least one consecutive loss, and then it shows that count. */
  function LossWarning(status: Option<BotStatus>): (w: Option<int>)
    ensures w.Some? <==> status.Some? && status.value.consecutiveLosses > 0
    ensures w.Some? ==> w.value == status.value.consecutiveLosses && w.value > 0
  {
    if status.Some? && status.value.consecutiveLosses > 0 then Some(status.value.consecutiveLosses) else None
  }

  /** `fetchStatus()`: `fetched` is the REST result, `None` when the request
      fails. */
  function FetchStatus(c: Controls, fetched: Option<BotStatus>): (r: Controls)
    ensures r.loading == c.loading
    ensures fetched.Some? ==> r.status == fetched && r.error.None?
    ensures fetched.None? ==> r.status == c.status && r.error == Some(FetchFailed)
  {
    match fetched
    case Some(_) => c.(status := fetched, error := None)
    case None => c.(error := Some(FetchFailed))
  }

  /** The state while a command is awaiting, and the state it settles in. */
  datatype Steps = Steps(pending: Controls, settled: Controls)

  /** `handleStart`/`handleStop`: `loading` on, the command (`ok` tells
      whether it succeeds), then on success a status fetch, on failure the
      command's own error, and `loading` off in `finally`. */
  function RunCommand(c: Controls, failure: string, ok: bool, fetched: Option<BotStatus>): (s: Steps)
    ensures s.pending == c.(loading := true)
    ensures !s.settled.loading
    ensures ok ==> s.settled == FetchStatus(c, fetched).(loading := false)
    ensures !ok ==> s.settled == c.(loading := false, error := Some(failure))
  {
    var pending := c.(loading := true);
    var settled := if ok then FetchStatus(pending, fetched) else pending.(error := Some(failure));
    Steps(pending, settled.(loading := false))
  }

  /** `handleStart`: both buttons are disabled while it runs; a failure
      reports "Failed to start bot" and keeps the status, a success shows
      the refetched status. */
  function HandleStart(c: Controls, ok: bool, fetched: Option<BotStatus>): (s: Steps)
    ensures StartDisabled(s.pending) && StopDisabled(s.pending) && !s.settled.loading
    ensures !ok ==> s.settled.error == Some(StartFailed) && s.settled.status == c.status
    ensures ok && fetched.Some? ==> s.settled.status == fetched && s.settled.error.None?
    ensures ok && fetched.None? ==> s.settled.status == c.status && s.settled.error == Some(FetchFailed)
  {
    RunCommand(c, StartFailed, ok, fetched)
  }

  /** `handleStop`, the same steps with "Failed to stop bot". */
  function HandleStop(c: Controls, ok: bool, fetched: Option<BotStatus>): (s: Steps)
    ensures StartDisabled(s.pending) && StopDisabled(s.pending) && !s.settled.loading
    ensures !ok ==> s.settled.error == Some(StopFailed) && s.settled.status == c.status
    ensures ok && fetched.Some? ==> s.settled.status == fetched && s.settled.error.None?
    ensures ok && fetched.None? ==> s.settled.status == c.status && s.settled.error == Some(FetchFailed)
  {
    RunCommand(c, StopFailed, ok, fetched)
  }

  /** The warning follows the last status fetched: a successful fetch shows
      the new count (or hides the warning), a failed one leaves it as it
      was, and before any status arrives nothing is shown. */
  lemma LossWarningFollowsFetch(c: Controls, fetched: Option<BotStatus>)
    ensures fetched.Some? ==> LossWarning(FetchStatus(c, fetched).status) == LossWarning(fetched)
    ensures fetched.None? ==> LossWarning(FetchStatus(c, fetched).status) == LossWarning(c.status)
    ensures LossWarning(Mounted.status).None?
  {
  }

  /** While a command is in flight both buttons are disabled; once it
      settles they are governed by the status alone. */
  lemma CommandDisablesButtons(c: Controls, ok: bool, fetched: Option<BotStatus>)
    ensures StartDisabled(HandleStart(c, ok, fetched).pending) && StopDisabled(HandleStart(c, ok, fetched).pending)
    ensures StartDisabled(HandleStop(c, ok, fetched).pending) && StopDisabled(HandleStop(c, ok, fetched).pending)
    ensures !HandleStart(c, ok, fetched).settled.loading && !HandleStop(c, ok, fetched).settled.loading
  {
  }

  /** A failing command keeps the status and reports its own error; a
      succeeding one whose status fetch fails reports the fetch error. */
  lemma CommandErrors(c: Controls, fetched: Option<BotStatus>)
    ensures HandleStart(c, false, fetched).settled.error == Some(StartFailed)
    ensures HandleStop(c, false, fetched).settled.error == Some(StopFailed)
    ensures HandleStart(c, false, fetched).settled.status == c.status
    ensures HandleStop(c, false, fetched).settled.status == c.status
    ensures HandleStart(c, true, None).settled.error == Some(FetchFailed)
  {
  }
}
