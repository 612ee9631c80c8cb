/**
 * The server console dialog: a command interpreter over an append-only log of
 * typed entries, a two-valued server status, and the `setTimeout`
 * continuations that `stop`, `start` and `restart` leave behind.
 *
 * The pure part (`Respond`) says what one `executeCommand` call does in
 * terms of the trimmed, lower-cased command; the class `Console` holds the
 * React state (`logs`, `serverStatus`, the input box) plus an explicit queue
 * of scheduled timers, and its methods are proved against `Respond` and the
 * timer table.
 */
module ServerConsole {
  import opened Wrappers
  import opened Strings

  /** What a log line says; `Render` gives its exact text. */
  datatype Message =
    | Prompt(cmd: string)
    | Welcome(name: string)
    | NotFound(cmd: string)
    | Empty
    | CommandsHint | HelpHint
    | Restarting | Stopping | Starting | AlreadyStopped | AlreadyRunning
    | StoppedOk | StartedOk | RestartStoppedOk
    | OpHeader | OpRestart | OpStop | OpStatus | OpLogs
    | StatusRunning | StatusStopped | Uptime | Memory | CpuLoad
    | LogStarted | LogDatabase | LogApi | LogHealth
    | HelpHeader | HelpOp | HelpRestart | HelpStop | HelpStart | HelpStatus
    | HelpLogs | HelpClear | HelpHelp

  function Render(m: Message): string {
    match m
    case Prompt(cmd) => "$ " + cmd
    case Welcome(name) => "Welcome to " + name + " Console"
    case NotFound(cmd) => "Command not found: " + cmd
    case Empty => ""
    case CommandsHint => "Available commands: .op, restart, stop, help"
    case HelpHint => "Type \"help\" for available commands"
    case Restarting => "Restarting server..."
    case Stopping => "Stopping server..."
    case Starting => "Starting server..."
    case AlreadyStopped => "Server is already stopped."
    case AlreadyRunning => "Server is already running."
    case StoppedOk => "Server stopped successfully."
    case StartedOk => "Server started successfully."
    case RestartStoppedOk => "Server stopped."
    case OpHeader => "Server Operations Menu:"
    case OpRestart => "  1. restart - Restart the server"
    case OpStop => "  2. stop - Stop the server"
    case OpStatus => "  3. status - Check server status"
    case OpLogs => "  4. logs - View system logs"
    case StatusRunning => "Server Status: Running"
    case StatusStopped => "Server Status: Stopped"
    case Uptime => "Uptime: 15 days 7 hours"
    case Memory => "Memory: 4.2GB / 8GB"
    case CpuLoad => "CPU Load: 45%"
    case LogStarted => "[2024-12-02 15:23:45] System started"
    case LogDatabase => "[2024-12-02 15:24:12] Database connected"
    case LogApi => "[2024-12-02 15:25:01] API listening on port 8080"
    case LogHealth => "[2024-12-02 15:30:22] Health check passed"
    case HelpHeader => "Available commands:"
    case HelpOp => "  .op - Open operations menu"
    case HelpRestart => "  restart - Restart the server"
    case HelpStop => "  stop - Stop the server"
    case HelpStart => "  start - Start the server"
    case HelpStatus => "  status - Check server status"
    case HelpLogs => "  logs - View system logs"
    case HelpClear => "  clear - Clear console"
    case HelpHelp => "  help - Show this help message"
  }

  datatype Kind = Command | Output | Error | Success

  /** One line of the console: `ConsoleLog` in the component, its text given
      by the message it renders. */
  datatype LogEntry = LogEntry(text: Message, kind: Kind)

  function Text(e: LogEntry): string {
    Render(e.text)
  }

  function Out(m: Message): LogEntry { LogEntry(m, Output) }
  function Ok(m: Message): LogEntry { LogEntry(m, Success) }
  function Err(m: Message): LogEntry { LogEntry(m, Error) }

  datatype Status = Running | Stopped

  // ---------------------------------------------------------------------------
  // Fixed entries

  const Blank := Out(Empty)

  /** The echo of a command line: the prompt marker and the raw input. */
  function Echo(cmd: string): LogEntry {
    LogEntry(Prompt(cmd), Command)
  }

  /** The log a freshly opened console shows. */
  function InitialLog(name: string): seq<LogEntry> {
    [Ok(Welcome(name)), Out(CommandsHint), Blank]
  }

  /** The two entries `clear` puts in place of the whole log. */
  function ClearedLog(name: string): seq<LogEntry> {
    [Ok(Welcome(name)), Out(HelpHint)]
  }

  const OpMenu: seq<LogEntry> := [
    Out(OpHeader), Out(OpRestart), Out(OpStop),
    Out(OpStatus), Out(OpLogs)
  ]

  function StatusReport(status: Status): seq<LogEntry> {
    [ if status == Running then Ok(StatusRunning) else Err(StatusStopped),
      Out(Uptime), Out(Memory), Out(CpuLoad) ]
  }

  const SystemLogs: seq<LogEntry> := [
    Out(LogStarted), Out(LogDatabase),
    Out(LogApi), Ok(LogHealth)
  ]

  const HelpText: seq<LogEntry> := [
    Out(HelpHeader), Out(HelpOp), Out(HelpRestart),
    Out(HelpStop), Out(HelpStart), Out(HelpStatus),
    Out(HelpLogs), Out(HelpClear), Out(HelpHelp)
  ]

  // ---------------------------------------------------------------------------
  // Timers

  /** The `setTimeout` continuations the switch can leave behind. */
  datatype Timer =
    | RestartStopped   // first step of `restart`
    | RestartStarted   // second step of `restart`, scheduled by the first
    | StopDone
    | StartDone

  /** Milliseconds between scheduling a timer and its firing. */
  function Delay(t: Timer): nat {
    match t
    case RestartStopped => 1000
    case RestartStarted => 1500
    case StopDone => 1000
    case StartDone => 1000
  }

  /** What a timer appends when it fires. */
  function StepLog(t: Timer): seq<LogEntry> {
    match t
    case RestartStopped => [Ok(RestartStoppedOk), Out(Starting)]
    case RestartStarted => [Ok(StartedOk)]
    case StopDone => [Ok(StoppedOk)]
    case StartDone => [Ok(StartedOk)]
  }

  /** The status a timer sets when it fires, if any. */
  function StepStatus(t: Timer): Option<Status> {
    match t
    case RestartStopped => None
    case RestartStarted => Some(Running)
    case StopDone => Some(Stopped)
    case StartDone => Some(Running)
  }

  /** The timer a timer schedules from inside its own callback, if any. */
  function FollowUp(t: Timer): Option<Timer> {
    match t
    case RestartStopped => Some(RestartStarted)
    case _ => None
  }

  /** A scheduled timer and the time it is due. */
  datatype TimerEvent = TimerEvent(due: int, timer: Timer)

  /** The timers a fired timer leads to, itself first, in firing order. */
  function Chain(t: Timer): (c: seq<Timer>)
    ensures c != [] && c[0] == t
    decreases if t == RestartStopped then 1 else 0
  {
    match FollowUp(t)
    case None => [t]
    case Some(next) => [t] + Chain(next)
  }

  /** Every chain of timers ends in one that settles the status, and only its
      last step does; `restart`'s chain is its two steps and ends in Running. */
  lemma ChainsSettle(t: Timer)
    ensures var c := Chain(t);
      && StepStatus(c[|c| - 1]).Some?
      && (forall k :: 0 <= k < |c| - 1 ==> StepStatus(c[k]).None?)
    ensures Chain(RestartStopped) == [RestartStopped, RestartStarted]
    ensures StepStatus(RestartStarted) == Some(Running)
  {
    assert Chain(RestartStarted) == [RestartStarted];
  }

  /** The position of the timer that fires next: the earliest due, and among
      equally due ones the first scheduled. */
  predicate IsEarliest(q: seq<TimerEvent>, k: int) {
    && 0 <= k < |q|
    && (forall j :: 0 <= j < |q| ==> q[k].due <= q[j].due)
    && (forall j :: 0 <= j < k ==> q[j].due > q[k].due)
  }

  function Earliest(q: seq<TimerEvent>): (k: nat)
    requires q != []
    ensures IsEarliest(q, k)
    decreases |q|
  {
    if |q| == 1 then 0
    else
      var p := q[..|q| - 1];
      var k := Earliest(p);
      assert forall j :: 0 <= j < |p| ==> p[j] == q[j];
      if q[|q| - 1].due < q[k].due then |q| - 1 else k
  }

  /** There is only one next timer. */
  lemma EarliestUnique(q: seq<TimerEvent>, k1: int, k2: int)
    requires IsEarliest(q, k1) && IsEarliest(q, k2)
    ensures k1 == k2
  {
    assert q[k1].due == q[k2].due;
  }

  function Without<T>(q: seq<T>, k: nat): (r: seq<T>)
    requires k < |q|
    ensures |r| == |q| - 1
    ensures forall j :: 0 <= j < |r| ==> r[j] == if j < k then q[j] else q[j + 1]
  {
    q[..k] + q[k + 1..]
  }

  // ---------------------------------------------------------------------------
  // One `executeCommand` call, as a value

  /** The text the switch matches on: no longer than the line, and without
      upper-case ASCII letters. */
  function Key(cmd: string): (k: string)
    ensures |k| <= |cmd|
    ensures forall i :: 0 <= i < |k| ==> !IsUpperAscii(k[i])
  {
    Lower(Trim(cmd))
  }

  /** The cases of the switch other than `default`. */
  const Commands: set<string> := {".op", "restart", "stop", "start", "status", "logs", "help", "clear", ""}

  /** The arms of the switch. */
  datatype Case =
    | OpCase | RestartCase | StopCase | StartCase | StatusCase
    | LogsCase | HelpCase | ClearCase | EmptyCase | DefaultCase

  /** The arm an exact match of the key selects: a labelled arm iff the key
      is that arm's label, and `default` iff it is none of the labels. */
  function Classify(key: string): (c: Case)
    ensures c == DefaultCase <==> key !in Commands
    ensures c != DefaultCase ==> Label(c) == key
  {
    if key == ".op" then OpCase
    else if key == "restart" then RestartCase
    else if key == "stop" then StopCase
    else if key == "start" then StartCase
    else if key == "status" then StatusCase
    else if key == "logs" then LogsCase
    else if key == "help" then HelpCase
    else if key == "clear" then ClearCase
    else if key == "" then EmptyCase
    else DefaultCase
  }

  /** The label of an arm other than `default`. */
  function Label(c: Case): string
    requires c != DefaultCase
  {
    match c
    case OpCase => ".op"
    case RestartCase => "restart"
    case StopCase => "stop"
    case StartCase => "start"
    case StatusCase => "status"
    case LogsCase => "logs"
    case HelpCase => "help"
    case ClearCase => "clear"
    case EmptyCase => ""
  }

  /** The entries an arm appends between the echo and the separator: none
      exactly for `clear` and the empty line. */
  function Body(c: Case, cmd: string, status: Status): (es: seq<LogEntry>)
    ensures es == [] <==> c == ClearCase || c == EmptyCase
  {
    match c
    case OpCase => OpMenu
    case RestartCase => [Out(Restarting)]
    case StopCase => if status == Stopped then [Err(AlreadyStopped)] else [Out(Stopping)]
    case StartCase => if status == Running then [Err(AlreadyRunning)] else [Out(Starting)]
    case StatusCase => StatusReport(status)
    case LogsCase => SystemLogs
    case HelpCase => HelpText
    case ClearCase => []
    case EmptyCase => []
    case DefaultCase => [Err(NotFound(cmd)), Out(HelpHint)]
  }

  /** The status right after the synchronous part of an arm. */
  function StatusAfter(c: Case, status: Status): Status {
    if c == RestartCase then Stopped else status
  }

  /** The timer an arm schedules, if any. */
  function TimerFor(c: Case, status: Status): Option<Timer> {
    match c
    case RestartCase => Some(RestartStopped)
    case StopCase => if status == Running then Some(StopDone) else None
    case StartCase => if status == Stopped then Some(StartDone) else None
    case _ => None
  }

  /** The effect of one call: either entries appended to the log, or (for
      `clear`) the entries that replace it; the new status; the timer set. */
  datatype Reply = Reply(reset: bool, entries: seq<LogEntry>, status: Status, timer: Option<Timer>)

  /** Only `restart` changes the status at once (to Stopped), and only
      `restart`, `stop` and `start` leave a timer. */
  function Respond(name: string, status: Status, cmd: string): (r: Reply)
    ensures r.status != status ==> Key(cmd) == "restart" && r.status == Stopped
    ensures r.timer.Some? ==> Key(cmd) in {"restart", "stop", "start"}
  {
    var c := Classify(Key(cmd));
    if c == ClearCase then
      Reply(true, ClearedLog(name) + [Blank], status, None)
    else
      Reply(false, [Echo(cmd)] + Body(c, cmd, status) + [Blank], StatusAfter(c, status), TimerFor(c, status))
  }

  /** Appending three pieces one at a time appends them all at once. */
  lemma AppendInTurn<T>(s: seq<T>, a: seq<T>, b: seq<T>, c: seq<T>)
    ensures s + a + b + c == s + (a + b + c)
  {
  }

  function LogAfter(log: seq<LogEntry>, r: Reply): seq<LogEntry> {
    if r.reset then r.entries else log + r.entries
  }

  function QueueAfter(q: seq<TimerEvent>, now: int, r: Reply): seq<TimerEvent> {
    match r.timer
    case None => q
    case Some(t) => q + [TimerEvent(now + Delay(t), t)]
  }

  // ---------------------------------------------------------------------------
  // What one call promises

  /** The text matched is the line with the surrounding white space removed
      and ASCII letters lower-cased, so padding and case do not matter. */
  lemma {:induction false} KeyIgnoresPaddingAndCase(pre: string, w: string, post: string)
    requires AllSpace(pre) && AllSpace(post)
    requires w == [] || (!IsSpace(w[0]) && !IsSpace(w[|w| - 1]))
    ensures Key(pre + w + post) == Lower(w)
  {
    TrimPadded(pre, w, post);
  }

  /** Each label, typed as it is, selects its own arm. */
  lemma KeyOfLabel(c: Case)
    requires c != DefaultCase
    ensures Key(Label(c)) == Label(c) && Classify(Key(Label(c))) == c
  {
    var l := Label(c);
    TrimOfTrimmed(l);
    LowerOfLowercase(l);
  }

  /** Every call but `clear` appends first the echo of the raw, untrimmed
      line behind the prompt marker; `clear` is the only call that replaces
      the log instead of appending to it. */
  lemma EchoFirst(name: string, status: Status, cmd: string)
    ensures var r := Respond(name, status, cmd);
      && (r.reset <==> Key(cmd) == "clear")
      && (!r.reset ==> |r.entries| >= 2 && r.entries[0] == Echo(cmd) && Text(r.entries[0]) == "$ " + cmd)
  {
  }

  /** No entry carries the separator's empty message. */
  predicate NoBlank(es: seq<LogEntry>) {
    forall k :: 0 <= k < |es| ==> es[k].text != Empty
  }

  /** No arm writes the separator's message itself. */
  lemma BodyHasNoBlank(c: Case, cmd: string, status: Status)
    ensures NoBlank(Body(c, cmd, status))
  {
  }

  /** The separator's message is the only one whose text is empty. */
  lemma RenderBlankOnlyEmpty(m: Message)
    ensures Render(m) == "" <==> m == Empty
  {
    match m
    case Empty =>
    case Prompt(cmd) => assert Render(m)[0] == '$';
    case Welcome(name) => assert Render(m)[0] == 'W';
    case NotFound(cmd) => assert Render(m)[0] == 'C';
    case CommandsHint | HelpHint | Restarting | Stopping | Starting =>
      HintTextsNonEmpty(m);
    case AlreadyStopped | AlreadyRunning | StoppedOk | StartedOk | RestartStoppedOk =>
      OutcomeTextsNonEmpty(m);
    case OpHeader | OpRestart | OpStop | OpStatus | OpLogs =>
      MenuTextsNonEmpty(m);
    case StatusRunning | StatusStopped | Uptime | Memory | CpuLoad =>
      ReportTextsNonEmpty(m);
    case LogStarted | LogDatabase | LogApi | LogHealth =>
      LogTextsNonEmpty(m);
    case HelpHeader | HelpOp | HelpRestart | HelpStop | HelpStart =>
      HelpTextsNonEmpty(m);
    case HelpStatus | HelpLogs | HelpClear | HelpHelp =>
      MoreHelpTextsNonEmpty(m);
  }

  // The fixed texts are shown non-empty a few at a time, which keeps each
  // proof small.

  lemma HintTextsNonEmpty(m: Message)
    requires m.CommandsHint? || m.HelpHint? || m.Restarting? || m.Stopping? || m.Starting?
    ensures |Render(m)| > 0
  {
    if m.CommandsHint? {
      assert |Render(CommandsHint)| > 0;
    } else if m.HelpHint? {
      assert |Render(HelpHint)| > 0;
    } else if m.Restarting? {
      assert |Render(Restarting)| > 0;
    } else if m.Stopping? {
      assert |Render(Stopping)| > 0;
    } else {
      assert |Render(Starting)| > 0;
    }
  }

  lemma OutcomeTextsNonEmpty(m: Message)
    requires m.AlreadyStopped? || m.AlreadyRunning? || m.StoppedOk? || m.StartedOk? || m.RestartStoppedOk?
    ensures |Render(m)| > 0
  {
    if m.AlreadyStopped? {
      assert |Render(AlreadyStopped)| > 0;
    } else if m.AlreadyRunning? {
      assert |Render(AlreadyRunning)| > 0;
    } else if m.StoppedOk? {
      assert |Render(StoppedOk)| > 0;
    } else if m.StartedOk? {
      assert |Render(StartedOk)| > 0;
    } else {
      assert |Render(RestartStoppedOk)| > 0;
    }
  }

  lemma MenuTextsNonEmpty(m: Message)
    requires m.OpHeader? || m.OpRestart? || m.OpStop? || m.OpStatus? || m.OpLogs?
    ensures |Render(m)| > 0
  {
    if m.OpHeader? {
      assert |Render(OpHeader)| > 0;
    } else if m.OpRestart? {
      assert |Render(OpRestart)| > 0;
    } else if m.OpStop? {
      assert |Render(OpStop)| > 0;
    } else if m.OpStatus? {
      assert |Render(OpStatus)| > 0;
    } else {
      assert |Render(OpLogs)| > 0;
    }
  }

  lemma ReportTextsNonEmpty(m: Message)
    requires m.StatusRunning? || m.StatusStopped? || m.Uptime? || m.Memory? || m.CpuLoad?
    ensures |Render(m)| > 0
  {
    if m.StatusRunning? {
      assert |Render(StatusRunning)| > 0;
    } else if m.StatusStopped? {
      assert |Render(StatusStopped)| > 0;
    } else if m.Uptime? {
      assert |Render(Uptime)| > 0;
    } else if m.Memory? {
      assert |Render(Memory)| > 0;
    } else {
      assert |Render(CpuLoad)| > 0;
    }
  }

  lemma LogTextsNonEmpty(m: Message)
    requires m.LogStarted? || m.LogDatabase? || m.LogApi? || m.LogHealth?
    ensures |Render(m)| > 0
  {
    if m.LogStarted? {
      assert |Render(LogStarted)| > 0;
    } else if m.LogDatabase? {
      assert |Render(LogDatabase)| > 0;
    } else if m.LogApi? {
      assert |Render(LogApi)| > 0;
    } else {
      assert |Render(LogHealth)| > 0;
    }
  }

  lemma HelpTextsNonEmpty(m: Message)
    requires m.HelpHeader? || m.HelpOp? || m.HelpRestart? || m.HelpStop? || m.HelpStart?
    ensures |Render(m)| > 0
  {
    if m.HelpHeader? {
      assert |Render(HelpHeader)| > 0;
    } else if m.HelpOp? {
      assert |Render(HelpOp)| > 0;
    } else if m.HelpRestart? {
      assert |Render(HelpRestart)| > 0;
    } else if m.HelpStop? {
      assert |Render(HelpStop)| > 0;
    } else {
      assert |Render(HelpStart)| > 0;
    }
  }

  lemma MoreHelpTextsNonEmpty(m: Message)
    requires m.HelpStatus? || m.HelpLogs? || m.HelpClear? || m.HelpHelp?
    ensures |Render(m)| > 0
  {
    if m.HelpStatus? {
      assert |Render(HelpStatus)| > 0;
    } else if m.HelpLogs? {
      assert |Render(HelpLogs)| > 0;
    } else if m.HelpClear? {
      assert |Render(HelpClear)| > 0;
    } else {
      assert |Render(HelpHelp)| > 0;
    }
  }

  /** Every call ends the log with the blank separator, and it is the only
      blank entry the call writes, whether compared as messages or as texts. */
  lemma SeparatorLast(name: string, status: Status, cmd: string, log: seq<LogEntry>)
    ensures var r := Respond(name, status, cmd);
      var after := LogAfter(log, r);
      && |r.entries| > 0
      && after[|after| - 1] == Blank && Text(Blank) == ""
      && NoBlank(r.entries[..|r.entries| - 1])
    ensures var r := Respond(name, status, cmd);
      forall k :: 0 <= k < |r.entries| - 1 ==> Text(r.entries[k]) != ""
  {
    var r := Respond(name, status, cmd);
    var c := Classify(Key(cmd));
    if c == ClearCase {
      assert r.entries[..|r.entries| - 1] == ClearedLog(name);
    } else {
      BodyHasNoBlank(c, cmd, status);
      assert r.entries[..|r.entries| - 1] == [Echo(cmd)] + Body(c, cmd, status);
    }
    forall k | 0 <= k < |r.entries| - 1
      ensures Text(r.entries[k]) != ""
    {
      assert r.entries[k] == r.entries[..|r.entries| - 1][k];
      RenderBlankOnlyEmpty(r.entries[k].text);
    }
  }

  /** A line that matches no arm appends exactly the "not found" error naming
      the raw line and the hint, then the separator; nothing else changes. */
  lemma UnknownCommand(name: string, status: Status, cmd: string)
    requires Key(cmd) !in Commands
    ensures Respond(name, status, cmd)
         == Reply(false, [Echo(cmd), Err(NotFound(cmd)), Out(HelpHint), Blank], status, None)
    ensures Text(Err(NotFound(cmd))) == "Command not found: " + cmd
  {
  }

  /** After `clear` the log is the banner, the hint and the separator, and
      nothing written before survives, this call's echo included. */
  lemma ClearReplacesLog(name: string, status: Status, cmd: string, log: seq<LogEntry>)
    requires Key(cmd) == "clear"
    ensures var r := Respond(name, status, cmd);
      && LogAfter(log, r) == [Ok(Welcome(name)), Out(HelpHint), Blank]
      && r.status == status && r.timer == None
  {
  }

  /** `stop` is refused while stopped; while running it only announces itself
      and leaves a timer that later logs success and sets Stopped. */
  lemma StopGuard(name: string, status: Status, cmd: string)
    requires Key(cmd) == "stop"
    ensures var r := Respond(name, status, cmd);
      && r.status == status
      && (status == Stopped ==> r.entries == [Echo(cmd), Err(AlreadyStopped), Blank] && r.timer == None)
      && (status == Running ==> r.entries == [Echo(cmd), Out(Stopping), Blank] && r.timer == Some(StopDone))
    ensures StepLog(StopDone) == [Ok(StoppedOk)] && StepStatus(StopDone) == Some(Stopped) && FollowUp(StopDone) == None
  {
  }

  /** `start` is the mirror image of `stop`. */
  lemma StartGuard(name: string, status: Status, cmd: string)
    requires Key(cmd) == "start"
    ensures var r := Respond(name, status, cmd);
      && r.status == status
      && (status == Running ==> r.entries == [Echo(cmd), Err(AlreadyRunning), Blank] && r.timer == None)
      && (status == Stopped ==> r.entries == [Echo(cmd), Out(Starting), Blank] && r.timer == Some(StartDone))
    ensures StepLog(StartDone) == [Ok(StartedOk)] && StepStatus(StartDone) == Some(Running) && FollowUp(StartDone) == None
  {
  }

  /** `restart` is accepted in either status, sets Stopped at once and leaves
      its first step; that step logs and schedules the second, which logs
      success and sets Running. */
  lemma RestartAccepted(name: string, status: Status, cmd: string)
    requires Key(cmd) == "restart"
    ensures var r := Respond(name, status, cmd);
      && r.entries == [Echo(cmd), Out(Restarting), Blank]
      && r.status == Stopped
      && r.timer == Some(RestartStopped)
    ensures StepLog(RestartStopped) == [Ok(RestartStoppedOk), Out(Starting)] && StepStatus(RestartStopped) == None
    ensures FollowUp(RestartStopped) == Some(RestartStarted) && Delay(RestartStarted) == 1500
    ensures StepLog(RestartStarted) == [Ok(StartedOk)] && StepStatus(RestartStarted) == Some(Running)
  {
  }

  /** `.op`, `status`, `logs` and `help` only print: 5, 4, 4 and 9 entries;
      the first `status` line is a success iff the server is running. */
  lemma InformationalCommands(name: string, status: Status, cmd: string)
    requires Key(cmd) in {".op", "status", "logs", "help"}
    ensures var r := Respond(name, status, cmd);
      && !r.reset && r.status == status && r.timer == None
      && |r.entries| == 2 + (if Key(cmd) == ".op" then 5 else if Key(cmd) == "help" then 9 else 4)
  {
  }

  /** The first line `status` prints names the status, as a success while
      running and as an error while stopped. */
  lemma StatusLine(name: string, status: Status, cmd: string)
    requires Key(cmd) == "status"
    ensures var first := Respond(name, status, cmd).entries[1];
      && first.kind == (if status == Running then Success else Error)
      && Text(first) == if status == Running then "Server Status: Running" else "Server Status: Stopped"
  {
  }

  /** Two lines with the same key have the same effect apart from the echo
      (and, in the `default` arm, the raw line quoted in the error). */
  lemma SameKeySameEffect(name: string, status: Status, cmd1: string, cmd2: string)
    requires Key(cmd1) == Key(cmd2) && Key(cmd1) in Commands
    ensures var r1, r2 := Respond(name, status, cmd1), Respond(name, status, cmd2);
      && r1.reset == r2.reset && r1.status == r2.status && r1.timer == r2.timer
      && r1.entries[1..] == r2.entries[1..]
  {
    var c := Classify(Key(cmd1));
    if c != ClearCase {
      var b := Body(c, cmd1, status);
      assert b == Body(c, cmd2, status) by {
        assert c != DefaultCase;
      }
      assert ([Echo(cmd1)] + b + [Blank])[1..] == b + [Blank];
      assert ([Echo(cmd2)] + b + [Blank])[1..] == b + [Blank];
    }
  }

  // ---------------------------------------------------------------------------
  // The component's state

  class Console {
    const name: string
    var log: seq<LogEntry>
    var status: Status
    /** The text in the command input box. */
    var input: string
    /** The clock, in milliseconds. */
    var now: int
    /** Scheduled timers, in the order they were scheduled. */
    var pending: seq<TimerEvent>

    /** No timer is overdue. */
    ghost predicate Valid()
      reads this
    {
      forall k :: 0 <= k < |pending| ==> now <= pending[k].due
    }

    constructor (name: string)
      ensures Valid()
      ensures this.name == name && log == InitialLog(name) && status == Running
      ensures input == "" && now == 0 && pending == []
    {
      this.name := name;
      log := InitialLog(name);
      status := Running;
      input := "";
      now := 0;
      pending := [];
    }

    /** `addLog`: one entry at the tail. */
    method AddLog(e: LogEntry)
      modifies this`log
      ensures log == old(log) + [e]
    {
      log := log + [e];
    }

    method AddLogs(es: seq<LogEntry>)
      modifies this`log
      ensures log == old(log) + es
    {
      log := log + es;
    }

    /** `setTimeout(callback, Delay(t))`. */
    method Schedule(t: Timer)
      modifies this`pending
      ensures pending == old(pending) + [TimerEvent(now + Delay(t), t)]
    {
      pending := pending + [TimerEvent(now + Delay(t), t)];
    }

    /** `executeCommand`: the echo of the raw line, the arm of the switch
        its trimmed, lower-cased form selects, and the separator. */
    method Execute(cmd: string)
      requires Valid()
      modifies this
      ensures Valid()
      ensures var r := Respond(name, old(status), cmd);
        && log == LogAfter(old(log), r)
        && status == r.status
        && pending == QueueAfter(old(pending), now, r)
      ensures now == old(now) && input == old(input)
    {
      var c := Classify(Key(cmd));
      AddLog(Echo(cmd));
      RunArm(c, cmd);
      AddLog(Blank);
      AppendInTurn(old(log), [Echo(cmd)], Body(c, cmd, old(status)), [Blank]);
    }

    /** One arm of the switch in `executeCommand`. */
    method RunArm(c: Case, cmd: string)
      requires Valid()
      modifies this`log, this`status, this`pending
      ensures Valid()
      ensures log == if c == ClearCase then ClearedLog(name) else old(log) + Body(c, cmd, old(status))
      ensures status == StatusAfter(c, old(status))
      ensures pending == match TimerFor(c, old(status))
        case None => old(pending)
        case Some(t) => old(pending) + [TimerEvent(now + Delay(t), t)]
    {
      match c {
        case OpCase =>
          AddLogs(OpMenu);
        case RestartCase =>
          AddLog(Out(Restarting));
          status := Stopped;
          Schedule(RestartStopped);
        case StopCase =>
          if status == Stopped {
            AddLog(Err(AlreadyStopped));
          } else {
            AddLog(Out(Stopping));
            Schedule(StopDone);
          }
        case StartCase =>
          if status == Running {
            AddLog(Err(AlreadyRunning));
          } else {
            AddLog(Out(Starting));
            Schedule(StartDone);
          }
        case StatusCase =>
          AddLogs(StatusReport(status));
        case LogsCase =>
          AddLogs(SystemLogs);
        case HelpCase =>
          AddLogs(HelpText);
        case ClearCase =>
          log := ClearedLog(name);
        case EmptyCase =>
        case DefaultCase =>
          AddLog(Err(NotFound(cmd)));
          AddLog(Out(HelpHint));
      }
    }

    /** The input box's `onChange`. */
    method SetInput(text: string)
      modifies this`input
      ensures input == text
    {
      input := text;
    }

    /** `handleSubmit`: a blank input is ignored; otherwise it is executed and
        the input box is cleared. */
    method Submit()
      requires Valid()
      modifies this
      ensures Valid()
      ensures now == old(now)
      ensures Trim(old(input)) == "" ==>
        log == old(log) && status == old(status) && pending == old(pending) && input == old(input)
      ensures Trim(old(input)) != "" ==>
        var r := Respond(name, old(status), old(input));
        && log == LogAfter(old(log), r)
        && status == r.status
        && pending == QueueAfter(old(pending), now, r)
        && input == ""
    {
      if Trim(input) != "" {
        var line := input;
        Execute(line);
        input := "";
      }
    }

    /** Time passes while the user types: the clock moves on by `d`, up to
        (and not past) the first due timer, and nothing else changes. */
    method Wait(d: nat)
      requires Valid()
      requires forall k :: 0 <= k < |pending| ==> now + d <= pending[k].due
      modifies this`now
      ensures Valid()
      ensures now == old(now) + d
    {
      now := now + d;
    }

    /** The event loop runs the next timer: the clock moves to its due time,
        its entries are appended, its status (if any) is set, and the timer it
        schedules from inside its callback (if any) is queued. */
    method FireNext() returns (fired: Option<Timer>)
      requires Valid()
      modifies this
      ensures Valid()
      ensures input == old(input)
      ensures old(pending) == [] ==>
        fired == None && log == old(log) && status == old(status) && now == old(now) && pending == []
      ensures old(pending) != [] ==>
        var k := Earliest(old(pending));
        var e := old(pending)[k];
        && fired == Some(e.timer)
        && now == e.due
        && log == old(log) + StepLog(e.timer)
        && status == (match StepStatus(e.timer) case Some(s) => s case None => old(status))
        && pending == Without(old(pending), k)
             + (match FollowUp(e.timer) case Some(t) => [TimerEvent(e.due + Delay(t), t)] case None => [])
    {
      if pending == [] {
        return None;
      }
      var k := Earliest(pending);
      var e := pending[k];
      pending := Without(pending, k);
      now := e.due;
      AddLogs(StepLog(e.timer));
      match StepStatus(e.timer) {
        case Some(s) => status := s;
        case None =>
      }
      match FollowUp(e.timer) {
        case Some(t) => Schedule(t);
        case None =>
      }
      fired := Some(e.timer);
    }
  }

  // ---------------------------------------------------------------------------
  // Sessions, end to end

  /** `status`, `stop`, the stop timer fires, `stop` again: the second `stop`
      is refused and the server stays stopped. Any spelling of the commands
      that trims and lower-cases to them behaves the same. */
  method StopTwiceSession(name: string, query: string, stop: string) returns (log: seq<LogEntry>, status: Status)
    requires Key(query) == "status" && Key(stop) == "stop"
    ensures status == Stopped
    ensures log == InitialLog(name)
      + ([Echo(query)] + StatusReport(Running) + [Blank])
      + [Echo(stop), Out(Stopping), Blank]
      + [Ok(StoppedOk)]
      + [Echo(stop), Err(AlreadyStopped), Blank]
  {
    InformationalCommands(name, Running, query);
    StopGuard(name, Running, stop);
    StopGuard(name, Stopped, stop);
    var console := new Console(name);
    ghost var log0 := console.log;
    console.Execute(query);
    ghost var log1 := console.log;
    assert log1 == log0 + ([Echo(query)] + StatusReport(Running) + [Blank]);
    console.Execute(stop);
    ghost var log2 := console.log;
    assert log2 == log1 + [Echo(stop), Out(Stopping), Blank];
    assert console.pending == [TimerEvent(1000, StopDone)];
    var fired := console.FireNext();
    ghost var log3 := console.log;
    assert log3 == log2 + [Ok(StoppedOk)];
    assert console.status == Stopped;
    console.Execute(stop);
    assert console.log == log3 + [Echo(stop), Err(AlreadyStopped), Blank];
    log, status := console.log, console.status;
  }

  /** `restart` on a fresh console: Stopped at once, then its two steps fire
      in order, once each, 1000 and 2500 ms later, and it ends Running with
      nothing left scheduled. */
  method RestartSession(name: string, restart: string) returns (during: Status, log: seq<LogEntry>, status: Status, elapsed: int, left: seq<TimerEvent>)
    requires Key(restart) == "restart"
    ensures during == Stopped
    ensures log == InitialLog(name) + [Echo(restart), Out(Restarting), Blank] + [Ok(RestartStoppedOk), Out(Starting)] + [Ok(StartedOk)]
    ensures status == Running && elapsed == 2500 && left == []
  {
    RestartAccepted(name, Running, restart);
    var console := new Console(name);
    console.Execute(restart);
    ghost var log1 := console.log;
    assert log1 == InitialLog(name) + [Echo(restart), Out(Restarting), Blank];
    assert console.pending == [TimerEvent(1000, RestartStopped)];
    during := console.status;
    var first := console.FireNext();
    ghost var log2 := console.log;
    assert log2 == log1 + [Ok(RestartStoppedOk), Out(Starting)];
    assert console.pending == [TimerEvent(2500, RestartStarted)];
    var second := console.FireNext();
    assert console.log == log2 + [Ok(StartedOk)];
    log, status, elapsed, left := console.log, console.status, console.now, console.pending;
  }

  /** Nothing rejects a transition while another is in flight: `stop` twice
      before its timer fires is accepted twice and logs success twice. */
  method OverlappingStopSession(name: string, stop: string) returns (log: seq<LogEntry>, status: Status)
    requires Key(stop) == "stop"
    ensures status == Stopped
    ensures log == InitialLog(name) + [Echo(stop), Out(Stopping), Blank] + [Echo(stop), Out(Stopping), Blank]
      + [Ok(StoppedOk)] + [Ok(StoppedOk)]
  {
    StopGuard(name, Running, stop);
    var console := new Console(name);
    console.Execute(stop);
    ghost var log1 := console.log;
    assert log1 == InitialLog(name) + [Echo(stop), Out(Stopping), Blank];
    assert console.status == Running;
    console.Execute(stop);
    ghost var log2 := console.log;
    assert log2 == log1 + [Echo(stop), Out(Stopping), Blank];
    assert console.pending == [TimerEvent(1000, StopDone), TimerEvent(1000, StopDone)];
    var first := console.FireNext();
    ghost var log3 := console.log;
    assert log3 == log2 + [Ok(StoppedOk)];
    assert console.pending == [TimerEvent(1000, StopDone)];
    var second := console.FireNext();
    assert console.log == log3 + [Ok(StoppedOk)];
    log, status := console.log, console.status;
  }

  /** `start` typed at the same moment as `restart` is accepted (the status
      is already Stopped); its timer is due with the restart's first step and
      fires after it, as it was scheduled later. */
  method StartDuringRestartSession(name: string, restart: string, start: string) returns (fired: seq<Timer>, log: seq<LogEntry>, status: Status)
    requires Key(restart) == "restart" && Key(start) == "start"
    ensures fired == [RestartStopped, StartDone, RestartStarted]
    ensures log == InitialLog(name)
      + [Echo(restart), Out(Restarting), Blank] + [Echo(start), Out(Starting), Blank]
      + [Ok(RestartStoppedOk), Out(Starting)] + [Ok(StartedOk)] + [Ok(StartedOk)]
    ensures status == Running
  {
    RestartAccepted(name, Running, restart);
    StartGuard(name, Stopped, start);
    var console := new Console(name);
    console.Execute(restart);
    ghost var log1 := console.log;
    assert log1 == InitialLog(name) + [Echo(restart), Out(Restarting), Blank];
    assert console.status == Stopped;
    console.Execute(start);
    ghost var log2 := console.log;
    assert log2 == log1 + [Echo(start), Out(Starting), Blank];
    assert console.pending == [TimerEvent(1000, RestartStopped), TimerEvent(1000, StartDone)];
    var f1 := console.FireNext();
    ghost var log3 := console.log;
    assert log3 == log2 + [Ok(RestartStoppedOk), Out(Starting)];
    assert console.pending == [TimerEvent(1000, StartDone), TimerEvent(2500, RestartStarted)];
    var f2 := console.FireNext();
    ghost var log4 := console.log;
    assert log4 == log3 + [Ok(StartedOk)];
    assert console.pending == [TimerEvent(2500, RestartStarted)];
    var f3 := console.FireNext();
    assert console.log == log4 + [Ok(StartedOk)];
    fired := [f1.value, f2.value, f3.value];
    log, status := console.log, console.status;
  }

  /** `restart` at 0 ms and `start` at 200 ms: both are accepted, and the
      start step is due 200 ms after the restart's first step. */
  method RestartThenStart(name: string, restart: string, start: string) returns (console: Console)
    requires Key(restart) == "restart" && Key(start) == "start"
    ensures fresh(console) && console.Valid()
    ensures console.log == InitialLog(name)
      + [Echo(restart), Out(Restarting), Blank] + [Echo(start), Out(Starting), Blank]
    ensures console.status == Stopped && console.now == 200
    ensures console.pending == [TimerEvent(1000, RestartStopped), TimerEvent(1200, StartDone)]
  {
    RestartAccepted(name, Running, restart);
    StartGuard(name, Stopped, start);
    console := new Console(name);
    console.Execute(restart);
    ghost var log1 := console.log;
    assert log1 == InitialLog(name) + [Echo(restart), Out(Restarting), Blank];
    assert console.pending == [TimerEvent(1000, RestartStopped)];
    console.Wait(200);
    console.Execute(start);
  }

  /** The restart's first step fires at 1000 ms and schedules the second for
      2500 ms; the start step fires at 1200 ms and sets Running. */
  method FireRestartThenStart(console: Console)
    requires console.Valid() && console.status == Stopped
    requires console.pending == [TimerEvent(1000, RestartStopped), TimerEvent(1200, StartDone)]
    modifies console
    ensures console.Valid()
    ensures console.log == old(console.log) + [Ok(RestartStoppedOk), Out(Starting)] + [Ok(StartedOk)]
    ensures console.status == Running && console.now == 1200
    ensures console.pending == [TimerEvent(2500, RestartStarted)]
  {
    var f1 := console.FireNext();
    ghost var log1 := console.log;
    assert log1 == old(console.log) + [Ok(RestartStoppedOk), Out(Starting)];
    assert console.pending == [TimerEvent(1200, StartDone), TimerEvent(2500, RestartStarted)];
    var f2 := console.FireNext();
  }

  /** Then `stop` at 1700 ms: its step is due at 2700 ms, after the
      restart's second step, so Running is set once more and Stopped last. */
  method StopAfterStart(console: Console, stop: string)
    requires console.Valid() && Key(stop) == "stop"
    requires console.status == Running && console.now == 1200
    requires console.pending == [TimerEvent(2500, RestartStarted)]
    modifies console
    ensures console.log == old(console.log) + [Echo(stop), Out(Stopping), Blank] + [Ok(StartedOk)] + [Ok(StoppedOk)]
    ensures console.status == Stopped && console.now == 2700 && console.pending == []
  {
    StopGuard(console.name, Running, stop);
    console.Wait(500);
    console.Execute(stop);
    ghost var log1 := console.log;
    assert log1 == old(console.log) + [Echo(stop), Out(Stopping), Blank];
    assert console.pending == [TimerEvent(2500, RestartStarted), TimerEvent(2700, StopDone)];
    var f1 := console.FireNext();
    ghost var log2 := console.log;
    assert log2 == log1 + [Ok(StartedOk)];
    assert console.pending == [TimerEvent(2700, StopDone)];
    var f2 := console.FireNext();
  }

  /** `restart` at 0 ms, `start` at 200 ms, `stop` at 1700 ms once the start
      step has set Running: the stop step is due at 2700 ms, after the
      restart's second step at 2500 ms, so the server ends Stopped, with the
      stop's success logged last. */
  method LateStopSession(name: string, restart: string, start: string, stop: string)
    returns (log: seq<LogEntry>, status: Status, elapsed: int, left: seq<TimerEvent>)
    requires Key(restart) == "restart" && Key(start) == "start" && Key(stop) == "stop"
    ensures log == InitialLog(name)
      + [Echo(restart), Out(Restarting), Blank] + [Echo(start), Out(Starting), Blank]
      + [Ok(RestartStoppedOk), Out(Starting)] + [Ok(StartedOk)]
      + [Echo(stop), Out(Stopping), Blank] + [Ok(StartedOk)] + [Ok(StoppedOk)]
    ensures status == Stopped && elapsed == 2700 && left == []
  {
    var console := RestartThenStart(name, restart, start);
    FireRestartThenStart(console);
    StopAfterStart(console, stop);
    log, status, elapsed, left := console.log, console.status, console.now, console.pending;
  }

  /** Input that is only white space is ignored and stays in the box; a
      padded, upper-case `clear` (any line whose key is "clear") clears the
      log and empties the box. */
  method SubmitSession(name: string, blank: string, clear: string) returns (ignored: seq<LogEntry>, cleared: seq<LogEntry>, input: string)
    requires AllSpace(blank) && Key(clear) == "clear"
    ensures ignored == InitialLog(name)
    ensures cleared == [Ok(Welcome(name)), Out(HelpHint), Blank]
    ensures input == ""
  {
    var console := new Console(name);
    console.SetInput(blank);
    TrimEmptyIffBlank(blank);
    console.Submit();
    ignored := console.log;
    console.SetInput(clear);
    assert |Trim(clear)| == |Key(clear)| == 5;
    ClearReplacesLog(name, console.status, clear, ignored);
    console.Submit();
    cleared, input := console.log, console.input;
  }

  /** "  CLEAR " is such a line. */
  lemma PaddedUpperClear()
    ensures Key("  CLEAR ") == "clear"
  {
    assert "  CLEAR " == "  " + "CLEAR" + " ";
    KeyIgnoresPaddingAndCase("  ", "CLEAR", " ");
    var l := Lower("CLEAR");
    assert l[0] == 'c' && l[1] == 'l' && l[2] == 'e' && l[3] == 'a' && l[4] == 'r';
  }
}
