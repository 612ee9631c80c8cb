# VPS hosting panel: console, file browser and dashboard helpers

This project models the stateful core of a web panel for virtual servers. It
has three parts.

- **The server console dialog** (`ServerConsole`). It is a command interpreter
  over a log of typed entries (`command`, `output`, `error`, `success`) and a
  server status that is either Running or Stopped.
  - `executeCommand` echoes the raw line behind the prompt `$ `.
  - It then switches on the trimmed, lower-cased line. The arms are `.op`,
    `restart`, `stop`, `start`, `status`, `logs`, `help`, `clear`, the empty
    line and a "not found" default.
  - It ends with a blank separator line.
  - `stop`, `start` and `restart` leave `setTimeout` continuations. When they
    fire later, they append entries and set the status. Restart's second step
    is scheduled from inside its first.
  - The class `Console` holds the React state (log, status, input box), a
    clock and an explicit queue of scheduled timers. `FireNext` runs the timer
    with the earliest due time; among timers due at the same time, the first
    scheduled runs first.
    `Wait` lets time pass between commands, up to the next due timer.
  - `Execute` and `Submit` are proved against the pure function `Respond`.
    `Respond` gives the effect of one call: what it appends, or for `clear`
    what replaces the log, plus the new status and the timer it leaves. The
    lemmas about `Respond` state what the interpreter promises.
  - `FireNext` is proved against `Earliest`, which picks the timer that runs,
    and the timer table (`Delay`, `StepLog`, `StepStatus`, `FollowUp`).
  - `AddLog`, `AddLogs`, `Schedule`, `SetInput` and `Wait` each state their
    whole new state directly; they are the steps the other methods are built
    from.
- **The file browser dialog** (`FileManager`).
  - A current path: folder clicks move down (`path + "/" + name`), and `..`
    moves up by dropping the last non-empty `/`-separated segment.
  - A listing that only `delete` edits. Delete removes every entry with the
    selected name.
  - A selected file name, and the upper-cased extension badge.
- **Dashboard helpers** (`Dashboard`).
  - The status and metric colour classifiers, and the inline percentage
    colours, whose thresholds differ from the classifier's.
  - The three per-action sets of servers with a start, stop or restart in
    flight. A server joins a set when its button is pressed and leaves it when
    that action's timer completes. While the server is in the set, the button
    is disabled.

Two small modules support these. `Strings` models the JavaScript string
operations the code relies on: `trim`, `toLowerCase`, `toUpperCase`, and
`split`/`join` on one character. `Wrappers` holds `Option`.

The fixed texts of the console are the constructors of `ServerConsole.Message`.
`ServerConsole.Render` gives each one's exact wording, so log contents are
compared as messages and their texts follow by `Render`.

Behaviour the code does not have:
- There is no "busy" rejection: `stop` twice before its timer fires is accepted
  twice (`OverlappingStopSession`).
- There are no argument-taking commands (`say`, `tp`, ...) and no `players` or
  `backup` commands. Those lines fall to "not found".
- There is no cancellation of timers when the dialog closes.
- There is no other opening banner than "Welcome to <name> Console", then
  "Available commands: .op, restart, stop, help", then a blank line.
- There is no third restart step: restart has two (stopped, then started).
- There is no exception to the closing separator: the empty line and `clear`
  end with it too. For `clear`, React applies the replacement at line 117
  before the append at line 131, so the log ends as banner, hint, blank.

## Model

| member | source | states |
|---|---|---|
| Strings.Trim | src/components/ServerConsole.tsx:40 | `trim` never lengthens its input, and its result neither starts nor ends with white space |
| Strings.Lower | src/components/ServerConsole.tsx:40 | `toLowerCase` keeps the length, turns each upper-case ASCII letter into its lower-case letter (code point + 32), and keeps every other character as it is |
| Strings.Join | src/components/FileManager.tsx:43 | the joined string starts with the first piece, followed by the separator when more pieces follow |
| Strings.TrimIsSlice | src/components/ServerConsole.tsx:40 | `trim` returns a contiguous slice of its input with only white space cut off on either side, and the result neither starts nor ends with white space |
| Strings.TrimStartSpec | src/components/ServerConsole.tsx:40 | leading trim removes exactly a white-space prefix and stops at the first other character |
| Strings.TrimEndSpec | src/components/ServerConsole.tsx:40 | trailing trim removes exactly a white-space suffix and stops at the last other character |
| Strings.TrimEmptyIffBlank | src/components/ServerConsole.tsx:136 | a line trims to the empty string exactly when it is all white space |
| Strings.TrimIdempotent | src/components/ServerConsole.tsx:40 | trimming twice is trimming once |
| Strings.TrimOfTrimmed | src/components/ServerConsole.tsx:40 | a string with no white space at either end is its own trim |
| Strings.TrimPadded | src/components/ServerConsole.tsx:40 | white space padded around a word is removed exactly, giving the word back |
| Strings.LowerOfLowercase | src/components/ServerConsole.tsx:40 | lower-casing leaves a string without upper-case letters unchanged |
| Strings.Upper | src/components/FileManager.tsx:149 | `toUpperCase` keeps the length, turns each lower-case ASCII letter into its upper-case letter (code point - 32), and keeps every other character as it is |
| Strings.UpperKeepsAbsent | src/components/FileManager.tsx:149 | a character that is no letter and is absent before upper-casing is absent after |
| Strings.Split | src/components/FileManager.tsx:41 | `split` gives at least one piece, and no piece contains the separator |
| Strings.SplitAround | src/components/FileManager.tsx:41 | splitting a string at one separator splits its two sides independently and concatenates the pieces |
| Strings.SplitWithoutSep | src/components/FileManager.tsx:41 | a string without the separator splits into itself alone |
| Strings.SplitJoin | src/components/FileManager.tsx:43 | splitting undoes joining of separator-free pieces |
| Strings.JoinSplit | src/components/FileManager.tsx:43 | joining undoes splitting, for every string |
| ServerConsole.Render | src/components/ServerConsole.tsx:21-128 | the exact wording of every fixed console line, with the server name, the raw line or the status filled in (a table of texts with no contract of its own) |
| ServerConsole.RenderBlankOnlyEmpty | src/components/ServerConsole.tsx:21-131 | the separator's message is the only one whose text is the empty string |
| ServerConsole.Echo | src/components/ServerConsole.tsx:42 | the command entry "$ " + the raw line, of kind `command` (no contract of its own) |
| ServerConsole.InitialLog | src/components/ServerConsole.tsx:20-24 | the opening log: banner, commands hint, blank line (no contract of its own) |
| ServerConsole.ClearedLog | src/components/ServerConsole.tsx:117-120 | the two entries `clear` puts in place of the log: banner and help hint (no contract of its own) |
| ServerConsole.Delay | src/components/ServerConsole.tsx:56-86 | the `setTimeout` delays: 1000 ms for restart's first step, 1500 ms for its nested second step, 1000 ms for the stop and start steps (no contract of its own) |
| ServerConsole.StepLog | src/components/ServerConsole.tsx:56-86 | what each `setTimeout` callback appends (lines 57-58, 60, 72, 84) (no contract of its own; ChainsSettle and FireNext are stated with it) |
| ServerConsole.StepStatus | src/components/ServerConsole.tsx:56-86 | the status each callback sets: none for restart's first step, Running at lines 61 and 85, Stopped at line 73 (no contract of its own) |
| ServerConsole.FollowUp | src/components/ServerConsole.tsx:56-63 | only restart's first callback schedules another timer, its second step (no contract of its own) |
| ServerConsole.StatusAfter | src/components/ServerConsole.tsx:55 | the status right after the switch: Stopped after `restart`, otherwise unchanged (no contract of its own) |
| ServerConsole.TimerFor | src/components/ServerConsole.tsx:53-88 | which arm calls `setTimeout`: always `restart`, `stop` only while running, `start` only while stopped (no contract of its own) |
| ServerConsole.Key | src/components/ServerConsole.tsx:40 | the switch key of a line is no longer than the line and holds no upper-case ASCII letter |
| ServerConsole.Classify | src/components/ServerConsole.tsx:44-129 | matching is exact: a key selects a labelled arm iff it equals that label, and the default arm iff it is none of the nine labels |
| ServerConsole.Body | src/components/ServerConsole.tsx:44-129 | an arm appends nothing between echo and separator exactly when it is `clear` or the empty line |
| ServerConsole.Respond | src/components/ServerConsole.tsx:39-132 | only `restart` changes the status at once, and to Stopped; only `restart`, `stop` and `start` leave a timer |
| ServerConsole.KeyIgnoresPaddingAndCase | src/components/ServerConsole.tsx:40 | the matched key of a padded line is its word lower-cased, whatever white space surrounds it |
| ServerConsole.KeyOfLabel | src/components/ServerConsole.tsx:40-129 | each label typed as it is selects its own arm |
| ServerConsole.PaddedUpperClear | src/components/ServerConsole.tsx:40 | the line "  CLEAR " has the key "clear" |
| ServerConsole.EchoFirst | src/components/ServerConsole.tsx:40-42 | every call but `clear` first appends the command entry "$ " + the raw, untrimmed line; `clear` is the only call that replaces the log |
| ServerConsole.BodyHasNoBlank | src/components/ServerConsole.tsx:44-129 | no arm writes the separator's empty message itself |
| ServerConsole.SeparatorLast | src/components/ServerConsole.tsx:131 | every call leaves the separator, an empty `output` line, as the last entry, and no other entry the call writes carries the separator's message or has the empty text |
| ServerConsole.UnknownCommand | src/components/ServerConsole.tsx:126-128 | an unmatched line appends exactly the echo, the error "Command not found: <raw line>", the help hint and the separator; status unchanged, nothing scheduled |
| ServerConsole.ClearReplacesLog | src/components/ServerConsole.tsx:116-121 | after `clear` the log is exactly banner, hint, separator; nothing earlier survives, this call's echo included; status unchanged, nothing scheduled |
| ServerConsole.StopGuard | src/components/ServerConsole.tsx:66-77 | `stop` while stopped appends the "already stopped" error and schedules nothing; while running it appends "Stopping server..." and schedules the step that logs success and sets Stopped; status unchanged until then |
| ServerConsole.StartGuard | src/components/ServerConsole.tsx:79-88 | `start` mirrors `stop`: refused while running, otherwise announced with the status set to Running only when its step fires |
| ServerConsole.RestartAccepted | src/components/ServerConsole.tsx:53-64 | `restart` is accepted in either status, sets Stopped at once and schedules its first step; that step logs "Server stopped." and "Starting server..." and then schedules the second, which logs success and sets Running 1500 ms later |
| ServerConsole.ChainsSettle | src/components/ServerConsole.tsx:56-63 | every chain of nested timers ends in the one step that sets the status; restart's chain is its two steps, ending Running |
| ServerConsole.InformationalCommands | src/components/ServerConsole.tsx:45-114 | `.op`, `status`, `logs` and `help` change no status, schedule nothing and append 5, 4, 4 and 9 entries between echo and separator |
| ServerConsole.StatusLine | src/components/ServerConsole.tsx:91 | the first `status` line reads "Server Status: Running" of kind success while running, otherwise "Server Status: Stopped" of kind error |
| ServerConsole.SameKeySameEffect | src/components/ServerConsole.tsx:40-131 | two lines with the same known key have the same effect apart from the echo |
| ServerConsole.Earliest | src/components/ServerConsole.tsx:56-84 | the timer that fires next is due no later than any other, and every timer scheduled before it is due strictly later |
| ServerConsole.EarliestUnique | src/components/ServerConsole.tsx:56-84 | only one timer satisfies that rule |
| ServerConsole.Console.constructor | src/components/ServerConsole.tsx:20-27 | a new console shows the three-line banner, status Running, an empty input box and no timers |
| ServerConsole.Console.AddLog | src/components/ServerConsole.tsx:35-37 | `addLog` appends one entry at the tail |
| ServerConsole.Console.AddLogs | src/components/ServerConsole.tsx:35-37 | several `addLog` calls append their entries in order |
| ServerConsole.Console.Schedule | src/components/ServerConsole.tsx:56 | `setTimeout` queues the timer, due its delay after now |
| ServerConsole.Console.Execute | src/components/ServerConsole.tsx:39-132 | the new log, status and timer queue are those `Respond` gives for the old status and the line; clock and input box unchanged |
| ServerConsole.Console.RunArm | src/components/ServerConsole.tsx:44-129 | each arm of the switch appends its body (or, for `clear`, replaces the log), sets its status and queues its timer |
| ServerConsole.Console.Wait | src/components/ServerConsole.tsx:56-84 | time passes up to the first due timer: only the clock moves |
| ServerConsole.Console.SetInput | src/components/ServerConsole.tsx:199 | typing replaces the input box's text |
| ServerConsole.Console.Submit | src/components/ServerConsole.tsx:134-140 | a blank input changes nothing; otherwise the input is executed and the box is emptied |
| ServerConsole.Console.FireNext | src/components/ServerConsole.tsx:56-84 | the earliest-due timer runs: the clock moves to its due time, its entries are appended, its status is set, and its follow-up is queued; with nothing queued nothing changes |
| ServerConsole.StopTwiceSession | src/components/ServerConsole.tsx:66-77 | `status`, `stop`, the step fires, `stop`: the second `stop` is refused and the server stays Stopped; the whole log is given |
| ServerConsole.RestartSession | src/components/ServerConsole.tsx:53-64 | `restart` from a fresh console: Stopped at once, both steps fire once each in order, Running after 2500 ms with no timer left |
| ServerConsole.OverlappingStopSession | src/components/ServerConsole.tsx:66-77 | `stop` twice before its step fires is accepted twice and logs success twice |
| ServerConsole.StartDuringRestartSession | src/components/ServerConsole.tsx:53-88 | `start` typed at the same moment as `restart` is accepted; its step, due with restart's first, fires after it because it was scheduled later |
| ServerConsole.RestartThenStart | src/components/ServerConsole.tsx:53-88 | `restart` at 0 ms and `start` at 200 ms are both accepted; the restart's first step is due at 1000 ms and the start step at 1200 ms |
| ServerConsole.FireRestartThenStart | src/components/ServerConsole.tsx:56-86 | the restart's first step fires at 1000 ms and schedules the second for 2500 ms; the start step fires at 1200 ms and sets Running |
| ServerConsole.StopAfterStart | src/components/ServerConsole.tsx:56-77 | a `stop` at 1700 ms is due at 2700 ms, after the restart's second step, so Running is set once more and Stopped last |
| ServerConsole.LateStopSession | src/components/ServerConsole.tsx:53-88 | `restart` at 0 ms, `start` at 200 ms and `stop` at 1700 ms end Stopped at 2700 ms, the stop's success logged after the restart's; the whole log is given |
| ServerConsole.SubmitSession | src/components/ServerConsole.tsx:134-140 | white-space-only input leaves the log as it was; a line whose key is `clear` clears the log and empties the box |
| FileManager.NonEmpty | src/components/FileManager.tsx:41 | `.filter(Boolean)` keeps only non-empty pieces, all taken from its input |
| FileManager.NonEmptyAppend | src/components/FileManager.tsx:41 | filtering works piece by piece, keeping order |
| FileManager.NonEmptyKeeps | src/components/FileManager.tsx:41 | pieces that are all non-empty are kept as they are |
| FileManager.Rooted | src/components/FileManager.tsx:43 | `'/' + parts.join('/')` (no contract of its own; SegmentsOfRooted states its meaning) |
| FileManager.DropLast | src/components/FileManager.tsx:42 | `parts.pop()`: the last element goes, if there is one (no contract of its own) |
| FileManager.Segments | src/components/FileManager.tsx:41 | every segment of a path is non-empty and slash-free |
| FileManager.SegmentsOfRooted | src/components/FileManager.tsx:43 | a path built as "/" + joined segments has exactly those segments |
| FileManager.ParentPath | src/components/FileManager.tsx:40-43 | `..` gives a path starting with `/` whose segments are those of the current path without the last one (none at the root) |
| FileManager.ChildPath | src/components/FileManager.tsx:45 | entering a folder whose name is non-empty and slash-free adds that name as the last segment |
| FileManager.ChildThenParent | src/components/FileManager.tsx:41-45 | entering a folder and then `..` gives the normalised starting path |
| FileManager.RoundTrip | src/components/FileManager.tsx:41-45 | for a normalised path, down and back up returns the path itself |
| FileManager.HomeRoundTrip | src/components/FileManager.tsx:24-45 | from `/home/user`, down into any folder and back up returns `/home/user` |
| FileManager.ParentOfHome | src/components/FileManager.tsx:40-43 | `..` from `/home/user` gives `/home` |
| FileManager.ParentOfRoot | src/components/FileManager.tsx:40-43 | `..` at `/` stays `/` |
| FileManager.Badge | src/components/FileManager.tsx:149 | the badge holds no dot and no lower-case ASCII letter |
| FileManager.LastPiece | src/components/FileManager.tsx:149 | the last piece of a split is the suffix after the last separator, or the whole string if there is none |
| FileManager.BadgeIsExtension | src/components/FileManager.tsx:149 | the badge is the upper-cased, dot-free text after the last dot; with no dot, the whole name upper-cased |
| FileManager.BadgeOfDotted | src/components/FileManager.tsx:149 | stem + "." + a dot-free extension shows the extension upper-cased |
| FileManager.BadgeOfDotFile | src/components/FileManager.tsx:149 | `.env` shows `ENV` |
| FileManager.BadgeOfReadme | src/components/FileManager.tsx:149 | `README.md` shows `MD` |
| FileManager.WithoutName | src/components/FileManager.tsx:66 | the filter never lengthens the listing |
| FileManager.WithoutNameMembers | src/components/FileManager.tsx:66 | an entry survives the delete filter iff it was listed and has another name |
| FileManager.WithoutNameAppend | src/components/FileManager.tsx:66 | the filter works piece by piece, so survivors keep their order |
| FileManager.WithoutAbsentName | src/components/FileManager.tsx:66 | when no entry has the name, nothing is removed |
| FileManager.WithoutUniqueName | src/components/FileManager.tsx:66 | an entry whose name no other shares is removed alone, with the rest in place |
| FileManager.WithoutNameCount | src/components/FileManager.tsx:66 | the number of entries removed is the number with that name |
| FileManager.FileBrowser.constructor | src/components/FileManager.tsx:24-36 | the browser opens at `/home/user` with the initial listing and nothing selected |
| FileManager.FileBrowser.HasSelection | src/components/FileManager.tsx:54-64 | JavaScript truthiness of `selectedFile`: neither null nor the empty string (no contract of its own; Delete and Download are stated with it) |
| FileManager.FileBrowser.Click | src/components/FileManager.tsx:38-51 | `..` goes to the parent, another folder to the child, both clearing the selection; a file is selected and the path stays; the listing is untouched |
| FileManager.FileBrowser.Delete | src/components/FileManager.tsx:63-69 | with a non-empty selection, every entry of that name goes and the selection is cleared; otherwise nothing changes |
| FileManager.FileBrowser.Download | src/components/FileManager.tsx:53-57 | names the selected file iff there is a non-empty selection; changes nothing |
| FileManager.FileBrowser.SetPath | src/components/FileManager.tsx:102 | the path box sets the path to any text |
| FileManager.BrowseSession | src/components/FileManager.tsx:38-51 | into `www` and back up: the path, the listing and the empty selection are as at the start |
| Dashboard.StatusColor | src/pages/Index.tsx:23-34 | exactly `active`, `warning` and `error` get colours of their own, each a different one; any other text is gray |
| Dashboard.StatusOfRoundTrip | src/pages/Index.tsx:23-34 | each non-gray colour comes from its own status |
| Dashboard.MetricColor | src/pages/Index.tsx:36-40 | `getMetricColor` is green below 50, yellow from 50 below 75, red from 75 on, each both ways |
| Dashboard.InlineMetricColor | src/pages/Index.tsx:287-313 | the inline CPU/RAM/disk colour is green up to 50, yellow above 50 up to 75, red above 75, each both ways |
| Dashboard.MetricMonotone | src/pages/Index.tsx:36-40 | a higher reading never gets a milder colour, in either scheme |
| Dashboard.SchemesDisagreeAtBoundaries | src/pages/Index.tsx:287-313 | the two schemes differ exactly at 50 and 75, where the inline one is one step milder |
| Dashboard.RemoveDistinct | src/pages/Index.tsx:69-73 | removing one scheduled completion removes exactly that one |
| Dashboard.PendingActions.constructor | src/pages/Index.tsx:57-59 | all three sets start empty, with no completion scheduled |
| Dashboard.PendingActions.Disabled | src/pages/Index.tsx:329-355 | while the sets are in step with the scheduled completions, a button is disabled exactly while a completion of its action for that server is scheduled |
| Dashboard.PendingActions.Handle | src/pages/Index.tsx:64-104 | a handler adds the id to its own action's set, leaves the other two alone and schedules one completion |
| Dashboard.PendingActions.Press | src/pages/Index.tsx:325-355 | a button press is accepted iff the server is not in that action's set; the sets stay in step with the scheduled completions |
| Dashboard.PendingActions.Complete | src/pages/Index.tsx:68-101 | a completion removes exactly its id from exactly its action's set; the sets stay in step with what is still scheduled |
| Dashboard.StartTwiceSession | src/pages/Index.tsx:92-104 | a second Start press while pending is ignored; after completion a press is accepted again |

## Left out

- Toasts (`toast.loading`, `toast.success` and `toast.info` in src/pages/Index.tsx, `toast.success` and `toast.info` in src/components/FileManager.tsx:55-72) are calls into a UI library with no effect on the modelled state.
- `handleUpload` and `handleCreateFolder` only show a toast, so they change no state and are not modelled.
- Rendering is not modelled: JSX, CSS class strings, icons, dialogs, the `activeNav` tab, the auto-scroll effect of the console and the highlight of the selected row. Classifiers return a colour, not a class string.
- Clipboard copies and the `Math.random` API key on the dashboard are foreign calls and randomness outside the core.
- The mock tables of the dashboard (servers, domains, billing) are not modelled. The initial file listing is modelled as a constant.
- Dashboard.PendingActions.Complete: runs any scheduled completion, not only the earliest due, so the 2000, 2500 and 3000 ms delays are not modelled. Every property proved holds for every order, so it holds for the real one too.
- ServerConsole.Console.FireNext: time is an integer clock of milliseconds. `Wait` moves it while the user types, up to the next due timer; `FireNext` moves it to a timer's due time. A command typed exactly when a timer is due may run before that timer, which JavaScript allows too. React's render scheduling is not modelled beyond the order of state updates.
- Strings.Lower: `toLowerCase` is modelled on ASCII letters only. No non-ASCII character lower-cases to a letter of any command label, so the arm selected is unaffected.
- Strings.Upper: `toUpperCase` is modelled on ASCII letters only, so badges of names with other letters may differ from the browser's.
- Dashboard.MetricColor and Dashboard.InlineMetricColor take real numbers; JavaScript's NaN and infinities are not modelled. `getMetricColor` is not called anywhere in the page; only the inline thresholds reach the screen.
- The `serverId` and `onClose` props of both dialogs are not used by the modelled logic; closing a dialog is not modelled (the code cancels nothing on close).
