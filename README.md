# bmids policy interpretation, modelled in Dafny

bmids is a small host monitor written as one Python script, `main.py`. It reads three
policy lists: files, processes and ports. For each file entry it builds a watchdog event
handler, choosing one of twelve `on_<callback>_<tier>` functions for each callback slot
from the entry's `create`, `delete`, `modified` and `move` tokens (`none`, `warn`,
`critical`). It scans the process table once per process target. It probes each port
target by binding one shared socket to 127.0.0.1 and closing it again. This project models
those three decision procedures. It takes the parsed policy lists and abstract
observations as inputs: one process-table enumeration per target, one bind outcome per
port. It proves what each loop leaves behind and what it logs.

Modules, one per component of the script:

- `Policy` (policy.dfy): tiers and their tokens, the alert kinds logged at critical level, counting.
- `Text` (text.dfy): ASCII `str.lower()`, prefix tests, Python's substring test `p in s`.
- `Handlers` (handlers.dfy): the twelve handler functions as one `Handle(tier, callback, event)`.
- `FileWatch` (file_watch.dfy): the handler class, the inner loop over event types, the outer loop over file entries.
- `ProcessAudit` (process_audit.dfy): the process loop.
- `PortAudit` (port_audit.dfy): the shared probe socket and the port loop.
- `Bmids` (bmids.dfy): the three loops in script order.

The model follows the code, including where it departs from the intended design:

- An unrecognised event token is not a load-time error. The script prints "handler type
  invalid" and leaves that slot as it was.
- The `else` of each tier's chain (main.py:94-97, 103-106, 112-115) belongs to the
  `modified` test alone. So a recognised `create` or `delete` token also sets the moved
  slot. `FileWatch.Writes` states this. `FileWatch.ConfigureIsLookupIff` shows that the
  resulting table differs from a direct lookup exactly when the move token is unrecognised
  and the create or delete token is recognised. Then the moved slot takes the delete tier,
  else the create tier (`FileWatch.MovedInheritsEarlierTier`).
- A target that must be present always logs "Essential process missing", whether or not
  it matched.
- The "unknown error" call (main.py:142) sits at the level of the `except` block, not in
  an `else` of the errno test. So a port in use that must be closed logs "open" and then
  "unknown error" as well (`PortAudit.ClosedPortExpectations`).
- One socket serves every port. It is closed at the end of each pass, so every probe
  after the first binds a socket that is already closed (`PortAudit.ProbeCallsShape`).
- The process and port log messages are plain strings without the `f` prefix, so they
  name no target. Alerts are therefore kinds only (`Policy.Alert`). For the same reason,
  `on_created_none` logs its placeholder text literally.

## Model

| member | source | states |
|---|---|---|
| `Policy.ParseTier` | main.py:89-117 | a token is recognised exactly when it is the token of some tier, and then yields that tier |
| `Policy.ParseTierToken` | main.py:89-107 | every tier's own token is recognised as that tier |
| `Text.LowerChar` | main.py:126 | each capital A-Z becomes its own small letter, every other character is kept, so no capital remains |
| `Text.Lower` | main.py:126 | `str.lower()` keeps the length and maps each character by `LowerChar` |
| `Text.Contains` | main.py:126 | the empty pattern occurs in every name, and no pattern occurs in a shorter name |
| `Text.ContainsOccurs` | main.py:126 | the substring test holds exactly when the pattern occurs at some offset of the name |
| `Handlers.Handle` | main.py:32-68 | every handler line starts with "<tier> event " and ends with the source path (and " to " and destination for moves); only the none-tier create and delete handlers log; delete logs its console line, create logs the fixed unformatted text |
| `Handlers.HandleParses` | main.py:32-68 | the tier and callback of the handler can be read back from its console line |
| `Handlers.HandleInjective` | main.py:32-68 | two different handlers never print the same line for the same event |
| `Handlers.CreateLogIgnoresEvent` | main.py:32-34 | the log record of `on_created_none` is the same whatever the event |
| `FileWatch.Step` | main.py:89-117 | one token assigns its tier to exactly the slots its event type writes (moved for every type but `modified`) when recognised, and changes nothing when not |
| `FileWatch.ModifiedTouchesOnlyModified` | main.py:94-95 | the `modified` token never changes the created, deleted or moved slot |
| `FileWatch.Apply` | main.py:88-117 | running the inner loop over some event types leaves the created, deleted and modified slots alone when their own type is not among them |
| `FileWatch.Configure` | main.py:88-117 | after the inner loop, the created, deleted and modified slots hold their own token's tier, or the default when the token is unrecognised |
| `FileWatch.ConfigureSlots` | main.py:88-117 | after the loop, created, deleted and modified hold their own token's tier (or the default), and moved holds the tier of the last recognised token of create, delete, move |
| `FileWatch.MoveValidIsLookup` | main.py:88-115 | with a recognised move token the table equals the direct event-kind to tier lookup |
| `FileWatch.MovedInheritsEarlierTier` | main.py:88-115 | with an unrecognised move token the direct lookup leaves moved at the default, while the loop gives it the delete token's slot when that is recognised and otherwise the create token's slot, which is the default only when create is unrecognised too |
| `FileWatch.ConfigureIsLookupIff` | main.py:88-117 | the table equals the direct lookup exactly when the move token is recognised or neither the create nor the delete token is |
| `FileWatch.Respond` | main.py:32-68 | a callback runs a handler exactly when its slot holds a tier, and that handler's line reads back as that tier and callback |
| `FileWatch.ConfiguredResponse` | main.py:86-118 | with a recognised move token, each callback runs the handler of its own token's tier, whose line reads back as that tier, and runs nothing for an unrecognised token |
| `FileWatch.WatchMode` | main.py:81-86 | recursion is on exactly for type `dir`, and directories are ignored exactly when not recursive |
| `FileWatch.ComplaintsOfEntry` | main.py:116-117 | one "handler type invalid" line per unrecognised token in event order; none exactly when all four are recognised |
| `FileWatch.FileConsole` | main.py:116-119 | the files loop prints between one and five lines per entry and ends with an observer line when there is an entry |
| `FileWatch.EventHandler.constructor` | main.py:86 | a new handler has the given directory filter and four default slots |
| `FileWatch.EventHandler.Assign` | main.py:89-117 | the handler's slots become `Step` of the old slots, and an unrecognised token prints one complaint |
| `FileWatch.BuildHandler` | main.py:80-117 | a fresh handler whose slots are `Configure(f)`, filter from the entry's type, and the entry's complaints |
| `FileWatch.Schedule` | main.py:80-118 | one pass of the files loop yields a fresh handler scheduled on the entry's path with its recursion, filter and configured table, and prints that entry's complaints |
| `FileWatch.WatchFiles` | main.py:79-120 | exactly one observer per entry, in policy order, with the entry's path, recursion, filter and configured table, each on its own handler |
| `ProcessAudit.Hit` | main.py:125-130 | an unreadable process never matches, the empty pattern matches every readable one, and a pattern longer than the name never matches it |
| `ProcessAudit.ProcessVerdict` | main.py:123-132 | rogue alerts number the matching processes when `present` is `no` (else none); one missing alert exactly when `present` is `yes` |
| `ProcessAudit.HitCountIsHits` | main.py:124-130 | the scan's match count is the number of positions in the enumeration whose readable name matches |
| `ProcessAudit.UnreadableIgnored` | main.py:125-130 | a process whose name raises NoSuchProcess, AccessDenied or ZombieProcess changes nothing, wherever it stands |
| `ProcessAudit.AbsentTargetAlerts` | main.py:126-128 | a target that must be absent logs one rogue alert per matching process and nothing else |
| `ProcessAudit.PresentTargetAlerts` | main.py:131-132 | a target that must be present logs exactly one missing alert whatever the matches |
| `ProcessAudit.HitMeansOccurs` | main.py:126 | a readable process matches exactly when the lower-cased pattern occurs at some offset of its lower-cased name |
| `ProcessAudit.ProcessVerdicts` | main.py:123-132 | the process loop logs only rogue and missing alerts, and at most one missing alert per target |
| `ProcessAudit.MissingAlertsCount` | main.py:123-132 | over the whole loop, the missing alerts number the targets whose `present` is `yes` |
| `ProcessAudit.ScanTarget` | main.py:124-132 | the inner scan logs exactly `ProcessVerdict` of its target and enumeration |
| `ProcessAudit.AuditProcesses` | main.py:123-132 | the loop logs the verdicts of the targets in policy order |
| `ProcessAudit.SshdExample` | main.py:126-128 | an absent `sshd` target against a table holding `SSHD` logs one rogue alert, and none without it |
| `PortAudit.PortVerdict` | main.py:136-144 | one pass logs at most three alerts, and nothing exactly when the bind succeeded and the port need not be open |
| `PortAudit.PortVerdicts` | main.py:135-145 | the port loop logs at most three alerts per target |
| `PortAudit.PortVerdictShape` | main.py:136-144 | "open" exactly for a port in use that must be closed, "unknown error" exactly for a failed bind, "closed" exactly for a port that must be open, in that order, each at most once |
| `PortAudit.ClosedPortExpectations` | main.py:137-142 | a port that must be closed logs nothing when free, "open" then "unknown error" when in use, "unknown error" on any other failure |
| `PortAudit.OpenPortExpectations` | main.py:143-144 | a port that must be open always ends its pass with "closed" and never logs "open" |
| `PortAudit.CountOfPass` | main.py:136-144 | one pass logs an alert once when it raises it and otherwise not at all |
| `PortAudit.PortAlertCounts` | main.py:135-145 | over the whole loop each alert kind is logged once per pass that raises it |
| `PortAudit.ProbeSocket.constructor` | main.py:25 | the shared socket starts unbound with no calls made |
| `PortAudit.ProbeSocket.Bind` | main.py:137 | a bind is recorded with its outcome and binds the socket only when it succeeded |
| `PortAudit.ProbeSocket.Close` | main.py:145 | a close is recorded and leaves the socket closed |
| `PortAudit.ProbeCalls` | main.py:136-145 | the port loop makes two socket calls per target, the last of them a close |
| `PortAudit.ProbeCallsShape` | main.py:135-145 | target k is probed by call 2k and the socket is closed by call 2k+1, so every later probe follows a close |
| `PortAudit.Probe` | main.py:136-145 | one pass logs exactly the port's verdict, binds once and closes once, and leaves the socket closed |
| `PortAudit.AuditPorts` | main.py:135-145 | the loop logs the verdicts in policy order, makes exactly the bind/close calls of `ProbeCalls`, and leaves the socket closed when there was a target |
| `Bmids.Run` | main.py:25-145 | the script creates the socket, builds one observer per file entry, then logs all process verdicts followed by all port verdicts |

## Left out

- Reading the YAML policy files and their fixed paths (main.py:18-20, 71-76): the model takes the parsed lists. A missing key, which raises KeyError, is not modelled. Neither are non-string YAML values: YAML 1.1 reads an unquoted `yes`/`no` as a boolean, which then equals neither token. Every token is a string here.
- watchdog scheduling and event delivery (main.py:86-87, 118): `FileWatch.Respond` models only which handler a slot runs, not whether watchdog delivers the event. The pattern filter (`*`, empty ignore patterns, case sensitivity), the directory filter applied at delivery time, and the threading are the library's.
- Starting, stopping and joining only the last observer, and the sleep loop ended by KeyboardInterrupt (main.py:147-155): these are threading and signals.
- psutil's enumeration (main.py:124): each target's scan gets its enumeration as an input, because the script enumerates the process table anew for every target.
- Operating-system bind behaviour (main.py:137-139): each pass's outcome is an input, including for binds on the already-closed socket. A port number the socket module rejects by raising OverflowError, which the script does not catch, is not modelled. Neither is the errno value behind "any other error".
- Logging configuration, timestamps and levels (main.py:29): the process and port alerts are all logged at critical level and are modelled as kinds. The handler texts are modelled exactly. The observer's printed representation (main.py:119) is modelled as one line with no contents.
- Unicode case folding: `str.lower()` is modelled on ASCII letters only.
- The unused `daemon`, `threading`, `os` and `sys` imports.
- A fresh socket per port, supervision of every observer, and missing alerts only for unmatched targets. These are intended corrections that the code does not implement, so the model does not have them.
