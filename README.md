# Machinekit workbench core, modelled in Dafny

This project models the core of a FreeCAD workbench that drives a Machinekit
CNC controller over its network services. Three parts are covered:

- **Service reconciliation and heartbeat of one Machinekit instance**
  (`machinekit.py`). Every half second the instance compares its category
  map (`command`, `error`, `halrcmd`, `halrcomp`, `status`) with the
  endpoints the instance advertises:
  - it removes services whose endpoint went away or changed its connection
    signature (`dsn`);
  - it creates services for new endpoints;
  - it keeps the socket index and the shared poller in step with the map;
  - it re-reads the loaded job when a refresh is pending, and pings every
    live service.

  The class `Machinekit.Machinekit` holds the same fields as the Python
  object and updates them in place. Its methods are proved against the pure
  model in `services.dfy` (`Step`, `Reconcile`), and the properties are
  proved about that model. `Valid` is the invariant every heartbeat keeps:
  - a socket is registered and indexed exactly when its service is live;
  - no two services share a socket;
  - a new socket is never one already registered.
- **Command sequences the workbench builds.** These cover homing in groups
  of `home_sequence`, power, the jog panel's step, continuous, zeroing and
  stop jogs, the `G10 L20 P0` set-position code, and the bounding-box scan.
  Commands are the datatype `Commands.Cmd`. A sequence is a list of batches,
  as handed to the (external) sequencer.
- **Recognising the loaded job and the manual tool change.** The job comes
  from the three header lines of the fetched program (`jobsync.dfy`). The
  tool-change decision (`toolchange.dfy`) is a function of the message
  flags, the tool number, the bound job and the user's answer.

The files, each one module:

- `util.dfy`: Option; Python string helpers (`split`, `join`, `strip`,
  `s[lo:-1]`, `%d`, `list.index`).
- `commands.dfy`: commands and service calls.
- `services.dfy`: the pure reconciliation model and its lemmas,
  `__getitem__` and `providesServices`.
- `jobsync.dfy`: header parsing and job binding.
- `homing.dfy`: the homing sequence.
- `machinekit.dfy`: the `Poller` and `Machinekit` classes, plus the status
  queries and the heartbeat lemmas.
- `jog.dfy`: the jog panel class `Jog` and its builders.
- `toolchange.dfy`: the tool-change controller.

Inputs the model takes instead of doing I/O:

- the advertised endpoints;
- the topic names of the status service;
- the stripped lines of the fetched program;
- the open documents as (file name, objects by name);
- what the status service would answer (`StatusView`);
- the commands that `MKUtils.taskModeManual` and `taskModeMDI` return;
- the user's answer to the tool-change dialog;
- the `%g` text of a position widget.

The model follows the code as written, also where the docstring of
`updateJob` (machinekit.py:328-330) suggests otherwise:

- A job is bound even when its path signature differs from the one in the
  program header. Only the log says "out of date" (`JobSync.BoundDespiteMismatch`).
- A missing task file, remote path or `file` endpoint unbinds the job
  rather than leaving the previous binding in place
  (`Machinekit.UpdateJobMissing`).
- The loop over the open documents has no early exit. The last document
  with the header's file name decides the binding, even when it holds no
  object of that title (`JobSync.BindIsLastMatch`).

## Model

| member | source | states |
|---|---|---|
| Services.NamedKeys | machinekit.py:100-102 | the category names of the register are exactly its non-empty names, none of them empty |
| Services.NamedKeysAppend | machinekit.py:100-102 | the names keep the register's order: names of earlier entries come first |
| Services.CategoriesOfRegister | machinekit.py:47-54 | the reconciled categories are the five named register entries in declaration order; `''` and `file` are neither categories nor have a class |
| Services.CategoryClasses | machinekit.py:47-54 | each of the five categories has its own service class in the register |
| Services.CategoryFacts | machinekit.py:47-54 | the categories are distinct, non-empty, include status, command and both HAL services, and all have a class |
| Services.InitialValid | machinekit.py:94-102 | a fresh instance (every category empty, empty index) satisfies the invariant and has no live socket |
| Services.RemoveService | machinekit.py:134-140 | `removeService` keeps the set of categories |
| Services.RemoveServiceValid | machinekit.py:134-140 | removing a live service unregisters and unindexes its socket, empties its category, changes no other category, keeps the invariant and the foreign registrations, and logs one detach |
| Services.Attach | machinekit.py:163-168 | creating a service keeps the set of categories |
| Services.AttachValid | machinekit.py:163-168 | creating a service for an empty category uses a socket never registered before, indexes and registers it, changes no other category and keeps the invariant |
| Services.GoneEvents | machinekit.py:152-153 | one "status gone" notification per tracked topic, in topic order |
| Services.Vanish | machinekit.py:147-153 | the vanished-endpoint branch keeps the set of categories |
| Services.Connect | machinekit.py:158-169 | the connect branch keeps the set of categories |
| Services.Step | machinekit.py:144-171 | one loop iteration keeps the set of categories |
| Services.StepSpec | machinekit.py:144-171 | one iteration keeps the invariant; afterwards the category is live iff an endpoint is advertised and the register has a class, with that endpoint's `dsn`; the returned flag is true iff it is live; an unchanged `dsn` keeps the service; other categories are untouched; a replacement socket is fresh |
| Services.Reconcile | machinekit.py:142-172 | the loop over the categories keeps the set of categories |
| Services.ReconcileFrame | machinekit.py:142-172 | a pass keeps the invariant and the foreign registrations, only opens sockets, and leaves categories outside the pass untouched |
| Services.ReconcileLive | machinekit.py:144-171 | after a pass each category is live iff an endpoint is advertised and the register has a class, and then with the endpoint's `dsn` |
| Services.ReconcileKeeps | machinekit.py:155-171 | a live service whose endpoint keeps its `dsn` survives the pass unchanged |
| Services.ReconcileFresh | machinekit.py:158-169 | every service that is new after the pass sits on a socket opened during the pass |
| Services.ReconcilePoll | machinekit.py:142-172 | `_updateServicesLocked` returns true iff some category holds a live service after the pass |
| Services.ReconcileSpec | machinekit.py:133-172 | all of the above for a whole pass, and additionally: poller registrations are the foreign ones plus exactly the live services' sockets, and the index keys are exactly the live sockets |
| Services.RegisteredOfValid | machinekit.py:165-168 | in a valid state the poller holds the live sockets besides the foreign registrations |
| Services.StaleReplaced | machinekit.py:155-169 | a `dsn` change detaches the old service (its socket leaves poller and index) before attaching a replacement on a fresh socket; the log reads detach, then attach |
| Services.StatusVanishes | machinekit.py:147-153 | when the status endpoint vanishes the service is detached, followed by one "status gone" notification per topic, and nothing else |
| Services.GetItem | machinekit.py:109-116 | `mk[index]` is something only when the first dotted segment is a live category; without a dot it is that service; with one it is exactly what the service's own lookup gives for the remaining segments, as an attribute |
| Services.ProvidesServices | machinekit.py:219-223 | `providesServices` raises (None) iff a name is not a category; otherwise it answers whether every named service is live, both ways; with no names it answers that for every category |
| Services.ProvidesPair | machinekit.py:219-223 | for two categories the answer is whether both are live |
| Services.ProvidesStatusAndCommand | machinekit.py:219-223 | after a pass, status and command are provided iff both endpoints are advertised |
| Services.ProvidesAfterCommandAppears | machinekit.py:133-172 | with only the status endpoint the pair is not provided; on the pass that sees the command endpoint it becomes provided, and the status service is kept |
| Machinekit.RemoteFilePath | machinekit.py:318-325 | the remote file exists iff the status service is live with a non-empty remote path; it is that path, `/`, then the given name or `FreeCAD.ngc` |
| Machinekit.ReadinessLadder | machinekit.py:225-241 | homed implies powered implies valid implies status and command provided; a powered machine is homed iff no axis is left to home |
| Machinekit.IsValid | machinekit.py:225-233 | status live and valid and command live; its relation to the other queries is ReadinessLadder |
| Machinekit.IsPowered | machinekit.py:235-237 | valid, emergency stop released and motion enabled (see ReadinessLadder) |
| Machinekit.IsHomed | machinekit.py:239-241 | powered and no motion axis left unhomed (see ReadinessLadder) |
| Machinekit.PowerCall | machinekit.py:269-278 | `power()` sends something iff there is a command service |
| Machinekit.PowerToggles | machinekit.py:269-278 | powered: switch off only; emergency stop engaged: release and switch on; otherwise: switch on |
| Machinekit.WithJob | machinekit.py:243-247 | `setJob` binds the job and emits one change notification exactly when it is another object (`SameJob`) than the bound one; nothing else changes |
| Machinekit.WithJobIdempotent | machinekit.py:243-247 | binding the same job twice notifies at most once |
| Machinekit.UpdateJobMissing | machinekit.py:336-338 | without task file, remote path or file endpoint: retry pending, g-code cleared, job unbound, services untouched |
| Machinekit.UpdateJobOtherFile | machinekit.py:339-341 | when the task runs another file: no retry, g-code kept, nothing bound, nothing logged |
| Machinekit.UpdateJobBinds | machinekit.py:341-366 | a program written for a job of an open document binds that job, keeps the fetched lines, and logs "loaded" or "out of date" by signature |
| Machinekit.UpdateJobFrame | machinekit.py:327-368 | `updateJob` changes only job, g-code, retry flag, log and appends notifications |
| Machinekit.UpdateJobSpec | machinekit.py:327-368 | `updateJob` on the instance's state: what it means is stated by UpdateJobMissing, UpdateJobOtherFile, UpdateJobBinds and UpdateJobFrame |
| Machinekit.PingEventsSpec | machinekit.py:194-196 | every ping is of a live category of the pass, and every live category is pinged |
| Machinekit.PingEventsOnce | machinekit.py:194-196 | over distinct categories no service is pinged twice, so with PingEventsSpec each live one is pinged exactly once |
| Machinekit.PingEventsAppend | machinekit.py:194-196 | the pings follow the order of the categories |
| Machinekit.PassValid | machinekit.py:191 | the reconciliation pass of a heartbeat keeps the instance valid and leaves the poller with the foreign registrations plus the live sockets |
| Machinekit.RefreshAndPingFrame | machinekit.py:192-197 | the job refresh and the pings leave services, index, poller and socket count as they are and record the time |
| Machinekit.HeartbeatValid | machinekit.py:189-197 | `_update` keeps the invariant; before the interval it changes nothing; after it, the poller holds the live sockets besides foreign ones and `lastPing` is `now` |
| Machinekit.HeartbeatServices | machinekit.py:189-197 | after an acting heartbeat each category is live iff its endpoint is advertised, and the notifications end with one ping per live service |
| Machinekit.HeartbeatKeepsJob | machinekit.py:192-193 | without a pending refresh the heartbeat keeps job, g-code and log |
| Machinekit.Heartbeat | machinekit.py:189-197 | `_update` on the instance's state: stated by HeartbeatValid, HeartbeatServices and HeartbeatKeepsJob |
| Machinekit.NamedCategories | machinekit.py:100-102 | the constructor's loop makes exactly the named register entries into empty categories |
| Machinekit.Poller.Open | machinekit.py:163 | a new socket is the next number of the shared context |
| Machinekit.Poller.Register | machinekit.py:168 | registration adds the socket to the poller |
| Machinekit.Poller.Unregister | machinekit.py:136 | unregistration removes the socket from the poller |
| Machinekit.Machinekit.constructor | machinekit.py:87-103 | a new instance has every category empty, no job, no g-code, a refresh pending, and is valid |
| Machinekit.Machinekit.RemoveService | machinekit.py:134-140 | the fields change exactly as `Services.RemoveService` says |
| Machinekit.Machinekit.Vanish | machinekit.py:147-153 | the fields change exactly as `Services.Vanish` says |
| Machinekit.Machinekit.Connect | machinekit.py:158-169 | the fields and the flag are as `Services.Connect` says |
| Machinekit.Machinekit.UpdateService | machinekit.py:144-171 | one iteration changes the fields as `Services.Step` says |
| Machinekit.Machinekit.ReconcileKeys | machinekit.py:144-171 | the loop changes the fields and returns the flag as `Services.Reconcile` says |
| Machinekit.Machinekit.UpdateServicesLocked | machinekit.py:133-172 | `_updateServicesLocked` is the pass of `Services.Reconcile` over the categories (see ReconcileSpec) and keeps the invariant |
| Machinekit.Machinekit.SetJob | machinekit.py:243-247 | the state after `setJob` is `WithJob` of the state before |
| Machinekit.Machinekit.UpdateJob | machinekit.py:327-368 | the state after `updateJob` is `UpdateJobSpec` of the state before (see the UpdateJob lemmas) |
| Machinekit.Machinekit.PingServices | machinekit.py:194-197 | every live service is pinged in category order and the time remembered |
| Machinekit.Machinekit.Update | machinekit.py:189-197 | the state after `_update` is `Heartbeat` of the state before, and the invariant holds (see the Heartbeat lemmas) |
| Machinekit.Machinekit.Home | machinekit.py:280-307 | `home()` sends a sequence iff status and command are live, and then exactly `HomePlan` (see the Homing lemmas) |
| Machinekit.GroupAxes | machinekit.py:290-296 | the loop over the configured axes builds the `order` dictionary of `Groups` and its insertion order |
| Machinekit.HomePhases | machinekit.py:298-302 | the loop over the sorted keys builds `Phases`: per group one home batch, then one wait per axis |
| Commands.Singletons | machinekit.py:286 | every manual-mode command in a batch of its own, in order |
| Homing.ToHome | machinekit.py:287 | the axes to home are exactly the indices of unhomed motion axes |
| Homing.Groups | machinekit.py:290-296 | the `order` dictionary; its contents are stated by GroupsAreMembers |
| Homing.GroupsAreMembers | machinekit.py:290-296 | `order` has a batch for exactly the non-empty groups, and each batch is that group's axes to home, in configuration order |
| Homing.MembersSpec | machinekit.py:290-296 | a group member is a configured axis of that `home_sequence` that is to be homed |
| Homing.KeyOrder | machinekit.py:290-298 | the dictionary's keys, each once |
| Homing.Insert | machinekit.py:298 | insertion into an ascending list stays ascending and adds exactly the new key |
| Homing.Sort | machinekit.py:298 | `sorted` of distinct keys: ascending, the same keys |
| Homing.HomeOrder | machinekit.py:298 | the groups are visited in strictly ascending order, each key of `order` once |
| Homing.SortedKeys | machinekit.py:298 | sorting the keys in the order the loop first inserts them gives exactly `HomeOrder`, the ascending list of the keys of `order` |
| Homing.AscendingUnique | machinekit.py:298 | two strictly ascending lists with the same elements are equal, which makes `sorted(order)` well defined whatever the insertion order |
| Homing.HomeBatch | machinekit.py:300 | one home command per axis of the group, in order |
| Homing.Phase | machinekit.py:300-302 | a group gives first the batch homing all its axes, then one wait batch per axis, in the group's order |
| Homing.PhasesPrefix | machinekit.py:298-302 | the phases of the first groups open the phases of all of them |
| Homing.PhasesLayout | machinekit.py:298-302 | the group of the `i`-th key starts at the length of the phases before it with its home batch, then its waits, and the next group starts right after it: groups follow the keys without overlap |
| Homing.PhasesOnlyMembers | machinekit.py:298-302 | every command of the phases homes (with `True`) or waits for an axis of some group |
| Homing.PhasesHomeEveryKey | machinekit.py:298-300 | every group's home batch is among the phases |
| Homing.HomedAxesUntouched | machinekit.py:286-305 | between the manual batches and the MDI batch every command homes or waits for an unhomed, configured axis: homed axes never appear |
| Homing.GroupHomed | machinekit.py:290-300 | the phase of an axis's group homes that axis |
| Homing.UnhomedAxesHomed | machinekit.py:286-305 | every configured unhomed axis is homed in a batch between the manual batches and the MDI batch |
| Homing.HomePlanFrame | machinekit.py:286-305 | the sequence opens with the manual commands one per batch and closes with the MDI batch and `G10 L20 P0 X0 Y0 Z0` |
| Homing.HomePlan | machinekit.py:280-307 | the sequence `home()` sends; stated by HomePlanFrame, HomePlanLayout, HomedAxesUntouched and UnhomedAxesHomed |
| Homing.HomePlanLayout | machinekit.py:286-305 | after the manual batches the groups come in the order of `HomeOrder` (ascending `home_sequence`): the `i`-th starts at the length of the manual batches plus the phases before it, with one batch homing all of its `order` entry (exactly its members in configuration order, by GroupsAreMembers), then one wait per entry, the next group right after it; the plan is the manual batches, the phases and two more batches long |
| JobSync.PrefixLengths | machinekit.py:352-355 | the slice offsets 14, 15 and 20 are the lengths of the header prefixes |
| JobSync.ParseHeader | machinekit.py:352-355 | a header is found iff there are more than two lines and each of the first three starts with its prefix |
| JobSync.SliceOfWrapped | machinekit.py:353-355 | slicing `prefix + t + ")"` from the prefix length to the last character gives `t` |
| JobSync.ParseHeaderLines | machinekit.py:352-355 | parsing the written header lines gives back title, file name and signature, whatever follows |
| JobSync.HeaderLinesOfParse | machinekit.py:352-355 | header lines closing with `)` are exactly the lines written for the header they parse to |
| JobSync.BindIsLastMatch | machinekit.py:357-361 | the bound job is the titled object of the last document with the header's file name; with no such document nothing is bound |
| JobSync.Bind | machinekit.py:357-361 | the documents loop binding the job; stated by BindIsLastMatch and its corollaries |
| JobSync.BindOfLastMatch | machinekit.py:357-361 | the last matching document decides the binding |
| JobSync.BindNoMatch | machinekit.py:357-361 | without a matching document nothing is bound |
| JobSync.BoundHasLastMatch | machinekit.py:357-361 | a bound job comes from the last matching document |
| JobSync.BoundDespiteMismatch | machinekit.py:359-366 | a job of differing signature is bound nonetheless, with one "out of date" notice |
| JobSync.NoticesSingle | machinekit.py:359-366 | one matching document gives exactly one notice, "loaded" or "out of date" by signature |
| JobSync.NoticesNone | machinekit.py:359-366 | no matching document gives no notice |
| JobSync.RefreshBindsWrittenJob | machinekit.py:336-366 | a program written for an open document's job, fetched from the running file, binds that job, keeps the lines and logs one notice |
| JobSync.RefreshJob | machinekit.py:331-366 | the decisions of `updateJob`; stated by RefreshBindsWrittenJob, RefreshWithoutHeader and the UpdateJob lemmas |
| JobSync.RefreshWithoutHeader | machinekit.py:352 | fetched lines lacking the header (two lines or fewer, or any of the three prefixes missing) bind and log nothing |
| JobSync.SameJobEquivalence | machinekit.py:245 | job identity (same object name in the same document) is an equivalence, holds of equal snapshots, and no job is the same only as no job |
| Util.IndexOf | MachinekitJog.py:153 | `list.index`: the position of the first occurrence |
| Util.FindIndexOf | MachinekitJog.py:152-156 | the total lookup finds something iff the element occurs, and then its first position |
| Util.IndexOfDistinct | MachinekitJog.py:153 | in a list without repetitions an element is found where it stands |
| Util.Split | machinekit.py:110 | `split`: never empty, no piece holds the separator, joining gives the string back |
| Util.Join | MachinekitJog.py:139-140 | `' '.join`; its relation to `split` is in Split, its growth in JoinSnoc |
| Util.JoinSnoc | MachinekitJog.py:139-140 | joining one more word appends the separator and the word |
| Util.SliceDropLast | machinekit.py:353 | `s[lo:-1]` keeps the characters from `lo` up to the last, and is empty when that range is |
| Util.Strip | MachinekitJog.py:95 | `str.strip`; stated by StripSpec and StripUnchanged |
| Util.StripSpec | MachinekitJog.py:95 | `strip` keeps a middle part and removes only whitespace (Python's `str.isspace` set) from both ends |
| Util.StripUnchanged | MachinekitJog.py:95 | a string without surrounding whitespace (by `str.isspace`) is its own strip |
| Util.NatToString | MachinekitManualToolChange.py:27 | `%d` of a natural number: decimal digits whose value is the number |
| Jog.AxisLetterFacts | machinekit.py:42-43 | nine axes, the forward letters uppercase and the backward letters lowercase, none repeated, none in both lists |
| Jog.IndexAndVelocityOfLetters | MachinekitJog.py:150-158 | an uppercase letter gives its axis and the maximal velocity, its lowercase counterpart the same axis and the negated velocity |
| Jog.ForwardLetter | MachinekitJog.py:152-154 | a forward letter gives its position and the positive velocity |
| Jog.BackwardLetter | MachinekitJog.py:155-157 | a backward letter gives its position and the negated velocity |
| Jog.LetterIndexBound | MachinekitJog.py:150-158 | every jog letter names one of the nine axes, by `list.index` in its own list |
| Jog.IndexAndVelocity | MachinekitJog.py:150-158 | axis number and signed velocity of a jog letter; stated by IndexAndVelocityOfLetters, ForwardLetter and BackwardLetter |
| Jog.StepJogs | MachinekitJog.py:182-190 | the step-jog batch; stated by StepJogsMeaning |
| Jog.StartJogs | MachinekitJog.py:199-202 | the continuous-jog start batch; stated by EndAbortsBegun |
| Jog.EndJogs | MachinekitJog.py:212-215 | the abort batch for released axes; stated by EndAbortsBegun |
| Jog.EndAbortsBegun | MachinekitJog.py:196-219 | releasing a continuous-jog button aborts exactly the axes pressing it started, in order, and starting gives no distance |
| Jog.StepJogsMeaning | MachinekitJog.py:182-190 | a step jog moves each requested axis, in letter order, by the distance, forward for uppercase and backward for lowercase |
| Jog.StepJogForward | MachinekitJog.py:186-190 | the step jog of a forward letter |
| Jog.StepJogBackward | MachinekitJog.py:186-190 | the step jog of a backward letter |
| Jog.JogSequence | MachinekitJog.py:177-180 | a jog is sent iff its batch is non-empty, as the manual-mode commands one per batch followed by the jog batch |
| Jog.ZeroJogsOne | MachinekitJog.py:172-176 | one axis is jogged home only when it is away from zero |
| Jog.ZeroJogsTwo | MachinekitJog.py:172-176 | two axes are considered first then second, each only when away from zero |
| Jog.BackwardXYZ | MachinekitJog.py:175-176 | lowercase x, y, z jog axes 0, 1, 2 backward |
| Jog.ZeroJogsXY | MachinekitJog.py:168-176 | zeroing with `-` jogs axis 0 then axis 1 backward by their display positions, leaving out an axis at zero |
| Jog.ZeroJogsZ | MachinekitJog.py:168-176 | zeroing with any other selector jogs axis 2 backward by its display position, or nothing at zero |
| Jog.ZeroJogs | MachinekitJog.py:168-176 | the zeroing batch; stated by ZeroJogsOne, ZeroJogsTwo, ZeroJogsXY and ZeroJogsZ |
| Jog.JogAxesStop | MachinekitJog.py:221-226 | the running sequence is aborted first; then the manual commands and one batch aborting axes 0, 1, 2 are sent |
| Jog.JoinOfPrefix | MachinekitJog.py:134-140 | the code starts as `G10 L20 P0` |
| Jog.PositionCodeAllZero | MachinekitJog.py:130-140 | setting x, y and z to zero gives `G10 L20 P0 x0 y0 z0` |
| Jog.PositionCode | MachinekitJog.py:134-140 | the `G10 L20 P0` code; stated by JoinOfPrefix, PositionCodeAllZero and Jog.Jog.SetPosition |
| Jog.XYJogsMeaning | MachinekitJog.py:228-238 | at most two jogs: axis 0 then axis 1 backward by the coordinate differences, and none iff the points roughly coincide |
| Jog.XYJogs | MachinekitJog.py:228-238 | `_jogXYCmdsFromTo`; stated by XYJogsMeaning |
| Jog.Corners | MachinekitJog.py:318-327 | four corners starting at the lower left |
| Jog.Min | MachinekitJog.py:330 | `min` is an element no greater than any |
| Jog.ArgMin | MachinekitJog.py:330 | `d.index(min(d))` is a least position, the first one |
| Jog.Distances | MachinekitJog.py:329 | one distance per corner |
| Jog.ClosedRotation | MachinekitJog.py:331-332 | `pts[rot:] + pts[:rot]` closed by its head: one longer, starting and ending at `pts[rot]`, the rest in rotated order |
| Jog.ScanPath | MachinekitJog.py:318-332 | the scan path has five points |
| Jog.RotationStartsNearest | MachinekitJog.py:329-332 | the rotation starts at a nearest point, every earlier point strictly farther |
| Jog.ScanPathShape | MachinekitJog.py:318-332 | the path ends where it starts, visits the corners in their order round the box, and starts at the first nearest corner |
| Jog.Sides | MachinekitJog.py:340-341 | one batch per consecutive pair of points |
| Jog.ScanJobShape | MachinekitJog.py:308-349 | a scan happens iff there is a job with a valid box; it sends the manual commands, one batch to the first corner unless the machine is on it, then one per side, four in all |
| Jog.ScanPlan | MachinekitJog.py:308-349 | `scanJob`; stated by ScanJobShape |
| Jog.ContinuousStripped | MachinekitJog.py:94-95 | `Continuous` survives `strip` unchanged |
| Jog.ScanCorners | MachinekitJog.py:318-332 | the corner list is built, rotated and closed as `ScanPath` says |
| Jog.StepJogBatch | MachinekitJog.py:185-190 | the loop of `jogAxes` builds `StepJogs` (see StepJogsMeaning) |
| Jog.StartJogBatch | MachinekitJog.py:199-202 | the loop of `jogAxesBegin` builds `StartJogs` |
| Jog.EndJogBatch | MachinekitJog.py:212-215 | the loop of `jogAxesEnd` builds `EndJogs` (see EndAbortsBegun) |
| Jog.Jog.constructor | MachinekitJog.py:88 | a fresh panel is not set up and has no selected row |
| Jog.Jog.SetupUI | MachinekitJog.py:92-99 | the distance list gains `Continuous` and the stripped increments, its first row is selected and the panel is set up |
| Jog.Jog.JogAxes | MachinekitJog.py:182-194 | a step jog is sent iff not jogging continuously and there are axes, and it is `StepJogs` |
| Jog.Jog.JogAxesBegin | MachinekitJog.py:196-206 | a continuous jog is started iff jogging continuously and there are axes, with `StartJogs` |
| Jog.Jog.JogAxesEnd | MachinekitJog.py:209-219 | the axes are aborted iff jogging continuously and there are axes, with `EndJogs` |
| Jog.Jog.JogAxesZero | MachinekitJog.py:168-180 | the zero jog is `ZeroJogs` of the considered axes, and nothing is sent iff every considered axis is at zero |
| Jog.Jog.SetPosition | MachinekitJog.py:130-144 | the MDI commands followed by executing `G10 L20 P0` plus one ` letter value` word per letter, the value 0 without a widget |
| Jog.Jog.JogXYCmdsFromTo | MachinekitJog.py:228-238 | the loop-free builder gives `XYJogs` (see XYJogsMeaning) |
| Jog.Jog.ScanJogs | MachinekitJog.py:337-341 | the leading batch unless already on the first corner, then the sides |
| Jog.Jog.SideJogs | MachinekitJog.py:340-341 | one `_jogXYCmdsFromTo` batch per consecutive pair of points |
| Jog.Jog.ScanJob | MachinekitJog.py:308-349 | `scanJob` gives `ScanPlan`: no job, an invalid box, or the scan sequence (see ScanJobShape) |
| ToolChange.FirstWithNumber | MachinekitManualToolChange.py:53-55 | the first controller with the tool number, or none when no controller has it |
| ToolChange.GetTC | MachinekitManualToolChange.py:50-56 | a controller is found iff there is a job with a controller for the tool; it has that number and belongs to the job |
| ToolChange.ChangedDecisions | MachinekitManualToolChange.py:19-48 | tool 0 is confirmed without asking; another tool is asked for, OK confirms, Abort sends exactly one task abort and confirms nothing; without a request a set `toolChanged` is reset; otherwise nothing happens |
| ToolChange.Changed | MachinekitManualToolChange.py:19-48 | the tool-change decision; stated by ChangedDecisions and PromptNamesTool |
| ToolChange.PromptNamesTool | MachinekitManualToolChange.py:25-34 | the prompt names the requested tool first, followed by the controller's label when the job has one |
| ToolChange.ConnectedAfterPass | MachinekitManualToolChange.py:16-17 | after a pass the controller is connected iff both HAL endpoints are advertised |
| ToolChange.IsConnected | MachinekitManualToolChange.py:16-17 | both HAL services live; stated by ConnectedAfterPass |

## Left out

- ZeroMQ I/O is not modelled: the context, sockets, message reception, protobuf decoding and the module-level drain loop (machinekit.py:118-131, 174-187). Sockets are numbers and the poller is a set of them.
- The FTP fetch is not modelled (machinekit.py:342-350). The stripped lines it would return are an input.
- FreeCAD's open documents are an input, a list of (file name, objects by name). `MKUtils.pathSignature` is a string stored in each job.
- Executing a command sequence is not modelled. The sequencer, the evaluation of wait gates and aborts live in `MKServiceCommand`/`MKCommand`, which are not part of this model. Only the sequences built are modelled.
- `MKUtils.taskModeManual` and `taskModeMDI` are given as opaque command lists.
- Qt is not modelled: signals become an appended event log, and dialogs, widgets, `updateUI`, `updateDRO` and the window title are left out.
- The selection observer `addSelection` is not modelled, because it can send `None` as a batch (MachinekitJog.py:257, 264).
- Threading and the instance lock are not modelled; every operation is atomic.
- Floating point is exact `real` arithmetic.
- Unit conversion of the jog distance (MachinekitJog.py:188-189) is not modelled. The distance arrives in machine units.
- The `%g` rendering of a widget value is an input string.
- `displayPos` arrives as a `Position` (actual position less the g5x offset). That offset is only logged by `setPosition`.
- `PathGeom.isRoughly` and `pointsCoincide` are not part of this model. They are taken as absolute-difference tests, with the geometry library's tolerance as a parameter for `pointsCoincide`.
- `distanceToPoint` is replaced by the squared distance, which gives the same nearest corner.
- `changed()` of `Machinekit` and of `Jog` is not modelled (machinekit.py:199-217, MachinekitJog.py:302-306). It forwards messages to signals, and when a status update names the task file or remote path it re-runs `updateJob`, which is modelled.
- `Jog.__getitem__` and `Jog.isConnected` are not modelled (MachinekitJog.py:101-128). They depend on `connectServices`/`ServiceConnector`, which the shown `machinekit.py` does not define. `jogContinuously` is modelled as the predicate `Jog.Jog.JogContinuously`.
- Jog.IndexAndVelocity: requires an axis letter. For any other character the source raises `UnboundLocalError`, and no call site passes one.
- Machinekit.WithJob, Machinekit.Machinekit.SetJob: Python compares document objects by identity. A job is a value here, a snapshot of the object, and identity is its owning document's Name together with the object's Name (`SameJob`). The model does not check that the jobs a document holds carry that document's Name. Rebinding the same object keeps the newest snapshot, which the live object always is in Python.
- Services.GetItem: the lookup inside a service's topic tree is a parameter. The service classes are not part of this model.
- `name()`, `mdi()`, `boundBox()`, `getJob()` and the resource helpers are not modelled; they are outside the modelled core.
- Services.RemoveService, Services.Attach, Services.Vanish, Services.Connect, Services.Step, Services.Reconcile: their own contracts state only that the set of categories is kept. What they decide is stated by RemoveServiceValid, AttachValid, StepSpec and the Reconcile lemmas.
- Jog.ScanPath, Jog.Corners, Jog.Sides, Jog.Distances: their own contracts state only lengths and the first corner. The ordering and the nearest start are stated by ScanPathShape, RotationStartsNearest and ScanJobShape.
