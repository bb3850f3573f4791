# robotctl: a model of its state machine, its files and its experiments

`robotctl` runs on a robot. It keeps the robot on WiFi (as a client when it can, as a fallback access
point when it cannot), keeps the robot's identity in `KEY=value` text and derives host files from it,
and starts experiment stacks with `docker compose`. This project models those three parts in Dafny and
proves what they keep over every run, every text and every list of targets.

**WiFi supervisor.** `World.dfy` is the machine underneath: a process table, a clock, the notices sent
out, and a trace of everything done to the machine or asked of it (commands, spawns, signals, waits, looks
and sleeps), each with the time it began and the process table right after it. Every answer of the real
machine (did the child exit, did the command work, is the file there, is there an address) is chosen
arbitrarily. Contracts say what a step records in full and in order. `Daemon.dfy`, `Hook.dfy`, `Client.dfy`,
`Ap.dfy` and `Supervisor.dfy` are the imperative parts, and `Visits.dfy` says what a visit to each state may
do; the implicit drops of the source are explicit calls. A child handle remembers that
its child was reaped, and that memory is the `Reaped` phase of the process table, so a `Daemon` has no
other changing state. `Safe` holds at every instant of every run: wpa_supplicant never runs beside hostapd
or dnsmasq, no two daemons of a kind run together, the interface is only flushed, addressed or raised while
no daemon runs, and nothing is signalled after it was collected. "Running" is the cautious reading: a
child that may still be alive. `Run.dfy` proves that the driver loop makes only runs in the sense of
`IsRun`, with consistent ownership between turns, and `RunProperties.dfy` proves what all such runs share.
Nothing is assumed about time: the machine also counts what was slept and by how much sleeps overran, and keeps what
every command and every lease request took, and a bound on the clock is stated in terms of these. It
counts refusals too, the commands that failed, the processes that could not be started and the questions that
found no address; so a contract can say that an attempt only fails because of one. `Holding.dfy` proves
that an access point stays up unless something outside the supervisor ends it, `Downtime.dfy` how long
it can take, from the start of a client cycle that fails, until an access point is up, and `Following.dfy`
that what was seen in a turn decides where it leads: no statement there mentions the transition table.

**Text store.** `Text.dfy` has trimming and lines as the source language defines them. `Conf.dfy` has the
reader and the replace-or-append writer, the latter for any predicate that picks lines, because the
program uses the same loop for `KEY=` lines and for hosts entries. `ConfLaws.dfy` says what the reader sees
of the writer's work, and `RobotConf.dfy` that robot.conf behaves as a map over any sequence of updates.
The program trims a line before reading it but rewrites only flush-left lines, so a key is *shadowed* when
its last assignment is indented and an earlier flush-left one exists; every statement says exactly what
happens on either side of that condition. `AtomicWrite.dfy` lets any number of processes write, crash and
rename in any interleaving, and `Paths.dfy` shows when the program's own files are safe from each other's
temporary ones. `HostFiles.dfy` derives the host files, and an error there always stands for one refusal of
the disk. `Profile.dfy` is the build's own reader, compared with the run-time one. `ApConfig.dfy` loads the
access point configuration and prints it, over addresses as text (`Addresses.dfy`) and lengths in bytes
(`Utf8.dfy`).

**Experiments.** `Targets.dfy` parses and displays targets, `Merging.dfy` combines them, `Enabled.dfy` reads
enabled.conf, `Experiments.dfy` selects targets and builds argument lists, `Starting.dfy` starts them.

Where the code and its comments differ, the code is followed: setting the ROS domain ID writes the key and
derives nothing from it (src/id.rs:329-336); a 256 is "not an integer" because the number is parsed in 8
bits (src/id.rs:130-139); the build reads `KEY =value` and the program does not, although the build's
comment says the syntax is the same (build.rs:306-307); the comment above the stop of a daemon says it has
not been waited for, but a failed wait also leads there (src/wifi/daemon.rs:56-64), unlike in the hook,
which then signals nothing; and "the files are compared before being written" makes a second apply silent
only on hosts files without stray carriage returns (src/id.rs:206-209).

## Model

| member | source | states |
|---|---|---|
| `StateMachine.HookNamesTellStatesApart` | src/wifi/supervise.rs:27-36 | The three names and the one for the stack being off; a hook can tell every state from every other, and from that. |
| `World.World.TryWait` | src/wifi/daemon.rs:41-53 | A reaped child answers from memory and leaves no record; otherwise the answer is recorded: running, collected now, or a wait that failed. |
| `World.SafeHistory` | src/wifi/supervise.rs:173-175 | What a safe machine's whole history shows: at no instant a station beside an access point or two daemons of a kind; the interface only acted on while no daemon ran; no signal to a child that was collected. |
| `Daemons.Daemon.IsRunning` | src/wifi/daemon.rs:41-53 | The child is asked exactly once, the answer is recorded, and the daemon counts as running exactly when it was found running. |
| `Daemons.Daemon.Stop` | src/wifi/daemon.rs:56-88 | Everything a stop does, in order: one question, SIGTERM, a question at every poll, SIGKILL and a wait; it is cut off where the child is found to have exited. SIGKILL comes no sooner than the grace after SIGTERM; an already reaped child gets nothing at all; afterwards the child is reaped unless a wait failed. |
| `Daemons.SecondStopIsSilent` | src/wifi/ap.rs:28-34 | The second stop a dropped session gives each daemon does nothing unless the first met an error. |
| `Hook.WaitUntil` | src/wifi/hook.rs:72-86 | The child is asked, and a poll is slept after each answer that it still runs, until it has exited, cannot be waited for, or the deadline has passed; at most one poll is slept past the deadline. |
| `Hook.Terminate` | src/wifi/hook.rs:91-102 | SIGTERM, a bounded wait, and SIGKILL only when that wait ended with the child still running. |
| `Hook.NotifyWithin` | src/wifi/hook.rs:32-63 | Everything one notification does, in order, and when: SIGTERM no sooner than the limit, SIGKILL no sooner than the grace after it, and nothing at all after a failed wait. A configured hook is started unless the machine refuses; the child is reaped unless a wait failed; no daemon is touched. |
| `Hook.Notify` | src/wifi/hook.rs:26-28 | The same with the shipped limits; an empty hook runs nothing. |
| `Hook.TerminatedActions` | src/wifi/hook.rs:91-102 | Everything the escalation does, in order, and that SIGKILL comes no sooner than the grace after SIGTERM. |
| `Tuning.FromEnv` | src/config.rs:177-194 | What the loops work with is the lowest setting that is no lower than the environment's, knob by knob, and gives them at least one attempt and intervals of at least a second. |
| `Tuning.DhcpAttemptsCoverTimeout` | src/wifi/client.rs:63-66 | The lease attempts last at least the timeout and less than one attempt longer; a zero timeout still makes one. |
| `Tuning.PeriodsAreCeil` | src/wifi/supervise.rs:244-261 | The number of polls that reaches the retry time no sooner than needed is the quotient rounded up. |
| `Client.Connect` | src/wifi/client.rs:36-45 | One look for client.conf. If it is not there nothing else is done. On success the interface was checked before it was flushed, flushed before it was raised, raised before the supplicant was started, and only then came the lease request and the address, and nothing else was done; failure has met exactly one refusal and cuts that order off at it, with the supplicant stopped if it was started. |
| `Client.ConnectInner` | src/wifi/client.rs:47-95 | The same without the look for client.conf; at most four commands and one lease request, of as many attempts as the timeout gives; a supplicant that was started is stopped before the failure is returned. |
| `Client.Teardown` | src/wifi/client.rs:97-99 | The addresses are flushed, with no daemon running. |
| `Ap.ApSession.IsHealthy` | src/wifi/ap.rs:21-25 | Both daemons are asked, hostapd first, whatever the first answers; healthy is exactly both found running. |
| `Ap.ApSession.Drop` | src/wifi/ap.rs:28-34 | Everything a drop does, in order: both daemons stopped, one flush, both stopped again, the second time in silence unless a wait failed; afterwards no daemon runs. |
| `Ap.Start` | src/wifi/ap.rs:37-79 | On success both configurations were written before the interface was flushed, it was flushed before its one address was added, addressed before it was raised, and raised before dnsmasq and then hostapd were started, and nothing else was done; failure has met exactly one refusal and cuts that order off at it, with dnsmasq stopped if it was started. |
| `Supervision.Supervisor.StopClient` | src/wifi/supervise.rs:277-281 | wpa_supplicant is stopped before the flush; without a session nothing happens. |
| `Supervision.Supervisor.StopAp` | src/wifi/supervise.rs:283-286 | The session is dropped, or nothing happens. |
| `Supervision.Supervisor.Drop` | src/wifi/supervise.rs:93-107 | Leaving the run drops both sessions, and no daemon survives it. |
| `Supervision.Supervisor.TryClient` | src/wifi/supervise.rs:172-214 | The access point is taken down first; then come the failed attempts with a pause between any two, and the one that ended the cycle. The event says whether a session is held; every failed attempt met one refusal; commands, lease requests and sleep are bounded by their number. |
| `Supervision.Supervisor.RetryConnect` | src/wifi/supervise.rs:177-213 | As many attempts as configured, in order, a full pause recorded after each but the last, ended early only by success or a missing client.conf. |
| `Supervision.Supervisor.AttemptOnce` | src/wifi/supervise.rs:178-205 | One look for client.conf per attempt and everything done by it in order; a failed one met exactly one refusal and is followed by its pause. |
| `Supervision.Supervisor.WatchClient` | src/wifi/supervise.rs:217-229 | An interval is slept before every look; every look but the last found the address; at the first that does not, the supplicant is stopped and then the addresses are flushed. |
| `Supervision.Supervisor.RaiseAp` | src/wifi/supervise.rs:235-242 | An access point that is up is left alone; otherwise the identity and the configuration are read and one is started, or exactly one refusal kept it from being started and nothing is left running. |
| `Visits.StartStepsRaise` | src/wifi/supervise.rs:235-242 | Starting from nothing reads robot.conf, then fallback-ap.conf, and then brings the access point up in the order of its start; ten actions and no others. |
| `Supervision.Supervisor.ServeAp` | src/wifi/supervise.rs:232-275 | At some moment of the visit its access point is up, kept untouched or started just now. From then on both daemons are looked at after every interval. The visit ends at the first look that does not find both running, and the session is dropped; or else at the first that is over when the retry is due, with one look for client.conf, and with exact sleeps after the rounded-up number of looks. An error is one refusal of the start. |
| `Supervision.Supervisor.WatchAp` | src/wifi/supervise.rs:244-275 | The same for the loop alone: each look is an interval, a question about hostapd and one about dnsmasq; retry exactly when client.conf is found, hold when it is not. |
| `Supervision.Supervisor.LookAtAp` | src/wifi/supervise.rs:249-257 | One look; a session not found healthy is dropped at once. |
| `Runs.Run` | src/wifi/supervise.rs:82-122 | The interface is checked and the hook called before the first turn. Every prefix of every run is a run in the sense of IsRun, and ends exactly at its last boundary, or while a connection is still being watched, or with a refused start of an access point and no daemon left running. No instant of the history shows a station beside an access point or the interface acted on under a daemon, and no collected child was ever signalled. |
| `Runs.Drive` | src/wifi/supervise.rs:101-121 | The loop extends a run turn by turn, following the transition table, with sessions and state always in agreement. |
| `Runs.TakeTurn` | src/wifi/supervise.rs:106-120 | One turn: the visit with everything it promises, the table, the hook on a change of state, readiness once; an error drops the sessions. |
| `Runs.Step` | src/wifi/supervise.rs:163-169 | Each visit raises only the events of its state, did what that event takes, and leaves what the next state expects. |
| `RunProperties.HooksAlternate` | src/wifi/supervise.rs:56-75 | In every run the hook hears try-client first and at every other call, and its last call names the current state. |
| `RunProperties.ReadyExactlyOnce` | src/wifi/supervise.rs:115-118 | Readiness is announced exactly once, right after the hook call of the first settled state, and before the first turn not at all. |
| `Following.RunFollows` | src/wifi/supervise.rs:56-112 | In every run, what a turn saw (an address found, an address gone, client.conf found, a daemon gone) decides the next state and what is held in it, without reference to the transition table; the hook hears of it exactly when the state changed. |
| `Following.RetryIsMade` | src/wifi/supervise.rs:259-273 | A turn beside an access point that finds client.conf leaves the access point up and leads to TryClient, the last thing the hook hears; the next turn takes that access point down and then looks for client.conf. |
| `Following.DeadApIsReplaced` | src/wifi/supervise.rs:251-257 | A turn that finds a daemon gone leads to FallbackAp without an access point and without a hook call, and the next completed turn starts another one, in order. |
| `Following.LostLinkIsRetried` | src/wifi/supervise.rs:217-229 | A connection only ends in a look that finds no address, and leads straight to TryClient, of which the hook hears; the next turn first of all looks for client.conf. |
| `Following.CycleIsSettled` | src/wifi/supervise.rs:172-214 | A client cycle leads to ClientUp with a connection exactly when it found an address, and to FallbackAp holding nothing exactly when it did not, and the hook hears which. |
| `Holding.HeldForever` | src/wifi/supervise.rs:259-270 | In every run, as long as client.conf is not found and neither daemon exits on its own or fails to be asked after, the access point, every process and every notice stay as they are, nothing is done but to look, and each turn lasts at least the retry interval; nothing is assumed of the supervisor. |
| `Holding.TurnHolds` | src/wifi/supervise.rs:232-275 | One turn that nothing outside disturbs leaves a running access point alone. |
| `Downtime.DowntimeIsBounded` | src/wifi/supervise.rs:172-242 | From the start of any client cycle that ends without a connection, during which the old access point is taken down, until the moment at which the history of the run records the start of hostapd: no longer, not counting what sleeps overrun, than the stops, the pauses, one hook call, the configured timeout and one more lease attempt for every connect, and a stated number of commands. |
| `Downtime.ShippedDowntime` | build.rs:166-201 | With the shipped settings that is 202 seconds and 24 commands, or 182 seconds and 23 commands without an access point to take down. |
| `Downtime.ErrandsAreBrisk` | src/wifi/client.rs:63-84 | So many commands and lease requests take no longer than so many times the longest of each. |
| `Text.LinesOfUnlines` | src/conf.rs:43-51 | Printing lines and reading them back drops exactly one carriage return from each. |
| `Text.LinesConcat` | src/experiments.rs:338-338 | The lines of newline-terminated text followed by more are the lines of both. |
| `Text.TrimIgnoresTrailing` | src/conf.rs:14-15 | Trailing whitespace, a carriage return included, never changes what is read. |
| `Text.TrimIsMiddle` | src/conf.rs:14-15 | Whitespace on both sides of a text that has none at its ends is exactly what trimming takes off. |
| `Text.BlankOrCommentExactly` | src/experiments.rs:339-343 | The test on the trimmed line holds exactly of lines with nothing but whitespace, or nothing but whitespace before a number sign. |
| `Text.WhitespaceExactly` | src/conf.rs:14-15 | The whitespace characters, listed by number, and the control characters. |
| `Text.UnterminatedLine` | src/conf.rs:13-13 | A last line without a line feed is a line and keeps its carriage return. |
| `Text.SplitThenJoin` | src/experiments.rs:285-288 | Joining what splitting gives yields the text, and no part has the separator in it. |
| `Text.JoinThenSplit` | src/experiments.rs:285-288 | And any such parts are what splitting their joining gives. |
| `Utf8.ByteLengthCountsBytes` | src/wifi/config_gen.rs:86-93 | The length counted for names is the number of bytes of the encoding in section 3 of RFC 3629. |
| `Utf8.BytesTellTextsApart` | src/wifi/config_gen.rs:86-93 | That encoding tells different texts apart. |
| `Conf.UpsertKey` | src/conf.rs:32-59 | The loop computes the replace-or-append of the generic writer, and a missing file becomes one line. |
| `Conf.RewriteKeepsTheRest` | src/conf.rs:43-58 | Lines not picked keep their place and content up to one carriage return, every picked line is the entry, and there is at least one. |
| `Conf.RewriteAbsorbs` | src/conf.rs:32-59 | Writing a then b equals writing b, if and only if no line to be kept ends in a carriage return. |
| `Conf.RewriteIdempotent` | src/id.rs:262-286 | Writing the same entry twice equals writing it once, under the same exact condition. |
| `Conf.RewriteSettles` | src/id.rs:206-287 | After n + 1 passes another pass changes nothing, if and only if no kept line of the first text ended in more than n carriage returns. |
| `Conf.StripQuotesExactly` | src/conf.rs:19-29 | A value between two quotes of the same kind, double or single, is what stands between them; any other value is itself. |
| `Conf.ReadsAroundFirstEquals` | src/conf.rs:10-17 | A line assigns to the text before its first equals sign, whatever whitespace is before that, and to no other key; it assigns the text after, trimmed and unquoted. |
| `Conf.NoEqualsNoValue` | src/conf.rs:10-17 | A line without an equals sign assigns nothing. |
| `ConfLaws.FlushLeft` | src/conf.rs:10-17 | A flush-left assignment reads as its own key, trimmed and unquoted, and as no other key. |
| `ConfLaws.UpsertReads` | src/conf.rs:10-59 | For every text, a written key reads the written value, unless it is shadowed, and then what it read before; shadowing never changes. |
| `ConfLaws.UpsertKeepsOthers` | src/conf.rs:32-59 | Writing one key changes what no other key reads. |
| `ConfLaws.LastUpsertWins` | src/conf.rs:32-59 | Setting a key twice is setting it to the second value, if and only if no other line ends in a carriage return. |
| `ConfLaws.WriteToNothingReads` | src/conf.rs:35-37 | A new file reads the one value and nothing else. |
| `ConfLaws.QuotedReadsBack` | src/conf.rs:19-29 | Any value without a line feed, in double quotes, reads back whole. |
| `ConfLaws.ShadowedKeyIsNotUpdated` | src/conf.rs:14-44 | After a flush-left and then an indented assignment, no write to the key is ever read. |
| `ConfLaws.SetToThreeReadsTwo` | src/conf.rs:14-44 | A concrete file on which setting a key has no effect on what is read. |
| `ConfLaws.StrayCrsGoOneByOne` | src/conf.rs:43-51 | A family of texts on which setting a key twice to the same value is not setting it once. |
| `ConfLaws.CommentLosesBoth` | src/conf.rs:43-51 | A concrete one. |
| `AtomicWrite.TmpPathsApart` | src/conf.rs:90-90 | No path is its own temporary path and no two processes share one. |
| `AtomicWrite.TmpPathIsBeside` | src/conf.rs:90-99 | A file is prepared in its own directory, under its name with the extension, if any, replaced by tmp and the process number. |
| `AtomicWrite.PreparesIsTmpPath` | src/conf.rs:90-90 | What can be read off a path decides whether it is the temporary path of another for some process. |
| `AtomicWrite.StepKeepsInvariant` | src/conf.rs:90-99 | Truncating, writing more, renaming, failing to rename and crashing all keep temporary files private and targets whole. |
| `AtomicWrite.ReadersSeeWholeContents` | src/conf.rs:79-102 | Under every interleaving with crashes anywhere, a target holds its first content or that of the last successful rename, always one complete content passed to a write. |
| `AtomicWrite.UninterruptedWrite` | src/conf.rs:92-99 | One write on its own leaves the content in the target, no temporary file, and nothing else changed. |
| `ProgramPaths.WrittenIsNoTarget` | src/conf.rs:90-90 | The files the program writes are safe from each other's temporary files if and only if neither host file is named like a temporary file of any. |
| `ProgramPaths.OwnFilesAreNamed` | src/config.rs:82-107 | Each file the program writes under a name of its own lies in its directory under that name. |
| `ProgramPaths.UsualPathsAreSeparate` | build.rs:66-101 | With the host files in their default places the directories may be set to anything. |
| `ProgramPaths.ProgramFilesStayWhole` | src/config.rs:74-107 | No file of the program is ever seen torn, whatever its processes do at once. |
| `Files.FileSystem.ReadOptional` | src/conf.rs:61-67 | A missing file is an answer and never an error; an error is one refusal of the disk. |
| `Files.FileSystem.WriteAtomically` | src/conf.rs:81-102 | The whole file system after success; after a failure, which takes exactly one refusal of the disk at some step, only the temporary file may differ. |
| `Files.FileSystem.WriteIfChanged` | src/conf.rs:70-77 | Writes exactly when the content differs, and says so; a failure leaves the content, and every other file but the temporary one, as it was. |
| `Numerals.ParseUndoesPrint` | src/id.rs:127-146 | A printed number parses as itself up to the limit of the type and not beyond. |
| `Numerals.ParsesWhatIsDenoted` | src/id.rs:127-138 | A text parses as a number exactly when it is digits that denote it, with or without a plus sign, and it is within the limit. |
| `RobotIdentity.FirstBadChar` | src/id.rs:59-67 | The first character that is not allowed, and uppercase reported as such. |
| `RobotIdentity.LabelCharsExactly` | src/id.rs:59-67 | The characters of robot names, listed. |
| `RobotIdentity.NewRobotId` | src/id.rs:56-84 | Accepts exactly the lower-case host name labels of 1 to 63 characters; each error names a fault the text has. |
| `RobotIdentity.DomainIdReadsBack` | src/id.rs:127-146 | A printed domain number loads as that number. |
| `RobotConf.UpdateIsMapUpdate` | src/id.rs:156-204 | For every file, one set is a map update on what is loaded: that key new, unless shadowed, and the other as before. |
| `RobotConf.LoadsWhatItSays` | src/id.rs:156-197 | Key by key, the value in the file if it is a valid one, and otherwise, as without a file, the default. |
| `RobotConf.RobotConfIsAMap` | src/id.rs:156-204 | After any sequence of sets on any file, each key loads the last value set; a key never set, or shadowed at first, loads what the original file says, its valid value there or else the default; shadowing never changes. |
| `HostFiles.RenderHostsFile` | src/id.rs:255-287 | The loop computes the generic writer for hosts entries. |
| `HostFiles.HostsNameTheRobot` | src/id.rs:251-287 | Afterwards at least one line maps 127.0.1.1, every such line names the robot, and all others stay; a missing file becomes a line for localhost and that one. |
| `HostFiles.HostnameReadsBack` | src/id.rs:247-249 | The host name file is one line, the name. |
| `HostFiles.RenderHostsTwice` | src/id.rs:206-287 | Rendering again changes nothing, if and only if no kept line ended in a carriage return. |
| `HostFiles.SecondApplyWritesNothing` | src/id.rs:206-245 | A second apply writes no file under exactly that condition. |
| `HostFiles.ApplyFiles` | src/id.rs:221-245 | Both files hold what is derived, only files that differ are written, and the answer is whether the host name changed; a failure leaves the hosts file as it was and the host name old or new; no other file is touched but for the temporary ones. |
| `HostFiles.SetKey` | src/id.rs:200-204 | The file is the upserted text on success and as it was on failure, and no other file changes but for the temporary one; a failure takes exactly one refusal of the disk. |
| `HostFiles.SetRobotId` | src/id.rs:324-327 | robot.conf is the updated text, and both host files name what is then loaded, which is the new name unless the key is shadowed; a failure leaves robot.conf old or new, the host name changed only after it, and the hosts file as it was. |
| `HostFiles.SetRosDomainId` | src/id.rs:329-336 | Only robot.conf changes, whatever the comment says: the two host files stay as they were. |
| `Profile.ReadProfileText` | build.rs:312-352 | The loop fails exactly on a line that is no assignment or assigns an unknown key, and else builds the map of last assignments. |
| `Profile.AssignsAroundFirstEquals` | build.rs:316-348 | A line that is neither blank nor a comment assigns the trimmed and unquoted text after its first equals sign to the trimmed text before. |
| `Profile.SkippedExactly` | build.rs:317-323 | The lines skipped are the blank ones and the comments. |
| `Profile.RuntimeSeesTight` | build.rs:325-333 | On a line the build accepts, the run-time reader sees the assignment exactly when no whitespace stands before its equals sign. |
| `Profile.ProfileIsLastAssigned` | build.rs:316-351 | The map holds the last assignment of every key. |
| `Profile.ReadersAgree` | build.rs:306-352 | For every accepted text both readers agree on each key whose last assignment has no blank before the equals sign; on any other the run time reads the text before that assignment. |
| `Profile.LooseAssignmentIsLost` | build.rs:325-333 | A concrete family of files on which the readers differ. |
| `Profile.BuildAgreesOnRobotIds` | build.rs:455-483 | The build accepts exactly the names the program accepts. |
| `Profile.BuildAgreesOnDomainIds` | build.rs:485-495 | The build accepts a number exactly when the program reads it as that number and there is no whitespace around it. |
| `ApConfig.NewSsid` | src/wifi/config_gen.rs:77-96 | Accepts exactly non-empty texts without control characters of at most 32 octets. |
| `ApConfig.ParsePsk` | src/wifi/config_gen.rs:116-131 | Empty is an open network; otherwise 8 to 63 characters and no control character. |
| `ApConfig.DerivedSsid` | src/wifi/config_gen.rs:189-203 | A derived name is the whole robot name and the suffix, or an error exactly when that is over 32 octets or has a control character; it is never cut. |
| `ApConfig.DerivedSsidTellsRobotsApart` | src/wifi/config_gen.rs:189-203 | Two robots never share a derived access point name. |
| `ApConfig.LoadsWhatItSays` | src/wifi/config_gen.rs:179-278 | A file loads if and only if every key in it that is set and not empty is set to something valid; then every field is what its own key reads, or the literal default where the key is missing or empty; otherwise the error names a fault of the file. |
| `ApConfig.OneKeyOneField` | src/wifi/config_gen.rs:179-278 | Setting one key in a file changes no field but its own. |
| `Addresses.Ipv4Exactly` | src/wifi/config_gen.rs:222-226 | A text is an address if and only if it is four printed numbers up to 255 with dots between them. |
| `ApConfig.RenderHostapd` | src/wifi/config_gen.rs:280-311 | The appended text is the printed directives, the WPA ones exactly with a passphrase. |
| `ApConfig.HostapdFileReadsBack` | src/wifi/config_gen.rs:280-311 | Read back, the file of any loadable configuration has 10 lines, or 14 with a passphrase, each a stated directive with each value whole, and WPA lines exactly on a WPA2 network. |
| `ApConfig.DnsmasqFileReadsBack` | src/wifi/config_gen.rs:313-330 | Read back, the file has seven lines; the range splits at its commas into start, end, netmask and lease time, and both options carry the address. |
| `Targets.NewExperimentName` | src/experiments.rs:79-106 | Accepts exactly names that are safe to join onto a path. |
| `Targets.NewProfileName` | src/experiments.rs:138-156 | Accepts exactly compose's own profile names. |
| `Targets.NameCharsExactly` | src/experiments.rs:97-102 | The characters of names, listed. |
| `Targets.ParseTarget` | src/experiments.rs:269-311 | The loop computes the parse, first error included. |
| `Targets.ParseUndoesShow` | src/experiments.rs:213-311 | Parsing a name, a colon and the displayed profiles gives back exactly that target, for every profile set parsing can yield. |
| `Targets.ParsedIsCanonical` | src/experiments.rs:282-308 | Every successful parse yields such a set, so display and parse are inverse both ways. |
| `Targets.ParsesWhatIsMeant` | src/experiments.rs:269-311 | A spec parses as a target if and only if the target is what it means: everything up to the first colon is the name, and the trimmed rest nothing, the wildcard, or valid names between commas, repeated ones once. |
| `Targets.FailsAtTheFirstFault` | src/experiments.rs:277-305 | A spec that does not parse is reported by its name, or else by the first bad entry of its list. |
| `Targets.BareNameParses` | src/experiments.rs:281-285 | A name alone, and a name with nothing after its colon, mean no profiles. |
| `Targets.SplitOfJoin` | src/experiments.rs:218-225 | Splitting a displayed list at commas gives its names, a blank before each but the first. |
| `Sequences.UnionAssociative` | src/experiments.rs:201-207 | Look-for-it-else-push-it union is associative on all lists. |
| `Merging.Merge` | src/experiments.rs:196-210 | The loop computes the merge. |
| `Merging.MergedIsAMonoid` | src/experiments.rs:196-210 | Merging is associative, with no profiles as identity and all profiles absorbing, idempotent and closed on canonical sets. |
| `Merging.MergedMembers` | src/experiments.rs:201-207 | A profile is in the merge exactly when one of the two names it, and mine come first. |
| `Merging.MergeDuplicates` | src/experiments.rs:784-797 | The loop computes the left fold of find-or-push. |
| `Merging.MergedIsFoldPerName` | src/experiments.rs:784-797 | The result is every name once in order of first appearance, each with the in-order fold of all profiles given for it. |
| `Merging.MergeIdempotent` | src/experiments.rs:784-797 | Merging twice is merging once, and a part may be merged before the rest is added. |
| `Merging.MergedStaysCanonical` | src/experiments.rs:784-797 | After parsing and merging no profile is given twice. |
| `Enabled.ParseEnabled` | src/experiments.rs:335-363 | The loop computes the line-by-line reading. |
| `Enabled.LinesAreConserved` | src/experiments.rs:335-363 | Targets and warnings together are as many as the lines that are neither blank nor comments. |
| `Enabled.SignificantExactly` | src/experiments.rs:339-343 | The lines that count are those that are neither blank nor comments. |
| `Enabled.TargetsAreFirstValidLines` | src/experiments.rs:345-359 | Names are distinct, the targets come in the order of the file, each from the first valid line for its name, and every valid line's name is there. |
| `Enabled.AppendedTextOnlyAdds` | src/experiments.rs:335-363 | Text appended to newline-terminated text only extends both lists. |
| `Enabled.WarningsAreDeserved` | src/experiments.rs:345-357 | Every warning names a line that does not parse, with its error, or that repeats the name of an earlier valid one; one for a line at most, in order. |
| `Experiments.ComposeArgsReadBack` | src/experiments.rs:834-852 | The five fixed words name the compose file in the experiment's directory and that directory; after them the flags read back as exactly the profiles and then the verb. |
| `Experiments.WordsTellProfilesApart` | src/experiments.rs:138-193 | Different profile sets have different words, none of which looks like an option. |
| `Experiments.WordsAreWhatIsShown` | src/experiments.rs:174-228 | The words given to docker are what the profile set is displayed as, entry by entry. |
| `Experiments.OnDiskNames` | src/experiments.rs:750-778 | The sweep is exactly the valid names with a compose file, strictly ascending. |
| `Experiments.BeforeIsLexicographic` | src/experiments.rs:775-775 | The order of the sweep is that of the dictionary. |
| `Experiments.SelectionIsDistinct` | src/experiments.rs:654-743 | On all three paths no experiment is selected twice and each has a compose file; a request naming a missing one selects nothing and reports exactly the missing ones. |
| `Experiments.SelectsWhatWasAskedFor` | src/experiments.rs:654-743 | What each path selects: every name given, once, with all profiles given for it; or exactly the first valid lines of enabled.conf whose compose file is there, in file order, with their profiles; or exactly the valid names present, ascending, without profiles. Nothing is selected exactly when a named one is missing. |
| `Starting.Start` | src/experiments.rs:422-474 | The loop makes exactly the calls described below, reports exactly the failures, and succeeds when there are none. |
| `Starting.EveryTargetIsAttempted` | src/experiments.rs:442-471 | Every target is pulled once, in order, and brought up exactly when its pull worked or failures are ignored. |
| `Starting.UpFollowsItsPull` | src/experiments.rs:447-467 | Every start comes right after the pull of the same target. |
| `Starting.EveryTargetIsAccountedFor` | src/experiments.rs:440-473 | Started and failed are disjoint, without repetition, and together all targets. |
| `Starting.SelectedAreAccountedFor` | src/experiments.rs:422-474 | From the command line to the report: what is selected is what was asked for, every selected experiment is pulled once and is either started or reported, and none is both. |
| `Starting.CallsReadBack` | src/experiments.rs:447-467 | Both argument lists read back as the profiles and the words pull --quiet, or up -d --remove-orphans. |

## Left out

- Runs.Run: the source's loop and its watch of a connection have no bounds; here a run is observed for any number of turns and any number of looks per watch, so every statement is about all finite prefixes.
- Daemons.Daemon.IsRunning: a child counts as running until it is seen to exit or is killed; that SIGKILL ends a process at once is an assumption about the kernel.
- World.World.Spawn: starting a process, looking for a file and asking after a child take no time of their own; every other command takes whatever it takes.
- Ap.Start: writing each of the two daemon configs is a command that works or does not; `ApConfig` proves what they contain.
- Supervision.Supervisor.RaiseAp: loading robot.conf and loading fallback-ap.conf are commands that work or do not; `RobotConf.LoadsWhatItSays` and `ApConfig.LoadsWhatItSays` say what they load.
- Files.FileSystem.ReadOptional: a file that is missing from a directory that cannot be searched is just missing here.
- Profile.ReadProfileText: the table of known keys is a parameter; the statements need of a key that it is made of capitals and underscores, as all of them are.
- Starting.Start: the outcome of a pull or of a start is a function of the experiment's name, which is enough because selection never repeats a name.
- Child processes, the interface and the file system are classes or records of the environment; `Daemon` and the sessions have no changing field of their own, because what changes about them is in the process table.
- The readiness notice is the call that sends it; whether systemd listens is not modelled.
- The temporary path of a path without a file name, such as one ending in `..`, is not modelled.
- Updates of robot.conf by two processes at once can lose one by design; only whole contents are claimed.
- `wifi stop`, `wifi status` and the text scraping in src/wifi/net.rs and src/systemd.rs: single commands.
- src/status, src/main.rs, src/log.rs, tables and message texts: display only; warnings are kept as data.
- `experiments stop`, `status` and `list`: the same loop as start, without its branches.
- IGNORE_PULL_FAILURES and the other settings read from the environment or a file: parameters here.
- Profile selection and the generated source text in build.rs: plumbing.
- Applying the running hostname and restarting mDNS: single commands.
