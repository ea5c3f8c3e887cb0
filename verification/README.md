# A verified model of crosswire-network-manager

This Dafny project models the parts of the NetworkManager plugin for crosswire whose behaviour is
hardest to see from one function body: the connection lifecycle with its concurrent parties, the
text formats that cross process boundaries, and the streaming recognisers. `dafny verify
dfyconfig.toml` checks it all.

## The system

**Lifecycle.** NetworkManager calls Connect (or NewSecrets) and Disconnect on a D-Bus service; the
pppd plugin calls SetIp4Config. Every call runs as its own task. Connect spawns a crosswire child
and a watcher task that owns it; the watcher waits for the child, relaunches it after a fast failure,
prompts the user about a changed certificate, reports the end of the session, or tears the child down
when its stop channel delivers a request or closes. One state machine, behind one lock, announces
states and failures.

- `ServiceStates` holds the state machine: `State` is the object that updates itself in place,
  `Apply` the value of one locked operation.
- `Lifecycle` is the step system. A world has the machine, the supervisor slot and its lock, an
  unbounded list of sessions (watcher, child, stop channel) and an unbounded list of calls, each with
  a program counter. A step is what runs between two await points. A `select!` is two polls: first
  the stop channel, then the other branch, so a request may arrive in between. The slot's lock is
  held from taking the old handle until it is dropped, and not between the request for Starting and
  the storing of the new handle. The 10 s limit on waiting for an answer is a step of its own.
- `Courses` says what moves a session or a call from one place to the next, and what it waits for.
- `Ownership`, `Sessions` and `SignalLog` prove what holds in every run, whatever overlaps and
  however often a stop times out. `CallRules` has five rules that callers and clocks may or may not
  keep to. `OneSession` proves from two of them that children never coexist, and `Supervision` from
  all five that the announced state tracks the session. `RulesNeeded` shows both sets to be exact: a
  set of rules guarantees the one or the other if and only if it contains them. `AnnouncedWords`
  shows that every word of the log language is announced by some run; `RunPieces` has the stretches
  that such runs are built from.
- `RetryLoop` is the watcher's loop over the runs of one session, with its timing and a fresh
  scanner for each run, and `SessionRuns` shows that every session of the lifecycle goes through it;
  `Repin` follows a prompted digest to the next launch. `IdleQuit` is the idle-quit task in a timed model.

**Texts.** `NetParams` says what `CROSSWIRE_ROUTES` and `CROSSWIRE_DNS` mean and models the C library
calls; `InPlaceParsing` is the parser as it runs, over a mutable buffer; `EnvironmentContract` relates
it to printing. `ShellWords` has the quoted command line and a POSIX tokenizer. `CommandArguments`
has the crosswire arguments and a left-to-right reader; `ConnectionConfig` maps a connection to them.

**Recognisers.** `CertTrust` has the certificate scanner and the exit classification.
`FortinetImport` has the FortiClient callbacks; `FortinetDocument` compares them with a walk of the
document tree.

## Where the code and its description differ

- The importer is described as taking the first SSL-VPN connection
  (properties/nm-crosswire-import-fortinet.c:3-5). The code takes the first one whose last server is
  not blank, and a value missing from that connection can come from an earlier one that had no
  server. `FirstConnectionExactly` says when the import is the first connection's;
  `WinnerAloneExactly` says exactly when the imported id, authentication and user do not
  show it; `StaleNameLeaks` is a FortiClient configuration where the id does.
- A re-pinned digest written to vpn.data has no effect while vpn.secrets holds a `trusted-cert`,
  because secrets win (service/src/config.rs:63-65). `AcceptAndReconnect` states the exact condition
  on the next launch's arguments; `SecretOverridesPin` is a connection that never re-pins.
- If the idle task quits by its timer at time t, nothing was published strictly between t - 180 s and
  t, but something was published at t - 180 s itself if and only if anything was ever published
  before t (`TimerQuitExactly`): the timer runs from the last publication, or from the start if there
  was none. So after any session that instant holds its Stopped; `PublicationAtLeftEnd` is a run.
- Two children can be alive at once, but only if Connects overlap each other or a stop() times out
  (`OneChildExactly`, with `OverlappingConnectsStartTwo` and `TimedOutStopStartsTwo`). Disconnects and
  the shutdown path may overlap anything without that.
- The announced state can lose track of the session, with no call in progress any more, if a Connect
  overlaps another Connect or a Disconnect in either order, if a stop() times out and the old session
  fails late, or by the shutdown path (`TrackingExactly`, with one run for each). Overlapping
  Disconnects are harmless.

## Model

| member | source | states |
|---|---|---|
| ServiceStates.State.Set | service/src/state.rs:85-96 | committing a state stores it, publishes whether it is an active one and appends exactly one StateChanged |
| ServiceStates.State.To | service/src/state.rs:51-61 | a request for a state has the effect of the machine's locked operation, nothing if it is illegal or no change |
| ServiceStates.State.Fail | service/src/state.rs:73-80 | a failure report has the effect of the machine's locked operation: Failure then Stopped while connecting or connected, nothing otherwise |
| ServiceStates.FailureIsAnnounced | service/src/state.rs:73-80 | while connecting or connected a failure appends exactly Failure with its reason and then Stopped; otherwise it changes nothing |
| ServiceStates.ApplyKeepsInv | service/src/state.rs:51-113 | every operation keeps the machine's invariant: a legal history ending in the current state, a truthful activity flag, every Failure in its place |
| ServiceStates.LogIsInLanguage | service/src/state.rs:51-113 | for any requests in any order the announced states are a prefix of (Starting Started? Stopping? Stopped)*, each Failure is directly between Starting or Started and Stopped, and the flag is #Starting - #Stopped |
| ServiceStates.LogLanguage | service/src/state.rs:100-113 | a word of states can be announced if and only if it is a prefix of (Starting Started? Stopping? Stopped)* |
| Ownership.WatcherStepKeepsInv | service/src/supervisor.rs:90-207 | from every program point of a watcher its invariant is kept: no child alive outside waiting and teardown, at most one stop request, an answer only after a request was taken, bounded relaunches |
| Ownership.StepKeepsInv | service/src/plugin.rs:237-292 | every step of every party, stop timeouts included, keeps the ownership invariant of slot, lock, handlers and sessions |
| Ownership.ExactlyOneOwner | service/src/plugin.rs:266-284 | in every run a session's stop channel is open exactly while its handle is in the slot or with one handler, never with two, and never carries more than one request |
| Ownership.LockHeldWhileStopping | service/src/plugin.rs:98-106 | the slot's lock is held by the one handler that is stopping an old session, so no two stops overlap |
| Courses.LaunchesExactly | service/src/supervisor.rs:142-158 | a child is launched again exactly by a successful spawn, which comes only after the whole retry delay, and lives until it dies |
| Courses.ExitsExactly | service/src/supervisor.rs:108-126 | an exit that is seen with success is a clean one, any other is drained, and what the drain found is what is classified |
| Courses.StopsAtOnce | service/src/supervisor.rs:94-98 | a session that looks at its channel and sees a request or its loss stops at once, and remembers whether somebody asked |
| Courses.StopsOnlyThen | service/src/supervisor.rs:189-205 | it tears down for no other reason, goes on only once its child is dead, and answers only a request it took |
| Courses.WaitsOtherwise | service/src/supervisor.rs:94-146 | while there is nothing to see it goes on waiting where it waits |
| Courses.EndsInOrder | service/src/supervisor.rs:163-206 | a session ends only after a clean exit, a failure or an answer |
| Courses.RequestsAreAnswered | service/src/supervisor.rs:189-206 | in every run a session that is done has answered exactly if it took a request |
| Courses.HandlerFollows | service/src/plugin.rs:237-292 | the order of each call: take the slot, stop the old session, reset (Connect only), release, announce, launch, store |
| Courses.HandlerWaitsExactly | service/src/plugin.rs:98-106 | a call waits only for the slot's lock, or for the answer or end of the session it is stopping |
| Courses.SlotChangesUnderLock | service/src/plugin.rs:284 | the slot changes only while nobody else holds its lock |
| Courses.SendsExactly | service/src/supervisor.rs:215-220 | stop() queues one request, or finds the session over and sends nothing |
| Sessions.StopLeavesQuiet | service/src/supervisor.rs:215-220 | if stop() returns through an answer or a closed channel, that session makes no later state call, starts no later child and has none running, for the rest of the run |
| Sessions.OneCallAndLast | service/src/supervisor.rs:94-206 | a session makes at most one state-changing call and it is the last thing it does |
| Sessions.DoomedIsSilent | service/src/supervisor.rs:96-98 | a session that has taken a stop request, or that nobody owns and is about to look at its channel, never calls the state machine or starts a child again |
| Sessions.AbandonedTearsDown | service/src/supervisor.rs:189-205 | the next look of an abandoned session at its channel starts the teardown, or ends the wait before a retry, and leaves the state machine alone |
| Sessions.UnwantedSessionAdvances | service/src/supervisor.rs:94-206 | once a stop request has reached a session, or its handle is gone, each of its own steps brings it strictly nearer its end |
| Sessions.NeverStuck | service/src/supervisor.rs:94-206 | a session that is not over is blocked only while it waits for its child to die |
| Sessions.UnwantedSessionEnds | service/src/supervisor.rs:215-220 | from the moment a stop request reaches it, or nobody owns it any more, a session takes at most 11 more steps of its own, whatever the others do, and after 11 it is over |
| Sessions.BoundedRelaunches | service/src/supervisor.rs:126-158 | in every run a session starts at most 3 children and prompts at most once |
| Sessions.NoRelaunchAfterPrompt | service/src/supervisor.rs:163-177 | once a session has prompted it never starts another child |
| Sessions.ClassifiedExactly | service/src/cert_trust.rs:90-104 | while Starting a rejected certificate is prompted for, and a fast failure without one is retried at most twice; anything else fails |
| SignalLog.LogLanguageInEveryRun | service/src/state.rs:51-113 | the log language, failure placement and activity count hold at every point of every run under any interleaving |
| SignalLog.WhatASessionSays | service/src/supervisor.rs:99-188 | a failing session announces ConnectFailed and then Stopped, a clean end Stopped, and nothing else a session does is announced |
| SignalLog.WhatAHandlerSays | service/src/plugin.rs:98-292 | what each step of each call announces, signal by signal |
| AnnouncedWords.AnnouncedExactly | service/src/state.rs:51-113 | under any set of rules about its callers, a word is announced by some run of the service if and only if it is a prefix of (Starting Started? Stopping? Stopped)* |
| SignalLog.EveryStartedIsPaid | service/src/plugin.rs:137-151 | no prefix of the log ever has more Started than Ip4Config, even counting handlers between the two |
| OneSession.StepKeepsApart | service/src/plugin.rs:237-292 | while Connects do not overlap each other and no stop() times out, every step keeps: only one handler is past the slot, an abandoned session has finished |
| OneSession.OneChildAtMost | service/src/supervisor.rs:90-207 | in every such run, with Disconnects, shutdown and SetIp4Config free, at most one session is unfinished and at most one crosswire child alive |
| Supervision.StepKeepsSupInv | service/src/plugin.rs:237-292 | under the five rules every step keeps the supervision invariant |
| Supervision.StateTracksSession | service/src/plugin.rs:263-291 | if a Connect comes alone, no stop() times out and there is no shutdown, then between lifecycle calls the state is Starting or Started exactly when the slot holds a session that has not made its last report, and Stopped otherwise; Disconnects may overlap |
| Supervision.StartingIsAnnounced | service/src/plugin.rs:264-273 | Connect's request for Starting is never dropped as illegal |
| Supervision.DisconnectLeavesNothing | service/src/plugin.rs:98-106 | when Disconnect returns the state is Stopped, the slot is empty and no child is alive, unless another Disconnect is still stopping it |
| RulesNeeded.OneChildExactly | service/src/plugin.rs:266-284 | a set of rules guarantees at most one child if and only if it keeps Connects apart and stop() from timing out |
| RulesNeeded.OverlappingConnectsStartTwo | service/src/plugin.rs:266-284 | two overlapping Connects can leave two children alive under any rules that allow them |
| RulesNeeded.TimedOutStopStartsTwo | service/src/supervisor.rs:215-220 | a Connect whose stop() times out can leave two children alive under any rules that allow it |
| RulesNeeded.TrackingExactly | service/src/plugin.rs:263-291 | a set of rules guarantees that the state tracks the session between calls if and only if it has all five |
| RulesNeeded.ConnectDuringConnect | service/src/plugin.rs:266-284 | a run in which the first of two overlapping Connects ends the state of the second session |
| RulesNeeded.DisconnectDuringConnect | service/src/plugin.rs:237-292 | a run in which a Disconnect goes by before Connect stores its session: Stopped is announced, the session lives |
| RulesNeeded.ConnectDuringDisconnect | service/src/plugin.rs:237-292 | a run in which a Connect goes by before the final Stopped of a Disconnect |
| RulesNeeded.LateFailure | service/src/supervisor.rs:215-220 | a run in which the session that a stop() gave up on fails later and takes the new session's state with it |
| RulesNeeded.ShutDown | service/src/main.rs:134-136 | a run in which the shutdown path stops the session and leaves the state at Starting |
| RetryLoop.Watch | service/src/supervisor.rs:90-188 | for every sequence of child exits: at most 3 launches, each 3 s and the latency after the run before it and the k-th relaunch less than 13 k seconds after the first plus latency, one report at the end, and a prompt only for the digest in the last run's own output |
| RetryLoop.RelaunchesExactly | service/src/supervisor.rs:126-158 | a run is followed by another exactly if it failed within 10 s while connecting, without a rejected certificate, as first or second, and nothing stopped the wait or the launch |
| RetryLoop.PromptsExactly | service/src/cert_trust.rs:90-104 | a session prompts exactly if its last run failed while connecting with a rejected certificate, however fast and however many retries are left |
| RetryLoop.EndsExactly | service/src/supervisor.rs:94-188 | when a session is torn down and when it closes cleanly, from what happened in its last run |
| SessionRuns.SessionIsExplained | service/src/supervisor.rs:90-188 | wherever a session of the lifecycle stands, in every run, some sequence of retry-loop runs accounts for its launches, retries, prompt and calls |
| SessionRuns.SessionIsRetryLoop | service/src/supervisor.rs:90-188 | a finished session of the lifecycle is the retry loop in some environment: as many launches, the same prompt, exactly the same report |
| IdleQuit.StepKeepsInv | service/src/main.rs:154-177 | every step of the timed system keeps the idle task's invariant |
| IdleQuit.TimerQuitIsSound | service/src/main.rs:160-176 | if the task resolves by its timer at t the service was inactive throughout [t - 180 s, t) and nothing was published strictly between |
| IdleQuit.PersistNeverQuits | service/src/main.rs:156-159 | with --persist the task never resolves |
| IdleQuit.ClosesOnlyWithoutSender | service/src/main.rs:163-174 | in every run the task resolves without its timer only when the sender is gone |
| IdleQuit.PublicationWakes | service/src/main.rs:162-174 | a publication before the deadline sends the task back to looking |
| IdleQuit.LookingGoesOn | service/src/main.rs:161-168 | a task that looks waits for a change while active, and 180 s while inactive |
| IdleQuit.DeadlineFires | service/src/main.rs:168 | left alone, a sleeping task quits at its deadline and not before |
| IdleQuit.RaceAtDeadline | service/src/main.rs:167-174 | when the deadline and something else come together, either is taken |
| IdleQuit.TimerQuitExactly | service/src/main.rs:160-176 | the timer fires exactly 180 s after the last publication before it, or after the start if there is none, so a publication at t - 180 s exists if and only if one before t does |
| IdleQuit.PublicationAtLeftEnd | service/src/main.rs:168-175 | a run of the state machine's own publications, Starting then Stopped at 60 s, after which the task quits at 240 s |
| CertTrust.ExtractFindsFirstRun | service/src/cert_trust.rs:64-73 | the extracted digest is the first maximal run of hex digits that is 64 long and lowercase, and there is none exactly when there is no such run |
| CertTrust.CertScanner.Observe | service/src/cert_trust.rs:33-46 | observing a line adds exactly its evidence to what the scanner holds |
| CertTrust.ScanRun | service/src/supervisor.rs:244-255 | a fresh scanner fed a run's lines reports that run's verdict |
| CertTrust.VerdictCharacterised | service/src/cert_trust.rs:33-58 | a change is reported exactly when some line has the rejection and some line bears a digest, and it is the first bearing line's digest |
| CertTrust.VerdictByWords | service/src/cert_trust.rs:33-58 | the same in the words that are looked for: the rejection, and "digest" or "trusted-cert" with a digest |
| CertTrust.RealOutput | service/src/cert_trust.rs:110-136 | both shapes of crosswire's output, the digest line and the --trusted-cert hint, followed by the rejection, give the digest |
| CertTrust.VerdictIgnoresInterleaving | service/src/cert_trust.rs:32-58 | any two interleavings of the two streams agree on whether there is a change, and on the digest when all bearing lines agree |
| Text.SplitConcat | pppd-plugin/nm-crosswire-netparams.c:21-22 | splitting two texts joined by a separator gives the fields of both |
| NetParams.SaturationIsHarmless | pppd-plugin/nm-crosswire-netparams.c:32-35 | the code's test on a saturating 64-bit strtol accepts exactly the unbounded integers 0 to 32 |
| NetParams.StrtolExactly | pppd-plugin/nm-crosswire-netparams.c:32-33 | strtol reads white space, a sign and digits, and gives the nearest number that 64 bits hold |
| NetParams.ParseRouteExactly | pppd-plugin/nm-crosswire-netparams.c:23-38 | an entry is a route if and only if it is an address, a slash and a prefix length |
| NetParams.ParsePrefixExactly | pppd-plugin/nm-crosswire-netparams.c:32-35 | a prefix length is a numeral of value 0 to 32, with white space and a sign allowed before it |
| InPlaceParsing.StrtokR | pppd-plugin/nm-crosswire-netparams.c:21-22 | one call skips separators, ends the next token with a NUL in place and leaves all later text unread and unchanged |
| InPlaceParsing.ConvertRoute | pppd-plugin/nm-crosswire-netparams.c:23-35 | cutting the token at its slash with a NUL yields the entry's route or nothing, and never disturbs the unread text |
| InPlaceParsing.ParseRoutes | pppd-plugin/nm-crosswire-netparams.c:10-44 | the first min(max, all) entries that parse are stored in order, everything beyond them is untouched, and absent or empty input gives 0 |
| InPlaceParsing.ParseDns | pppd-plugin/nm-crosswire-netparams.c:47-67 | for addresses, as for networks |
| EnvironmentContract.RoutesRoundTrip | pppd-plugin/CROSSWIRE_ENV_CONTRACT.md:14-15 | any list of networks with prefixes 0 to 32, printed in the documented form, is read back exactly |
| EnvironmentContract.ServersRoundTrip | pppd-plugin/CROSSWIRE_ENV_CONTRACT.md:15-16 | any list of DNS addresses, printed in the documented form, is read back exactly |
| EnvironmentContract.ParserReturnsPrintedRoutes | pppd-plugin/nm-crosswire-netparams.h:19-22 | the output array of the route parser holds exactly the printed list when it fits |
| EnvironmentContract.ParserReturnsPrintedServers | pppd-plugin/nm-crosswire-netparams.h:24-26 | the same for the output array of the DNS parser |
| EnvironmentContract.ParsingIsHomomorphism | pppd-plugin/nm-crosswire-netparams.c:21-40 | parsing "a,b" with a limit gives the first results of a then b, however malformed, so no entry affects its neighbours |
| EnvironmentContract.ServersAreHomomorphic | pppd-plugin/nm-crosswire-netparams.c:58-63 | for addresses, as for networks |
| EnvironmentContract.PrefixesAreBounded | pppd-plugin/nm-crosswire-netparams.c:34-38 | no reported route has a prefix beyond 32 |
| EnvironmentContract.InetPtonExactly | pppd-plugin/nm-crosswire-netparams.c:28-29 | an inet_pton that refuses leading zeros reads exactly the printed addresses |
| EnvironmentContract.InetPtonFields | pppd-plugin/nm-crosswire-netparams.c:28-29 | one that reads them reads exactly four fields of one to three digits up to 255 |
| EnvironmentContract.PrintedAddress | pppd-plugin/CROSSWIRE_ENV_CONTRACT.md:14-15 | an address and a network as they are printed |
| ShellWords.ShellSingleQuote | service/src/user_session.rs:165-177 | the loop produces the quoted form of its argument |
| ShellWords.QuotedForm | service/src/user_session.rs:165-177 | the quoted form letter by letter: between single quotes, with each single quote closed, escaped and opened again |
| ShellWords.LineForm | service/src/user_session.rs:52-56 | the words stand in order with one space between two |
| ShellWords.CommandLineRoundTrip | service/src/user_session.rs:52-56 | POSIX tokenizing of the command line gives back exactly the arguments, whatever characters they hold |
| ShellWords.CommandLineIsInjective | service/src/user_session.rs:52-58 | command lines are equal if and only if the argument lists are |
| CommandArguments.DecodeArguments | service/src/config.rs:98-165 | reading the printed arguments left to right gives back every setting they were printed from |
| CommandArguments.ArgumentsAreUnique | service/src/config.rs:98-165 | two settings print alike if and only if they are the same |
| CommandArguments.ArgumentsAre | service/src/config.rs:98-165 | the argument list of every connection flag by flag, for each kind of authentication |
| ConnectionConfig.PushPins | service/src/config.rs:123-128 | the loop pushes one flag and value for each non-empty piece of the pin list, in order |
| ConnectionConfig.MapConnection | service/src/config.rs:55-166 | the arguments decode to exactly the connection's settings, the host is the single item after the final separator, a cookie goes to stdin, and a probe builds no arguments |
| ConnectionConfig.MergedByKey | service/src/config.rs:60-66 | a key is looked up in the secrets first and then in the data |
| ConnectionConfig.AuthByKeys | service/src/config.rs:136-157 | the kind of authentication and its credentials, by the keys they come from |
| ConnectionConfig.SettingsByKeys | service/src/config.rs:109-135 | port, realm, CA file, insecure flag, pins and host, by the keys they come from |
| ConnectionConfig.MissingByKeys | service/src/config.rs:83-93 | which secret is asked for, by cases |
| ConnectionConfig.UuidByKeys | service/src/config.rs:71-76 | the uuid is the non-empty string at connection.uuid |
| ConnectionConfig.SplitPinsConcat | service/src/config.rs:123-128 | pins are separated by commas and spaces; with OnePin this determines the split |
| ConnectionConfig.OnePin | service/src/config.rs:123-128 | a text without commas and spaces is one pin, or none if it is empty |
| ConnectionConfig.RepinTakesEffect | service/src/config.rs:63-65 | the settings with a recovered digest as trusted-cert have it as their one pin exactly when the secrets do not override it, and then nothing else changes |
| Repin.AcceptAndReconnect | properties/nm-crosswire-cert-dialog.c:60-110 | after a prompt that the user accepts there is a next launch unless a secret is missing; the digest is the one the last run's output bears, and the launch's arguments decode to it as their one pin exactly when the secrets do not override it |
| Repin.SecretOverridesPin | service/src/config.rs:63-65 | a connection that lacks no secret, and goes on pinning the certificate in its secrets whatever digest was accepted |
| FortinetImport.FParse.Start | properties/nm-crosswire-import-fortinet.c:60-82 | the start callback updates the parse state as the event's meaning says |
| FortinetImport.FParse.TextCallback | properties/nm-crosswire-import-fortinet.c:84-92 | text is accumulated only while a leaf is read |
| FortinetImport.FParse.Commit | properties/nm-crosswire-import-fortinet.c:94-109 | committing a leaf captures its stripped text in the leaf's field |
| FortinetImport.FParse.End | properties/nm-crosswire-import-fortinet.c:111-127 | the end callback commits the leaf, closes the connection and chooses it if it has a server |
| FortinetImport.FortinetParse | properties/nm-crosswire-import-fortinet.c:149-193 | driving the callbacks over the events yields the import of what the whole event stream captures |
| FortinetImport.InvForEveryRun | properties/nm-crosswire-import-fortinet.c:60-127 | for every event sequence a leaf is read only inside a connection, and once a connection is chosen nothing captured ever changes |
| FortinetImport.ChunkingIsInvisible | properties/nm-crosswire-import-fortinet.c:84-92 | splitting a text event into consecutive chunks anywhere never changes the result |
| FortinetImport.ServerSplitsAtPort | properties/nm-crosswire-import-fortinet.c:130-147 | a port is split off exactly when the server reads host, colon, at least one digit and nothing else |
| FortinetImport.ServerWithoutPort | properties/nm-crosswire-import-fortinet.c:130-147 | a server without a port at its end is the gateway as it stands |
| FortinetImport.CapturedElements | properties/nm-crosswire-import-fortinet.c:48-57 | the names of the elements that are captured |
| FortinetImport.StripExactly | properties/nm-crosswire-import-fortinet.c:94-100 | stripping takes exactly the white space off both ends |
| FortinetImport.TrueExactly | properties/nm-crosswire-import-fortinet.c:94-109 | the texts that switch SSO on |
| FortinetDocument.RunDocument | properties/nm-crosswire-import-fortinet.c:60-127 | over every plain document the callbacks do exactly what the walk over its SSL-VPN connections does |
| FortinetDocument.FailsWithoutServer | properties/nm-crosswire-import-fortinet.c:167-171 | the import fails exactly when no SSL-VPN connection names a server |
| FortinetDocument.ValuesOfWinner | properties/nm-crosswire-import-fortinet.c:94-127 | the server is the last one of the first connection where that is not blank; every other value is that connection's if it has the element |
| FortinetDocument.ImportByWinner | properties/nm-crosswire-import-fortinet.c:173-187 | the import in the words of the connection data: saml or password by the last sso_enabled, the user under password only, the id by name and then description, the gateway and port of the winner's server |
| FortinetDocument.CapturedAloneExactly | properties/nm-crosswire-import-fortinet.c:120-123 | each captured value is the winning connection's alone exactly when it is present there or absent from all connections before it |
| FortinetDocument.WinnerAloneExactly | properties/nm-crosswire-import-fortinet.c:173-186 | the imported id, authentication and user are each the winning connection's alone exactly when no earlier connection lends a value that shows; the whole import exactly when all three are |
| FortinetDocument.FirstConnectionExactly | properties/nm-crosswire-import-fortinet.c:3-5 | the import is what the first SSL-VPN connection alone would give if and only if that connection names a server or none does |
| FortinetDocument.StaleNameLeaks | properties/nm-crosswire-import-fortinet.c:120-123 | a FortiClient configuration imported under the name of a first connection that has no server and alone would import nothing |

## Left out

- D-Bus transport, introspection and bus policy: an emission is an append to the log; a failed emission is only logged by the service.
- Process spawning, signals, pipes, logind, systemd and getent: child exits, spawn results and drains are choices of the environment.
- What a prompt does: only that it happens, with which digest, and what storing the digest changes. The dialog, GTK and libnm are not modelled.
- The pppd plugin's glue around the parsers, the editors, and the lookup of the gateway's address.
- Set handlers other than SetIp4Config: they only emit.
- The gateway field that Connect overwrites: nothing in the lifecycle depends on it.
- GMarkup's lexing and its errors: documents start as element and text events.
- clap's own rules beyond arity, such as refusing a value that looks like a flag.
- Whether inet_pton reads a field with a leading zero, which section 6.3 of RFC 3493 leaves open and glibc and musl refuse, is an unspecified constant: everything is proved for both answers.
- Unquoted operators, expansions, comments and double quotes: the tokenizer answers None for them, so the round trip also shows that none occurs.
- Dropping of tasks when the process exits after the shutdown path has stopped its session.
- FortinetDocument.RunDocument: assumes that sslvpn does not nest and that connections inside it have no nested connection or sslvpn and text-only fields; outside of that only the invariants for every event sequence are proved.
- Supervision.StateTracksSession: assumes the five rules, because watchers and the state machine carry no session identity; `RulesNeeded.TrackingExactly` proves that no rule can be dropped.
- `State::current`, a read under the lock: the lifecycle reads the machine's state directly.
