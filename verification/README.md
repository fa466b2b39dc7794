# gNb: a verified model of its protocols and state machines

gNb runs a fleet of IRC bots that capture nicknames, with a WebSocket control panel and a DCC
party line. This project models, in Dafny, the parts of it where ordering, timing and bookkeeping
matter, and proves what the code, its comments and its tests promise about them.
`dafny verify dfyconfig.toml` checks everything.

Code that changes objects step by step is modelled twice: as a class whose methods follow the
source's statements and loops, each proved equal to a function of the old state, and as that
function, about which the results over whole runs are proved. Where the code keeps its promises
under concurrency (party line, event hub, runtime state, connection handlers) the model is a
transition system with one step for each lock operation, atomic operation or channel send, for any
number of threads. Clock readings, random draws, disk results and the answers of other objects are
inputs.

| file | what it models |
|---|---|
| `PartyLine.dfy`, `PartyCalls.dfy` | tunnels starting, stopping and broadcasting under their mutexes and the party line's read-write lock; what each call has done when it is over |
| `Events.dfy`, `EventHub.dfy`, `HubRuns.dfy` | the event hub: ring buffer, sequence numbers, fan-out, subscribe-then-replay |
| `NickState.dfy`, `NickManager.dfy`, `NickRuns.dfy` | nick assignment, blocks and the in-flight lock, nick lists, re-offers |
| `Liveness.dfy` | the probe-then-kill watchdog |
| `SelfNick.dfy` | our own nick against the server's, and the `#literki` channel that follows it |
| `StrikeBudget.dfy` | host-limit strikes, bans and the `gaveUp` latch |
| `Humanlike.dfy` | the join, stay and part runner |
| `Regex.dfy`, `Matcher.dfy` | the owner-mask compiler and matching of user hosts |
| `RoundRobin.dfy` | the choice of the sending bot |
| `RuntimeState.dfy`, `ChannelLists.dfy` | runtime configuration, its observers and its channel lists |
| `TokenChecker.dfy` | the sliding-window login limiter |
| `Attach.dfy`, `Connections.dfy` | the attach relation, the session registry and the connection slots |
| `NickGen.dfy` | composed nicks and the window of recent ones |
| `Text.dfy` | shared string and list helpers |

## Where the code does not quite keep the promise

Each of these is an if-and-only-if about every run or every input; the lemmas in brackets say it.

- The party line can deadlock exactly if a tunnel may both be started again and be stopped between
  its Start's setting `active` and its entering the session map (`DeadlockFree`). `bot.go` makes a
  new tunnel for each connection, so it never starts one again; `Start` itself does not prevent it.
- Once all calls are over the session map holds exactly the active tunnels, in every run, if and only
  if no Stop overtakes the insertion like that (`TeardownComplete`). `bot.go` publishes a tunnel
  before it starts it, so a Quit can do so, and the stopped tunnel then stays in the map.
- The buffer is in the order of sequence numbers only if no publish comes between another one's
  number and its append, or the buffer holds one event (`RingOrder`): the comment at
  `internal/api/events.go:111-112` is true of publishes that do not overlap.
- A silent bot is killed within idle + grace + 2 periods, always, if and only if the period is at most
  idle (`BoundHoldsExactly`); in general it is max(idle, period) + grace + 2 periods.
- Another user's rename is never taken for ours exactly while we agree with the server, and in no
  run exactly if no rename of ours gets lost (`ForeignIgnoredExactly`, `NeverMisledExactly`).
- A JOIN of `#literki` is outstanding exactly while the nick is one letter, in every run, iff
  registration did not itself give a one-letter nick: the 001 callback joins nothing for it
  (`LiterkiFollowsNick`).
- Between registrations there are at most one cool-down reconnect, two if the bot may be told to quit
  meanwhile, three if besides a registration may be accepted while a back-off sleeps; each number is
  reached (`ReconnectBudget`). So without such a quit a bot has given up before its second strike,
  and the budget of three is never used up (`SecondStrikeNeedsQuit`).
- Wrong tokens sent while a remote is limited are not counted, so they do not prolong the limit:
  counting them would change the verdict of some run exactly if maxFail is positive and the window
  longer than an instant (`AttemptsCountExactly`).
- `pickDuration` stays within its bounds exactly when their fractions of a second are in order, as
  for whole-second bounds (`DurationInBounds`).
- Re-offer chains end after one hop exactly when all twenty-six letters are among the targets, as
  after loading (`ReoffersEnd`).
- A persist that fails leaves memory changed: memory then differs from the disk and from what
  observers were told, exactly when the change was a change (`FailedPersistDiverges`).
- A normalised channel list survives joining and splitting exactly when no name contains white
  space; validation refuses four such characters and lets the others, vertical tab and form feed
  among them, through (`JoinSplit`). Lists that come from the panel's string always survive.
- For masks of the usual form ident and host decide: `MatchUserHost` never looks at the nick part,
  although owner masks are written in full (`AdmitsWellFormed`).
- A nick exists for a requested length iff that length is not 1 to 5; the generator accepts those
  lengths, too (`LengthsThatWork`).

## Model

| member | source | states |
|---|---|---|
| PartyLine.DeadlockFree | internal/dcc/dcc_tunnel.go:66-128 | for every interleaving of any number of starts, stops and broadcasts, no set of threads each waits for another of them, if and only if tunnels are not both started again and stopped before their Start has inserted them |
| PartyLine.TeardownComplete | internal/dcc/dcc_tunnel.go:89-128 | when all calls are over the session map holds exactly the active tunnels, in every run, if and only if no Stop takes a tunnel between its Start's setting `active` and its insertion |
| PartyLine.StoppedStays | internal/dcc/dcc_tunnel.go:66-128 | the run with one Start and one Stop after which a stopped tunnel is still in the session map |
| PartyLine.NoDeadlock | internal/dcc/dcc_tunnel.go:263-357 | the argument behind it, for one state: among stopping tunnels waits follow the order in which they left the session map |
| PartyLine.AwaitedLeftLater | internal/dcc/dcc_tunnel.go:291-357 | a stopping tunnel only waits for one that left the session map later |
| PartyLine.OnlyStoppersBlock | internal/dcc/dcc_tunnel.go:310-357 | in a deadlock every thread would wait for the mutex of a tunnel that is broadcasting inside Stop |
| PartyLine.RunInvariant | internal/dcc/dcc_tunnel.go:66-128 | in every reachable state: mutual exclusion, the onStop balance, removal order; without restarts each tunnel is added at most once and never after its removal; without overtaking the map and the `active` flags agree but for the threads under way |
| PartyLine.OnStopBounded | internal/dcc/dcc_tunnel.go:109-128 | onStop fires at most once for each successful Start, and at most once per tunnel that is started once |
| PartyLine.RestartDeadlock | internal/dcc/dcc_tunnel.go:66-128 | a run with a restarted, overtaken tunnel that ends with two stopping tunnels waiting for each other |
| PartyLine.LogKeepsLatest | internal/dcc/dcc_tunnel.go:359-365 | in every run the message log is the last hundred logged messages |
| PartyLine.OnlyLinesLogged | internal/dcc/dcc_tunnel.go:310-357 | in every run only users' lines are logged, never the announcements of joining and leaving |
| PartyCalls.BroadcastDone | internal/dcc/dcc_tunnel.go:310-357 | a finished broadcast has gone to exactly the sessions that were in the map when the recipients were collected, but the one left out, each once; a line is then logged once, under the name of the one left out exactly if that was in the map at that moment and under System otherwise; announcements are not logged |
| PartyCalls.SendersTrue | internal/dcc/dcc_tunnel.go:326-337 | in every run, whoever is still under way, each logged message carries the owner of the session its broadcast left out exactly if that session was in the map when the recipients were collected, System exactly if it was not |
| PartyCalls.StartDone | internal/dcc/dcc_tunnel.go:263-289 | a finished Start has sent the tunnel the whole log as it was when copied, in order, and announced it to everybody |
| PartyCalls.StopDone | internal/dcc/dcc_tunnel.go:291-308 | a finished Stop has announced its tunnel to the others exactly if the tunnel was in the map when it was to be removed |
| PartyLine.Line.Collect | internal/dcc/dcc_tunnel.go:310-341 | the recipients are the sessions in the map but the excluded one, each once; the line is to be logged unless it is an announcement; its sender is the excluded session exactly if that is in the map, System exactly if it is not |
| PartyLine.Line.Delete | internal/dcc/dcc_tunnel.go:291-308 | exactly the session is removed, as by the step of the model, and it is announced exactly if it was there |
| PartyLine.Line.AddToMessageLog | internal/dcc/dcc_tunnel.go:359-365 | the oldest message goes at a hundred, then the new one is appended, as by the step of the model |
| HubRuns.NoGap | internal/api/handlers_events.go:16-42 | under any interleaving, a matching event is in a live subscriber's replay, or was evicted or older than the newest n (at most 128) matches at the replay, or was enqueued, dropped and counted, or is still being published; the replay holds at most n and at most 128 events |
| HubRuns.Accounting | internal/api/events.go:44-78 | matching publishes past a subscriber are exactly its enqueued and dropped events, each once; the channel holds what was enqueued and not drained |
| HubRuns.DroppedExactly | internal/api/events.go:62-78 | over every run an event is counted as dropped exactly if it was sent to a matching subscriber whose channel held cap undrained events, and enqueued exactly if there was room |
| HubRuns.NoLossWithinCapacity | internal/api/events.go:62-78 | a subscription past which at most cap matching events were sent has lost none, however late they are drained |
| HubRuns.NeverBlocked | internal/api/events.go:44-78 | a publish that is not finished can always take its next step: no subscriber, however slow, and no other publish holds it up |
| HubRuns.NoSendOnClosed | internal/api/events.go:62-78 | every send goes to an open channel |
| HubRuns.RingOrder | internal/api/events.go:44-61 | the buffer is ordered by sequence number in every run exactly if number and append are not interleaved or the buffer holds one event |
| HubRuns.AtomicInOrder | internal/api/events.go:44-61 | with atomic publishes, also interleaved with attach events, stored numbers are strictly increasing |
| HubRuns.RunInvariant | internal/api/events.go:44-132 | the buffer is always the last bufCap stored events, numbers are unique, fan-outs only have live subscribers left, feeds are accounted for |
| HubRuns.ReplayedOrOlder | internal/api/events.go:113-132 | a stored matching event is in the replay unless evicted or n newer ones match |
| Events.ReplayExact | internal/api/events.go:113-132 | a replay holds only matching events of the buffer, in order, at most n, and misses one only if n newer ones match |
| EventHub.Hub.Publish | internal/api/events.go:44-78 | one publish takes the next number and extends the history by its event; a matching subscriber with room gets it at the end of its channel, one without room counts it as dropped, the others are as they were; the buffer stays the last bufCap events of the history |
| EventHub.Hub.Append | internal/api/events.go:53-61 | the buffer shifted in place is again the last bufCap events |
| EventHub.Hub.ShiftLeft | internal/api/events.go:53-61 | copying the buffer onto itself drops the oldest event |
| EventHub.Hub.FanOut | internal/api/events.go:62-78 | each subscriber whose topics match gets the event at the end of its channel if that has room and counts it as dropped if it has not; the others are as they were |
| EventHub.Hub.Replay | internal/api/events.go:113-132 | the backward scan and in-place reversal return exactly the last n matching events of the buffer, in order of their numbers |
| EventHub.Hub.NumberAttachEvent | internal/api/server.go:146-155 | an attach event takes a number above all published ones and stores nothing |
| EventHub.Hub.Subscribe | internal/api/events.go:80-100 | a fresh id with an empty channel; other subscribers are untouched |
| EventHub.Hub.Unsubscribe | internal/api/events.go:102-110 | the channel is closed at most once, others are untouched |
| EventHub.ReverseInPlace | internal/api/events.go:127-130 | swapping from both ends reverses the slice |
| NickState.AssignmentCorrect | internal/nickmanager/nickmanager.go:250-335 | assigned bots are a prefix of the free ones, each connected and holding no target; assigned nicks are a subsequence of the priority list, then of the secondary one; none is online, blocked or a letter its server refuses; the run ends with all bots used or all nicks consumed, and a secondary nick needs every priority nick assigned or passed over |
| NickState.PicksAll | internal/nickmanager/nickmanager.go:284-331 | unless all bots are served, a nick is skipped only for a letter refused by an unserved bot |
| NickState.PicksInOrder | internal/nickmanager/nickmanager.go:284-331 | an assignment loop goes through the list in order and gives no bot a refused letter |
| NickState.AvailableExact | internal/nickmanager/nickmanager.go:494-530 | the filter lets through exactly the nicks that equal nobody online up to case and have no running block, in order |
| NickState.DroppedAreLetThrough | internal/nickmanager/nickmanager.go:494-530 | the blocks the filter drops are exactly those of the nicks it lets through |
| NickState.FreeBotsAre | internal/nickmanager/nickmanager.go:343-351 | the free bots are, in roster order, exactly the connected ones whose nick equals no target up to case |
| NickState.FirstIsFirst | internal/nickmanager/nickmanager.go:343-367 | the bot a nick is offered to is the first in the roster that is connected and holds no target |
| NickState.MarkedExactly | internal/nickmanager/nickmanager.go:532-540 | a marked nick is blocked in any spelling for a minute and no longer; other nicks are as they were |
| NickState.ReleasedExactly | internal/nickmanager/nickmanager.go:353-367 | a nick given back is released exactly if it is a priority nick or a letter, one seen to be free exactly if it is a target: unblocked in any spelling, other nicks as they were, and offered to the first connected bot without a target, if there is one |
| NickState.AddThenRemove | internal/nickmanager/nickmanager.go:377-435 | adding a new nick appends it to both lists, and removing it again restores them |
| NickManager.Manager.HandleISONResponse | internal/nickmanager/nickmanager.go:250-335 | the method computes the assignment and the blocks that Ison describes |
| NickManager.Manager.AssignFrom | internal/nickmanager/nickmanager.go:297-331 | one assignment loop hands out the greedy choice and locks it |
| NickManager.Manager.FilterAvailable | internal/nickmanager/nickmanager.go:494-530 | the filtered list and the expired blocks dropped on the way |
| NickManager.Manager.CleanupTempUnavailable | internal/nickmanager/nickmanager.go:459-466 | exactly the blocks that are over are dropped |
| NickManager.Manager.GetAvailableBots | internal/nickmanager/nickmanager.go:343-351 | the loop collects the free bots in order; each is in the roster, connected and holds no target |
| NickManager.Manager.ReturnNickToPool | internal/nickmanager/nickmanager.go:353-367 | a priority nick or letter is unblocked and offered to the first free bot, which is connected and holds no target |
| NickManager.Manager.NotifyNickChange | internal/nickmanager/nickmanager.go:542-559 | a target nick that became free is unblocked and offered to the first free bot, which is connected and holds no target |
| NickManager.Manager.MarkNickAsTemporarilyUnavailable | internal/nickmanager/nickmanager.go:532-540 | the nick is blocked for a minute from now |
| NickManager.Manager.LoadNicks | internal/nickmanager/nickmanager.go:110-137 | an unreadable or malformed file changes nothing; otherwise priority nicks from the file, the letters added to the secondary list, targets are both |
| NickManager.Manager.AddNick | internal/nickmanager/nickmanager.go:377-398 | the nick is appended to both lists unless it is a priority nick already |
| NickManager.Manager.RemoveNick | internal/nickmanager/nickmanager.go:400-435 | the first occurrence leaves each of both lists |
| NickRuns.NoDoubleAssignment | internal/nickmanager/nickmanager.go:297-331 | whatever happens between two responses, a nick is assigned again only more than 1.5 s later unless it was released |
| NickRuns.MarkedForAMinute | internal/nickmanager/nickmanager.go:532-540 | whatever happens in between, a nick marked as unavailable is assigned only more than a minute later unless it was released |
| NickRuns.ResponseBlocks | internal/nickmanager/nickmanager.go:250-335 | a handled response locks each assigned nick for 1.5 s from its stamp, adds and changes no other block, drops those that were over when it came and keeps those still running |
| NickRuns.UnhandledResponse | internal/nickmanager/nickmanager.go:252-276 | a nil response changes nothing; one without a free bot assigns nothing and drops exactly the blocks that are over |
| NickRuns.NoDoubleInOneResponse | internal/nickmanager/nickmanager.go:284-331 | without duplicates in the lists no nick goes to two bots in one response |
| NickRuns.LockKeptAlong | internal/nickmanager/nickmanager.go:459-540 | other blocks, cleanups and responses keep or extend an in-flight lock |
| NickRuns.RefusedForGood | internal/nickmanager/nickmanager.go:561-565 | once a server is marked as refusing letters, no response in any later run assigns a one-letter nick to a bot on it |
| NickRuns.ListsConsistent | internal/nickmanager/nickmanager.go:377-435 | under any run the targets are the priority and secondary nicks together, as multisets |
| NickRuns.OfferIsTaken | internal/bot/bot.go:1297-1321 | a released nick is offered only to a bot that does not decline it |
| NickRuns.ReoffersEnd | internal/nickmanager/nickmanager.go:353-367 | offers that are declined and returned end after one hop, always, if and only if all letters are targets |
| NickRuns.LoadedLettersTracked | internal/nickmanager/nickmanager.go:110-137 | as they are from loading on |
| Liveness.KillMeansSilence | internal/bot/bot.go:249-286 | over any run a kill means an unanswered probe older than grace and more than idle + grace of silence |
| Liveness.SilenceIsKilled | internal/bot/manager.go:306-329 | a connected bot silent since `last` is killed within max(idle, period) + grace + 2 periods, also with an answered probe pending; within idle + grace + 2 periods for period <= idle |
| Liveness.BoundHoldsExactly | internal/bot/manager.go:306-329 | every silent bot is killed within idle + grace + 2 periods, whatever its probe and the row of sweeps, if and only if period <= idle |
| Liveness.LateKill | internal/bot/bot.go:249-286 | for every period above idle, a row of sweeps on which no sweep within that bound kills |
| Liveness.ClocksRemember | internal/bot/bot.go:756-771 | after any run the idle clock is the latest inbound line, a pending probe is one that was really sent with no registration accepted since, and the bot is connected exactly if it was registered with no drop since |
| Liveness.SweepLiveness | internal/bot/manager.go:306-329 | each bot is treated as if alone; exactly the ones with the kill verdict are disconnected, in roster order |
| Liveness.Bot.ApplyLiveness | internal/bot/bot.go:269-286 | the verdict and the probe clock after it |
| Liveness.Bot.OnLine | internal/bot/bot.go:756-771 | any inbound line restarts the idle clock |
| Liveness.Bot.OnRegistered | internal/bot/bot.go:557-592 | a registration restarts both clocks unless the bot is connected or has given up |
| SelfNick.ReplyRestores | internal/bot/bot.go:1410-1428 | a 303 reply is possible after any run and restores equality with the server's view |
| SelfNick.SyncKept | internal/bot/bot.go:1357-1373 | delivered own and foreign renames keep that equality |
| SelfNick.EmittedChain | internal/bot/bot.go:1375-1400 | emitted (old, new) pairs form a chain from the registered to the current nick |
| SelfNick.LettersCaptured | internal/bot/bot.go:1375-1384 | the letters reported as captured are exactly the one-letter nicks among the emitted changes, in order |
| SelfNick.CapturedExactly | internal/bot/bot.go:1375-1384 | each published change captures its nick as a letter if it is one letter, as a priority nick if it is a target in any spelling, and not at all otherwise |
| SelfNick.LiterkiAlternates | internal/bot/bot.go:1375-1400 | JOIN and PART of the letters channel alternate |
| SelfNick.LiterkiFollowsNick | internal/bot/bot.go:1375-1400 | a JOIN is outstanding exactly while the nick is one letter, in every run, iff registration gave a nick of another length |
| SelfNick.ForeignIgnoredExactly | internal/bot/bot.go:1338-1373 | in a given state every possible rename of another user is ignored if and only if our nick agrees with the server's |
| SelfNick.NeverMisledExactly | internal/bot/bot.go:1338-1373 | no run takes another user's rename for ours if and only if no rename of ours is lost |
| SelfNick.LostRenameMisleads | internal/bot/bot.go:1357-1373 | after any run, losing a rename away from the bot's nick lets any rename of that nick's next holder pass for ours |
| SelfNick.RepairedExactly | internal/bot/bot.go:1402-1428 | out of agreement, an event restores it exactly if it is a 303 reply or a rename of ours back to the nick the bot holds |
| SelfNick.CanonicalizeNick | internal/util/helpers.go:30-50 | the byte loop computes the case mapping of section 2.2 of RFC 2812 |
| SelfNick.CanonicalNormal | internal/util/helpers.go:22-50 | the mapping is a normal form; equality under it is letter by letter |
| SelfNick.FoldsExactly | internal/util/helpers.go:30-50 | two characters are folded together exactly if they are equal, the two cases of a letter or one of the four pairs of section 2.2 of RFC 2812 |
| SelfNick.Bot.NickCallback | internal/bot/bot.go:662-671 | a NICK message is taken as ours exactly if the old nick is ours, and then recorded and emitted |
| SelfNick.Bot.TryAcceptSelfNickChange | internal/bot/bot.go:1357-1373 | the new nick is stored exactly if the old one is ours and the new one is not empty |
| SelfNick.Bot.EmitSelfNickChange | internal/bot/bot.go:1375-1400 | the pair is published, a letter or target is reported as captured, and the channel joined or left on a one-letter transition |
| SelfNick.Bot.ReconcileSelfNickFromISON | internal/bot/bot.go:1410-1428 | a reply under another nick is stored and published, any other changes nothing |
| StrikeBudget.ReconnectBudget | internal/bot/bot.go:1238-1283 | n bounds the cool-down reconnects between registrations in every run if and only if n is at least one, two if the bot may be told to quit, three if besides registrations may overlap a sleeping back-off |
| StrikeBudget.SecondStrikeNeedsQuit | internal/bot/bot.go:899-917 | unless it may be told to quit, a bot has given up before its second strike since a registration |
| StrikeBudget.ThirdStrikeIsTerminal | internal/bot/bot.go:1238-1283 | the third strike since the last registration sets gaveUp |
| StrikeBudget.GaveUpForGood | internal/bot/bot.go:566-624 | once set gaveUp stays, no later 001 emits BotConnected and no cool-down reconnect follows |
| StrikeBudget.BannedOnce | internal/bot/bot.go:856-897 | BotBanned is emitted at most once, and only by a bot that gave up |
| StrikeBudget.BannedExactly | internal/bot/bot.go:856-897 | BotBanned has been emitted once if the bot was ever banned and not at all otherwise |
| StrikeBudget.GaveUpExactly | internal/bot/bot.go:1238-1283 | over every run a bot has given up exactly if it was banned or removed, a reconnect failed, or a back-off began for its third strike |
| StrikeBudget.ConnectedExactly | internal/bot/bot.go:557-624 | it is connected exactly if it was registered, not having given up, and nothing has taken it off the server since |
| StrikeBudget.StrikesExactly | internal/bot/bot.go:899-917 | the strikes are exactly the host-limit errors that met no back-off |
| StrikeBudget.HostLimitExactly | internal/bot/bot.go:36-46 | a host-limit error is recognised wherever the text stands in it and however it is spelled, and nothing else is |
| StrikeBudget.BudgetKept | internal/bot/bot.go:899-917 | the strike counter is the number of strikes since the last registration and pays for the reconnects; without quits a bot that has not given up needs a registration between a reconnect and the next strike |
| StrikeBudget.ThreeReconnects | internal/bot/bot.go:1238-1283 | the run with three reconnects: an overlapped registration, then quits that end connectWithRetry and operator reconnects |
| StrikeBudget.Bot.ErrorCallback | internal/bot/bot.go:899-917 | a host-limit error is a strike unless a back-off is in progress |
| StrikeBudget.Bot.WelcomeCallback | internal/bot/bot.go:557-624 | a 001 registers the bot unless it is connected or has given up |
| StrikeBudget.Bot.BanCallback | internal/bot/bot.go:856-897 | the first 465 or 466 latches gaveUp and reports the ban |
| StrikeBudget.Bot.HandleBackoffStart | internal/bot/bot.go:1238-1261 | the connection is closed and reported; the last strike is reported and removes the bot, an earlier one begins the cool-down |
| StrikeBudget.Bot.HandleBackoffWake | internal/bot/bot.go:1262-1283 | after the cool-down a bot that gave up stays, another one reconnects |
| Humanlike.RunDisciplined | internal/bot/humanlike.go:147-223 | for every schedule, no JOIN while a channel is tracked, each PART names the latest JOIN and comes at most once, nothing is tracked at the end |
| Humanlike.JoinsEqualParts | internal/bot/humanlike.go:147-223 | if the bot stays connected and only the runner changes its membership, JOINs and PARTs are equal in number and the bot ends on the channels it began on |
| Humanlike.JoinsAccounted | internal/bot/humanlike.go:147-223 | in every run each JOIN is closed by a PART or because the bot was disconnected or off the channel |
| Humanlike.TurnExactly | internal/bot/humanlike.go:147-223 | a turn sends a JOIN exactly if the idle sleep ran out, the bot is connected and some listed channel is not one it is on, then a PART of that channel exactly if the bot is still connected and on it; the runner ends exactly if a sleep was cut short |
| Humanlike.AnyMayBePicked | internal/bot/humanlike.go:129-145 | each listed channel the bot is not on is picked for some draw |
| Humanlike.DurationInBounds | internal/bot/humanlike.go:116-127 | every draw gives a duration in [min, max] exactly if the bounds' fractions of a second are in order, so for whole seconds |
| Humanlike.PickedIsEligible | internal/bot/humanlike.go:129-145 | the picked channel is listed and the bot is not on it; one is picked whenever there is such a channel, none if it is on all |
| Humanlike.Runner.Run | internal/bot/humanlike.go:147-182 | the loop with its deferred part does what RunTurns says for every schedule |
| Humanlike.Runner.Pick | internal/bot/humanlike.go:129-145 | the drawn one of the listed channels the bot is not on |
| Humanlike.Runner.PartJoined | internal/bot/humanlike.go:205-223 | the tracked channel is forgotten, and left if the bot is connected and on it |
| Matcher.CompilerCorrect | internal/util/matcher.go:62-95 | for every mask and text, the compiled expression accepts the text exactly if the glob does |
| Matcher.PassesTranslate | internal/util/matcher.go:70-86 | quoting and the three passes give the character-by-character translation |
| Matcher.EscapePass | internal/util/matcher.go:70-86 | a replacement pass neither rewrites inserted text nor splits an escape |
| Matcher.CompiledMask | internal/util/matcher.go:62-95 | every mask compiles, to its anchored atoms |
| Matcher.Cache.Compile | internal/util/matcher.go:62-95 | the cached or fresh expression is the compiled mask |
| Matcher.AdmitsWellFormed | internal/util/matcher.go:20-41 | for well-formed masks and user hosts ident and host decide, the nick part of the mask does not |
| Matcher.AdmitsOnlyWellFormed | internal/util/matcher.go:20-41 | everything else is refused |
| Matcher.Cache.MatchWildcard | internal/util/matcher.go:54-60 | with or without a cached entry the answer is the glob's, and the cache stays right |
| Matcher.Cache.MatchUserHost | internal/util/matcher.go:20-41 | the method decides Admits |
| RoundRobin.RoundRobinFair | internal/bot/manager.go:633-666 | k consecutive sends over a roster with k eligible bots use each of them exactly once |
| RoundRobin.RoundRobinOrder | internal/bot/manager.go:633-666 | and do so in roster order from the current index on |
| RoundRobin.AlwaysSent | internal/bot/manager.go:633-666 | the message is sent exactly if some bot of the roster is eligible |
| RoundRobin.Search | internal/bot/manager.go:640-656 | the scan finds the first eligible bot from the index on, wrapping around |
| RoundRobin.Usable | internal/bot/manager.go:646-651 | a candidate passes exactly if connected and, for a channel target, joined to it |
| RoundRobin.Manager.SendSingleMsg | internal/bot/manager.go:633-666 | the bot used is in the roster, connected and, for a channel, on it; none is used only if no bot of the roster is; the new index stays inside the roster |
| RoundRobin.Manager.RemoveBotFromManager | internal/bot/manager.go:383-431 | exactly the bot is removed and the index stays inside the roster |
| RuntimeState.ObserverOrder | internal/runtime/state.go:134-211 | under any interleaving each listener is told the persisted states in the order they were persisted, each once, from its registration on, lagging by at most the one in flight |
| RuntimeState.SettledAgreement | internal/runtime/state.go:134-247 | with no setter running and the last one successful, memory, disk and every listener's last snapshot agree, whatever failed before |
| RuntimeState.SettersTakeEffect | internal/runtime/state.go:138-181 | in every run a finished setter has written to memory what it checked, once, and one whose argument is invalid has failed and written nothing |
| RuntimeState.MemoryIsLastWritten | internal/runtime/state.go:138-181 | in every reachable state each part of memory is the one written last by a setter, or the loaded one |
| RuntimeState.ReadsAreSettled | internal/runtime/state.go:106-132 | Get returns one state memory held outside any setter's critical section, no older than the call |
| RuntimeState.ListenersDoNotBlockReaders | internal/runtime/state.go:59-67 | while a setter notifies listeners a reader can go on |
| RuntimeState.AlwaysProgress | internal/runtime/state.go:59-67 | while a call is unfinished some call can take a step |
| RuntimeState.FailedPersistDiverges | internal/runtime/state.go:146-160 | a setter whose persist fails tells nobody, and leaves memory and disk different exactly if it changed something |
| RuntimeState.SoloSucceeds | internal/runtime/state.go:138-181 | a setter running alone changes memory, disk and listeners as the method does |
| RuntimeState.SoloReads | internal/runtime/state.go:106-132 | a reader that meets no setter answers what memory holds and leaves everything as it was |
| RuntimeState.RunInvariant | internal/runtime/state.go:138-247 | lock ownership, what each position of a call implies, and the listeners' logs hold in every reachable state |
| RuntimeState.RuntimeStore.SetWatchdog | internal/runtime/state.go:138-161 | an invalid channel changes nothing; otherwise the watchdog part of memory is the argument with its channel trimmed, the other part stays, and on success disk and every listener's last snapshot are what memory holds |
| RuntimeState.RuntimeStore.SetHumanlike | internal/runtime/state.go:163-181 | an invalid list changes nothing; otherwise the humanlike part is the argument with normalised channels, the other part stays, and on success disk and every listener's last snapshot are what memory holds |
| RuntimeState.RuntimeStore.PersistAndNotify | internal/runtime/state.go:213-247 | every listener is told the snapshot once, or nobody if persisting failed |
| RuntimeState.RuntimeStore.OnChange | internal/runtime/state.go:187-194 | the listener is appended and has been told nothing |
| ChannelLists.NormalizeChannels | internal/runtime/state.go:275-297 | the loop with its seen map returns the first occurrences of the cleaned entries, or the first invalid one |
| ChannelLists.FirstsExact | internal/runtime/state.go:284-296 | the result picks, in order, exactly the entries no earlier one equals up to case |
| ChannelLists.FirstsDistinct | internal/runtime/state.go:284-296 | it has no case-insensitive repeats |
| ChannelLists.FixedIffClean | internal/runtime/state.go:273-297 | normalisation fixes exactly the lists of distinct, trimmed, valid names |
| ChannelLists.Idempotent | internal/runtime/state.go:273-297 | normalising twice is normalising once |
| ChannelLists.FailsExactly | internal/runtime/state.go:281-287 | it fails exactly on lists with an entry that is neither blank nor valid once trimmed |
| ChannelLists.ValidateChannel | internal/runtime/state.go:252-271 | no problem is reported exactly for valid names; the first one in the order of the tests otherwise |
| ChannelLists.ByteLenCounts | internal/runtime/state.go:256-258 | the length that is limited to 50 is that of the UTF-8 encoding of section 3 of RFC 3629 |
| ChannelLists.TrimExact | internal/runtime/state.go:282-285 | trimming removes all white space at both ends and nothing else |
| ChannelLists.JoinSplit | internal/runtime/state.go:299-311 | a normalised list survives joining with spaces and splitting iff no name has white space inside |
| ChannelLists.PanelSurvives | internal/api/handlers_runtime.go:79-102 | what came from the panel's string always survives |
| ChannelLists.SplitChannelList | internal/runtime/state.go:299-311 | the words of the string, in order |
| ChannelLists.VerticalTabSplits | internal/runtime/state.go:264-270 | an accepted name that does not survive |
| TokenChecker.SlidingWindow | internal/api/auth.go:28-59 | maxFail + 1 consecutive recorded failures of a remote without a success span at least the window |
| TokenChecker.VerdictExactly | internal/api/auth.go:28-59 | in every run a call is limited exactly if maxFail failures of its remote since the last success lie inside the window, otherwise accepted exactly if its token is right: pruning forgets nothing that matters |
| TokenChecker.CheckMeans | internal/api/auth.go:28-59 | one call: limited exactly if maxFail stored failures are inside the window, accepted only with the right token and then nothing stays stored, rejected only with a wrong one and then it is stored behind the unexpired ones |
| TokenChecker.AttemptsCountExactly | internal/api/auth.go:42-46 | counting the wrong tokens sent while limited as well would give the same verdicts in every run if and only if maxFail is 0 or the window is one instant |
| TokenChecker.LimitedOnesForgotten | internal/api/auth.go:42-46 | for every other maxFail and window, a run on which it would not |
| TokenChecker.Checker.CheckToken | internal/api/auth.go:28-59 | verdict and stored list are Check of the old list; acceptance means the right token and clears the record, rejection a wrong one; other remotes are untouched |
| TokenChecker.Prune | internal/api/auth.go:35-41 | compaction in the same array equals filtering |
| TokenChecker.Append | internal/api/auth.go:57 | the failure is appended, in place while there is room |
| TokenChecker.StoredAfter | internal/api/auth.go:42-57 | the stored list never exceeds maxFail |
| Connections.SlotsCounted | internal/api/server.go:198-211 | for any interleaving of loads, swaps and releases activeN is the number of handlers holding a slot and never exceeds the limit |
| Connections.RefusedExactly | internal/api/server.go:201-207 | a connection is refused exactly if all slots are held when it looks |
| Connections.Decides | internal/api/server.go:201-210 | a new connection is refused if all slots are held and otherwise has one after its load and swap; a swap that came too late is tried again |
| Connections.Opens | internal/api/server.go:211-236 | with a slot the connection is served under the next session id and in the registry after three steps; if the upgrade fails its slot is given back |
| Connections.Attaches | internal/api/handlers_attach.go:15-26 | a finished attach request has added exactly that link to record and shared map; for an unknown bot nothing changes |
| Connections.Detaches | internal/api/handlers_attach.go:28-36 | a finished detach request has removed exactly that link from both |
| Connections.Closes | internal/api/server.go:238-246 | a connection that ends leaves registry, shared map and slot, and touches nothing of the others |
| Connections.AttachmentsMirrored | internal/api/handlers_attach.go:15-36 | between requests a session's record equals its links in the shared map; every link belongs to a session accounting for it; no inner set is empty |
| Connections.ClosedNowhere | internal/api/session.go:94-103 | the id of a closed session is in no registry, no bot's set and keeps no record |
| Connections.NothingLeft | internal/api/server.go:198-246 | when all connections are over, no slot, session or attachment is left |
| Connections.IdsUnique | internal/api/server.go:226-236 | no two handlers carry the same session id |
| Connections.RunInvariant | internal/api/server.go:198-246 | slots, ids, registry and attachments hold together in every reachable state |
| Attach.AttachManager.Attach | internal/api/attach.go:18-27 | exactly the one link is added |
| Attach.AttachManager.Detach | internal/api/attach.go:29-38 | exactly the one link goes, and an empty set with it |
| Attach.AttachManager.DetachAll | internal/api/attach.go:40-49 | exactly the session's links go, and empty sets with them |
| Attach.AttachManager.Sessions | internal/api/attach.go:52-64 | the attached sessions, each once |
| Attach.UnlinkingAllExact | internal/api/attach.go:40-49 | links of other sessions stay and no empty set is left |
| Attach.Session.HandleBotAttach | internal/api/handlers_attach.go:15-26 | record and map change together and keep agreeing |
| Attach.Session.HandleBotDetach | internal/api/handlers_attach.go:28-36 | record and map change together and keep agreeing |
| Attach.Session.Close | internal/api/session.go:94-103 | nothing of the session is left in the map or its record |
| NickGen.ConsecutiveDistinct | internal/util/nickgen.go:145-165 | any 513 consecutive generated nicks are pairwise distinct |
| NickGen.QueueIsWindow | internal/util/nickgen.go:245-261 | the queue is always the last 512 nicks produced |
| NickGen.Generator.MarkRecentlyGenerated | internal/util/nickgen.go:245-261 | the set stays the elements of the queue, which stay distinct and at most 512 |
| NickGen.Generator.GenerateComposedNick | internal/util/nickgen.go:145-165 | the first of 256 draws that combines and is not recent |
| NickGen.Generator.GenerateNickPool | internal/util/nickgen.go:122-143 | a pool of the requested size, distinct and acceptable, or nothing if the attempts run out |
| NickGen.PoolCounts | internal/util/nickgen.go:122-143 | a pool of at most 513 nicks gets one more from every attempt that finds a usable draw until it is full: none is lost as a repetition |
| NickGen.CallProduces | internal/util/nickgen.go:145-165 | a call produces one nick exactly if the banks are not empty and some draw is usable |
| NickGen.FirstUsableIs | internal/util/nickgen.go:151-162 | a produced nick is acceptable, not recent and that of the first usable draw; none is produced exactly if no draw is usable |
| NickGen.IsNickCandidate | internal/util/nickgen.go:200-236 | the counting loop accepts exactly the nicks with the right length and letters, two vowels, no triple letter and no ugly pair |
| NickGen.CandidateMeans | internal/util/nickgen.go:200-236 | a candidate has 6 to maxLen letters, vowels at two places, no letter three times in a row and none of the ugly pairs anywhere |
| NickGen.CombineNickParts | internal/util/nickgen.go:182-198 | exactly the combinations that are candidates and do not repeat one part at the end of the other |
| NickGen.CombinesMeans | internal/util/nickgen.go:182-198 | two parts combine exactly if their concatenation is a candidate for the normalised length, the tail does not begin with the lead and the lead does not end in the tail |
| NickGen.LengthsThatWork | internal/util/nickgen.go:285-293 | a nick exists for a requested length, over all word banks, iff it is not 1 to 5 |
| NickGen.FreedAfterWindow | internal/util/nickgen.go:255-260 | marking a 513th nick frees exactly the oldest one |

## Left out

- Sockets, TLS, WebSocket frames, JSON, file formats, logging, daemon and identd setup; disk is a value that a persist step sets or fails to set.
- The go-ircevo library: its reconnect loop, locks and nick mangling are not part of this model; its callbacks are events.
- The delay between closing a connection and its DISCONNECTED callback in a back-off: the close raises the callback at once, and a late one is the event `Disconnected`.
- The bot's own mutex in the party-line model: `broadcast` asks a bot for its nick under the read lock while `Quit` stops the tunnel under the bot's mutex; freedom of deadlock is not claimed with that lock included.
- What a party-line send writes: a send is the taking of the recipient's mutex; a tunnel stopped meanwhile drops the text, and write errors and the welcome text are left out.
- Overlap of two calls inside `CheckToken`, `handleISONResponse` or `applyHumanlikeChange`, which release their locks midway: these are modelled as atomic steps.
- Sharing of a backing array between the nick lists (internal/nickmanager/nickmanager.go:134): the lists are values.
- The roster overwrite at the end of `StartBots`: the manager model begins after startup, with distinct bots.
- `net.ParseIP` and IPv6 expansion (the expansion is any function), bot ids, JSON sink output, reconnect jitter.
- Random sources and map iteration order: draws are inputs, iteration is over an arbitrary order.
- Lower-casing beyond ASCII; strings are sequences of characters, and only channel lengths count UTF-8 bytes.
- Wrap-around of the 64-bit sequence and session counters; the int32 connection counter and limit are modelled with their width.
- `AttachManager.Publish` and backpressure closes: which sessions receive an attach event follows from Sessions and the registry.
- `GenerateFallbackNick`'s random letters, which bypass the window of recent nicks.
- Command tables, message formatters, thin API handlers, word-bank building: nothing beyond their text to state.
