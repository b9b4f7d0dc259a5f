# A verified model of the bridge

The bridge lets a client drive several browser profiles. In each profile an
extension worker talks, over native messaging, to a host process; the hosts talk
to one broker, which routes requests to profiles by label, keeps the panic switch
and the arm windows, and remembers who each profile is. This project models that
system in Dafny and proves what it promises over every run:

- the extension's link state machine (`Link`, `LinkInvariant`, `LinkTheorems`,
  `LinkRegisters`, `LinkSilence`, `LinkUndisturbed`, `LinkWorker`, `SessionStore`): every stretch between two awaits is one atomic
  step, what is suspended is an explicit continuation;
- the ledger of tab ages and its re-key at a browser restart (`TabAges`,
  `TabAgesTheorems`, `TabAgesRestart`, `TabAgesComplete`, `TabAgesLedger`,
  `TabAgesChain`);
- labels, tab handles and their generations (`Handles`, `RouteLabels`,
  `RouteClaims`, `RouteEpochs`, `RouteEffects`, `RouteTable`);
- the broker's routes, requests, arms and panic switch (`Broker`,
  `BrokerTheorems`, `BrokerConnections`, `BrokerHolds`, `BrokerAnswers`,
  `BrokerEffects`, `BrokerProcess`),
  and the three joined (`OneRegister`);
- the host relay and the chunk hop (`HostRelay`, `HostRelayTheorems`,
  `HostRelayOrder`, `HostRelayDelivery`, `HostRelayFates`, `HostProcess`, `Chunks`,
  `ChunksTheorems`);
- the token sink, identity drift, the key guard and the gather of tab groups
  (`TokenSink`, `TokenSinkTheorems`, `TokenRelay`; `IdentityDrift`,
  `ProfileStore`; `KeyGuard`, `KeyGuardTheorems`, `KeyGuardTiming`,
  `KeyGuardChecks`, `KeyTypist`; `TabGroups`,
  `TabGroupsTheorems`, `GatherTheorems`, `GatherConserves`, `Gatherer`).

A component that changes things in place comes in three parts: functions from
state to state that say what each stretch does, theorems about those functions
over all runs, and a class whose methods and loops change fields as the program
does, each method proved to do to the object what its function says. So the
theorems hold of the objects. `dafny verify dfyconfig.toml` checks everything.

## What the proofs turned up

Where the code does not do what its comments or its callers count on, the model
keeps the code, gives an input that shows it, and proves when it does hold.

- A reconnect can be lost. If the host exits while the identity of its port is
  still being collected, and the backoff fires before the collection ends, the
  connect in flight turns the retry away and then ends in silence. Nothing is left
  to dial until the next wake source (`ReconnectCanBeLost`; `StaysDriven` is the
  exact condition).
- A heartbeat counts as it was when it was read. A ping that is noted between that
  read and its answer does not save a link found silent (`PingCanComeTooLate`;
  `SilenceIsDroppedIff` is the exact condition, `HeardPortIsKept` what it comes to
  over whole runs).
- The link relies on the broker never answering a panic-held connection with an ok
  ack (`HeldLinkMustNotBeAccepted`, on a link a run reaches: `HeldLinkIsReached`).
  The broker does it exactly when a registration resumes on a held connection that is
  still open, with panic off and known to be (`HeldAnsweredOkIff`); a popup that asks
  to resume, on a connection that then registers once more before it is closed, gets
  there (`HeldIsAnsweredOk`). `ClashIff` and `BothAnswersIff` are the exact conditions
  for a connection to be answered both ways in either order. One REGISTER for each
  connection rules both out (`HeldIsNeverAccepted`), and the extension and the host
  bring no more (`NoneIsAnsweredBothWays`).
- Two live routes can get one label: the fallback of a contested route is not
  checked against the names already given (`LabelsCanCoincide`;
  `LabelsDistinctIff` is the exact condition).
- A claim of another directory under a label the operator chose does not resolve
  the table, so a label can lag behind the set of routes until the next change
  (`QuietClaimIff` says exactly when it does; `LabelsCanLag` is an input).
- A tab handle names a label and a generation, not an install id: a profile that
  takes the label of one that left, in the same generation, accepts its handles
  (`HandleOutlivesItsProfile`).
- A key is not always preceded by a check made before the deadline margin: only the
  start of the check is timed. That holds on every page only without a deadline, or
  without keys (`FillInTimeIff`, `PressInTimeIff`); `FillKeysSoon` and
  `PressKeysSoon` bound how late a check and a key can be. Without a named field the
  first trusted key is not timed at all (`EveryKeyTimedIff`).
- A key is two debugger commands. When the first is refused `fill` has counted a key
  that never went out, and when the second is, `pressKeys` has not counted one that
  did (`FillCountsIff`, `PressCountsIff`). No error that carries a count follows
  either: the count an error tells is right in every run (`FillIsGuarded`,
  `PressIsGuarded`).

## Assumptions

- Session storage answers its calls in the order they were made and its writes
  succeed; `SessionStore` shows why a write may then take effect where it is
  issued. The write of the panic file succeeds.
- Six hexadecimal digits of SHA-256 are any function to strings of length six;
  where a property needs it, one that tells the live install ids apart. Base64 is
  any codec with an inverse. The verdicts on tokens, secret fields and first
  frames, the results of probes, and `String.trim` and `toLowerCase` are
  parameters.
- The browser forms, extends and deletes tab groups, and moves tabs, as
  `test/tab-groups.test.mjs` spells out for its stand-in.

## Model

| member | source | states |
|---|---|---|
| SessionStore.ReadSeesEveryEarlierWrite | extension/lib/link.js:897-967 | a storage read issued after some writes and answered in call order sees exactly those writes, whatever else is issued or answered in between: why a write may take effect where it is issued |
| LinkTheorems.OnePortNeverHalfOpen | extension/lib/link.js:1-35 | over every interleaving from a worker start: at most one native port is open and it is the worker's own; a live port has a connect in flight, an ack timer, a recorded READY or a panic hold; READY beside a live port means that very port's REGISTER was accepted; at most one ack timer and one retry timer |
| LinkTheorems.RequestsSettleOnce | extension/lib/link.js:272-297 | over every run each broker request settles exactly once or still waits under its own live timer, and none waits on a link that is gone |
| LinkTheorems.NoLostReconnect | extension/lib/link.js:868-891 | over every run that never spends the last driver of an abandoned connect: without a port a retry is armed or claimed or something suspended will dial, and at rest it is the retry timer, the only one |
| LinkInvariant.StaysDriven | extension/lib/link.js:115-165 | the exact condition, step by step: a driven worker stays driven if and only if the event is not a retry timer, or the resumption of an ensureConnected, that is turned away by a connect whose port is already lost and that was the last thing which would have dialled |
| LinkTheorems.ReconnectCanBeLost | extension/lib/link.js:358-365 | the counterexample: a run from a fresh worker that ends with no port, no timer and nothing suspended, because the backoff fired while the identity of a lost port was still collected |
| LinkTheorems.StalePortsChangeNothing | extension/lib/link.js:526-537 | a frame or a disconnect from a port that is not current changes nothing, and what is still suspended on its behalf only ends |
| LinkTheorems.DropsOnlySilence | extension/lib/link.js:134-176 | the only live port a wake source ever drops was READY and silent for longer than the stale window, by a stamp read on that very link |
| LinkTheorems.HeldLinkMustNotBeAccepted | extension/lib/link.js:588-665 | the assumption on the broker is needed: an ok answer on a panic-held link leaves a half-open port while it is recorded |
| LinkTheorems.HeldLinkIsReached | extension/lib/link.js:588-665 | a run from a fresh worker reaches such a held link |
| LinkRegisters.OnePortOneRegister | extension/lib/link.js:358-372 | over every run at most one REGISTER is posted to any one native port |
| LinkInvariant.Keeps | extension/lib/link.js:115-397 | every event keeps the safety invariant: resources, requests, answers, no half-open port, and how suspended continuations stand to each other |
| LinkInvariant.KeepsBusy | extension/lib/link.js:115-397 | every event keeps a connect in flight and a claimed retry each somebody's work |
| LinkWorker.Worker.constructor | extension/lib/link.js:77-101 | a worker starts with no port, no timer and one ensureConnected on its way |
| LinkWorker.Worker.SetState | extension/lib/link.js:906-921 | DOWN also forgets the heartbeat; any other state only replaces the state |
| LinkWorker.Worker.ClearAckTimer | extension/lib/link.js:823-840 | the ack timer is off, and only that one |
| LinkWorker.Worker.RejectPending | extension/lib/link.js:851-866 | every waiting request is settled once, its timer off, and none waits any more |
| LinkWorker.Worker.LetGo | extension/lib/link.js:823-840 | port, timers, requests, hold and state after a teardown's first stretch, exactly |
| LinkWorker.Worker.Teardown | extension/lib/link.js:823-840 | the link after teardown up to its first await |
| LinkWorker.Worker.ScheduleReconnect | extension/lib/link.js:868-895 | the claim on the retry is made only when no retry is armed or claimed; otherwise nothing changes but the waiting connect |
| LinkWorker.Worker.StartConnect | extension/lib/link.js:327-332 | the connect says CONNECTING and waits for storage |
| LinkWorker.Worker.AfterTeardown | extension/lib/link.js:383-397 | what follows a teardown: the dial, the give-up, the retry of a lost link, the forced redial |
| LinkWorker.Worker.OpenPort | extension/lib/link.js:334-358 | a port still held is closed and its requests rejected, then the new one is current under a new epoch |
| LinkWorker.Worker.Settle | extension/lib/link.js:672-680 | a recorded answer turns off its deadline and takes an earlier retry or its claim back |
| LinkWorker.Worker.EnsureConnected | extension/lib/link.js:115-123 | turned away by a connect in flight or a port waiting for its answer; otherwise a read of the link at this epoch is suspended |
| LinkWorker.Worker.Decide | extension/lib/link.js:127-176 | on a moved epoch the link is read again; a live or held link stays; a silent one is dropped; else the connect is claimed in the same stretch |
| LinkWorker.Worker.Introduce | extension/lib/link.js:358-381 | REGISTER goes out on the port that is still current and its deadline starts; on another one the connect ends in silence |
| LinkWorker.Worker.ArmRetry | extension/lib/link.js:868-895 | the claim becomes a timer, unless the link came up or the claim was taken back |
| LinkWorker.Worker.RecordAck | extension/lib/link.js:588-665 | each write of an ok answer goes on only while the port that answered is current |
| LinkWorker.Worker.RecordHold | extension/lib/link.js:588-665 | each write of a panic hold goes on only while the port that answered is current |
| LinkWorker.Worker.Reread | extension/lib/link.js:115-132 | after each of its reads ensureConnected reads on, or decides |
| LinkWorker.Worker.Resume | extension/lib/link.js:327-397 | a suspended continuation resumes and does exactly its stretch |
| LinkWorker.Worker.HandleMessage | extension/lib/link.js:526-586 | a frame of another port does nothing; an ok answer, a hold, a refusal, a ping and a response each do their stretch |
| LinkWorker.Worker.HandleDisconnect | extension/lib/link.js:799-813 | a disconnect of the current port tears the link down and schedules a retry; another's does nothing |
| LinkWorker.Worker.OnAckTimeout | extension/lib/link.js:374-387 | an unanswered REGISTER tears down its own port only |
| LinkWorker.Worker.OnRetryTimer | extension/lib/link.js:868-895 | the backoff fires: the timer is gone and ensureConnected is entered |
| LinkWorker.Worker.ForceReconnect | extension/lib/link.js:189-197 | drops the link and dials, unless asked not to while an answer is pending |
| LinkWorker.Worker.RequestBroker | extension/lib/link.js:272-297 | a request is refused without a port and otherwise pending under its own timer |
| LinkWorker.Worker.OnAskTimeout | extension/lib/link.js:272-297 | a timed-out request is settled, its timer gone |
| LinkWorker.Worker.Restart | extension/lib/link.js:77-101 | a revived worker has only what session storage kept |
| LinkWorker.Worker.Dispatch | extension/lib/link.js:77-101 | whatever the browser does next, the object's fields change as the event machine says |
| LinkSilence.SilenceIsDroppedIff | extension/lib/link.js:150-176 | a wake source that has read the whole link lets the port go if and only if no heartbeat was on record or the one it read was more than 45 seconds old; otherwise nothing changes |
| LinkSilence.HeardPortIsKept | extension/lib/link.js:115-176 | over every run: while every stamp of a READY port is at most 45 seconds old by every clock that reads one, no wake source closes it, until the host, the broker, a deadline, a failed post, the operator or the browser ends it |
| LinkSilence.PingCanComeTooLate | extension/lib/link.js:940-952 | the input that shows it is the stamp that was read: a run in which a ping is noted between the read and its answer, and the link is dropped all the same |
| LinkTheorems.AnswerTakesRetriesBack | extension/lib/link.js:672-680 | whatever is suspended, once an answer is recorded on its port the deadline and every retry, armed or claimed, are off |
| LinkTheorems.NoClaimNoTimer | extension/lib/link.js:868-891 | a claim on the retry that was taken back arms nothing when its turn comes |
| LinkUndisturbed.StartDials | extension/lib/link.js:115-381 | a worker that starts and is left alone ends with one new port, introduced, its deadline running |
| LinkUndisturbed.WakeDials | extension/lib/link.js:115-381 | so does a wake at a worker at rest without a port |
| LinkUndisturbed.AcceptedIsReady | extension/lib/link.js:588-680 | an ok answer, left alone, ends READY with the heartbeat begun, nothing held, and no deadline or retry left |
| LinkUndisturbed.RefusedIsHeld | extension/lib/link.js:588-680 | a panic refusal, left alone, ends with the port kept, DOWN and held, and no deadline or retry left |
| LinkUndisturbed.HeardStays | extension/lib/link.js:115-158 | a wake at a READY port heard from within 45 seconds changes nothing |
| LinkUndisturbed.HeldStays | extension/lib/link.js:115-158 | a wake at a held port changes nothing, whatever the clock says |
| LinkUndisturbed.PendingIsLeftAlone | extension/lib/link.js:115-123 | a wake or a redial during a connect, or while an answer is awaited or recorded, does nothing |
| LinkUndisturbed.SilentRedials | extension/lib/link.js:160-176 | a wake at a READY port silent for longer lets it go and ends with a new port introduced |
| LinkUndisturbed.ForceRedials | extension/lib/link.js:189-197 | a forced redial lets the port go with everything asked of it and ends with a new one introduced; it does nothing while an answer is pending or, if so asked, a retry is |
| LinkUndisturbed.ForceDialsAnew | extension/lib/link.js:189-197 | so it does at a worker without a port |
| LinkUndisturbed.RestartKeepsOnlyTheSession | extension/lib/link.js:77-101 | a worker that is put away loses all but what session storage kept, and its port is closed |
| LinkUndisturbed.LostHostRetries | extension/lib/link.js:799-813 | a host that exits leaves nothing behind but one retry, the one there was or a new one |
| LinkUndisturbed.RefusedPortRetries | extension/lib/link.js:588-665 | so does a refusal |
| LinkUndisturbed.DeadlineRetries | extension/lib/link.js:383-387 | so does a deadline that passes |
| LinkUndisturbed.FailedPostRetries | extension/lib/link.js:682-700 | so does a post that fails |
| LinkUndisturbed.FailedDialRetries | extension/lib/link.js:334-397 | a dial the browser refuses leaves one retry and no connect in flight |
| LinkUndisturbed.BackoffDials | extension/lib/link.js:868-895 | the backoff that fires ends with a new port introduced |
| LinkUndisturbed.PingIsNoted | extension/lib/link.js:682-716 | a ping is stamped and answered, a request answered |
| LinkUndisturbed.AskIsAnswered | extension/lib/link.js:272-297 | a request waits under its timer if there is a port and it takes it, and is settled at once otherwise; its answer settles it, once, and no other |
| TabAgesTheorems.RekeyIsInjection | extension/lib/tab-ages.js:153-220 | each stored entry is carried to at most one tab and each tab takes at most one; the row written has the entry's own time, an equal address and the tab's own place |
| TabAgesTheorems.DroppedIsTheRest | extension/lib/tab-ages.js:218-219 | `dropped` is exactly the number of readable entries no tab took |
| TabAgesTheorems.RekeyIsIdempotent | extension/lib/tab-ages.js:153-220 | re-keying the result against the same tabs, its rows read back in any order, is the identity and drops nothing |
| TabAgesTheorems.WindowMatchSound | extension/lib/tab-ages.js:198-215 | inside one pair of windows no entry is taken twice and every address agrees |
| TabAgesTheorems.ChosenOneToOne | extension/lib/tab-ages.js:190-195 | no window, old or new, is paired twice |
| TabAgesRestart.RestartIsLossless | extension/lib/tab-ages.js:153-220 | if the open tabs are the stored entries under a renaming of windows, with fresh ids, equal places and addresses, nothing is dropped and each tab's time comes from an entry at its own index and address in a window of identical content |
| TabAgesRestart.AllChosen | extension/lib/tab-ages.js:178-195 | on such tabs the greedy best-first pairing gives every window a partner of exactly its own content, whatever the order of equal scores |
| TabAgesRestart.BySpotTakesAll | extension/lib/tab-ages.js:203-208 | when every tab's place and address is among the entries, the first pass leaves no tab over |
| TabAgesLedger.KeepSame | extension/lib/tab-ages.js:159-167 | the loop over the tabs keeps exactly the entries of the same id and address |
| TabAgesLedger.PairUp | extension/lib/tab-ages.js:178-188 | the two nested loops and the sort give the scored pairs, best first and stable |
| TabAgesLedger.CarryWindow | extension/lib/tab-ages.js:196-215 | both passes inside a pair write exactly the rows of the entries the match carries |
| TabAgesLedger.CarryBySpot | extension/lib/tab-ages.js:203-208 | the first pass: taken keys, tabs left over and rows written |
| TabAgesLedger.CarryPairs | extension/lib/tab-ages.js:190-216 | each window once, best pair first, rows accumulating in one ledger |
| TabAgesLedger.CarryByWindow | extension/lib/tab-ages.js:169-216 | group by window, pair, carry: the ledger after all of it |
| TabAgesLedger.RekeyLedger | extension/lib/tab-ages.js:153-220 | the imperative re-key returns the specified ledger, its size and the number dropped |
| TabAgesLedger.RefreshPositions | extension/lib/tab-ages.js:89-101 | the loop with its skips is the specified refresh |
| TabAgesLedger.Refreshed | extension/lib/tab-ages.js:89-101 | a refresh drops no row, adds none and changes no time |
| TabAgesLedger.RefreshedPlaces | extension/lib/tab-ages.js:89-101 | every listed tab the ledger knows gets its current place and address, and no other row changes |
| TabAgesLedger.PruneClosed | extension/lib/tab-ages.js:104-109 | exactly the rows of open tabs are kept, unchanged |
| TabAgesLedger.TimesLast | extension/lib/tab-ages.js:63-109 | over any sequence of ledger events a time once written stays, unless its tab closed on its own or is gone when a ledger past its cap is pruned |
| TabAgesLedger.OnlyNewTabsAreStamped | extension/lib/tab-ages.js:63-74 | every time not there before is that of a created event of that very tab, not shown long before |
| TabAgesLedger.CarriedBeforeStamped | extension/lib/tab-ages.js:274-319 | a tab that came back over a restart keeps its entry's time whatever created events follow the re-key |
| TabAgesChain.CallsLinearize | extension/lib/tab-ages.js:274-306 | however the reads and writes of overlapping calls interleave, once all are written the ledger is what the calls come to one at a time in the order they were made, on the re-keyed ledger if the session had not re-keyed it |
| TabAgesChain.StorageIsReplayed | extension/lib/tab-ages.js:274-306 | storage is at all times what the written calls left, each on what the ones before it left; a failed write is as if its call had not been made, but that the session counts as re-keyed |
| Lists.GroupBy | extension/lib/tab-ages.js:120-128 | keys in the order they first appear, each with exactly its items in order |
| Lists.CountBy | extension/lib/tab-ages.js:130-134 | how often each value occurs |
| TabAgesComplete.RekeyLeavesOnlyTheAmbiguous | extension/lib/tab-ages.js:196-216 | completeness over the whole re-key: in two paired windows an entry and a tab of one address are both left over only if the entry is not at the tab's place and another entry or tab left over has that address too |
| TabAgesComplete.RekeyFindsTheSole | extension/lib/tab-ages.js:209-215 | an entry and a tab that alone have an address in two paired windows find each other, wherever in its window the tab now is |
| TabAgesComplete.LeftOnlyWhenAmbiguous | extension/lib/tab-ages.js:196-216 | the same inside one pair of windows, of any lists of entries and tabs |
| TabAgesComplete.SoleAddressIsCarried | extension/lib/tab-ages.js:209-215 | and of an address that is unique on both sides |
| TabAgesComplete.PlaceComesFirst | extension/lib/tab-ages.js:203-208 | a tab takes an entry from another place only when every entry at its own place with its address went to a tab at that place |
| TabAgesComplete.SameIdIsKept | extension/lib/tab-ages.js:159-167 | a tab that kept its id and its address keeps its own entry |
| TabAgesComplete.NamelessTakesOnlyItsOwn | extension/lib/tab-ages.js:203-215 | a tab without an address takes no entry but its own |
| TabAgesComplete.BestPairIsChosen | extension/lib/tab-ages.js:178-195 | the pairing is greedy: of two windows that have something in common and were not paired, one went to a window it has at least as much in common with, places first and addresses second |
| TabAgesComplete.ChoiceIsScored | extension/lib/tab-ages.js:178-188 | only windows that have something in common are paired, each pair with the number of entries at the same place and of the same address |
| TabAgesLedger.NewTabKeepsItsTime | extension/lib/tab-ages.js:63-74 | a tab without a row, not shown more than a minute before its created event, is stamped with that event's time and keeps it while it is open |
| TabAgesLedger.RestoredTabIsLeftOut | extension/lib/tab-ages.js:63-74 | a tab shown long before its created event is not stamped |
| TabAgesLedger.ClosedTabIsForgotten | extension/lib/tab-ages.js:81-87 | a tab closed on its own has no row, until one of its id is created |
| TabAgesLedger.ClosingForgetsOnlyThat | extension/lib/tab-ages.js:81-87 | no other row is forgotten, and none when its window closes with it |
| TabAgesLedger.CapDropsOnlyTheClosed | extension/lib/tab-ages.js:104-109 | a ledger past 5000 rows loses exactly those of tabs that are not open, and a smaller one none |
| Handles.MintRoundTrip | shared/protocol.mjs:1479-1492 | a minted handle parses back to its label, generation and tab, underscores in the label included |
| Handles.ParseReads | shared/protocol.mjs:1487-1492 | every text of the shape tab_label_digits_digits is read, and one way only |
| Handles.ParseOnlyReads | shared/protocol.mjs:1487-1492 | nothing else is accepted |
| RouteLabels.LabelsDistinctIff | bridged/routes.mjs:294-345 | with a six-digit hash injective on the live ids, labels are pairwise distinct if and only if no uncontested proposal spells a contested route's fallback |
| RouteLabels.LabelsDistinct | bridged/routes.mjs:294-345 | so they are whenever no route's proposal ends in another's hash |
| RouteLabels.LabelsDistinctByNames | bridged/routes.mjs:294-345 | so they are, in terms of what routes bring, whenever no wanted name, bare or with its suffix, ends in another live route's hash |
| RouteLabels.LabelsCanCoincide | bridged/routes.mjs:294-345 | a concrete table, for any six-digit hash, where two live routes get one label |
| RouteLabels.NobodyKeepsTheBareName | bridged/routes.mjs:294-345 | no route of a colliding group is called by the bare name |
| RouteLabels.UncontestedKeepsItsName | bridged/routes.mjs:294-345 | a route that alone wants a name keeps it byte for byte if and only if no other route is proposed that name |
| RouteEpochs.LabelsForgetTheHistory | bridged/routes.mjs:180-257 | any two histories of attach, detach, rename, claim and drop that end with the same live routes wanting the same names end with the same labels, if after the last claim that was not steady, in either, some act decided the labels again |
| RouteEpochs.QuietClaimIff | bridged/index.mjs:1572-1575 | the exact exception: after a claim under a custom name the labels are still those of the set of routes if and only if nobody else wants the name, or the suffix does not move, or the old suffix and the new one are each carried by two other routes of that name; for suffixed names that do not end in their own route's hash |
| RouteEpochs.SteadyClaimSyncs | bridged/index.mjs:1572-1575 | the half a caller counts on, whatever the suffixes spell |
| RouteEpochs.QuietClaimLags | bridged/index.mjs:1572-1575 | a claim under a custom name moves one slug and no label; used by the two above |
| RouteClaims.SteadyIff | bridged/routes.mjs:294-345 | deciding the labels again after one slug moved changes none of them, if and only if the move is steady in that sense |
| RouteClaims.ProposesSteadily | bridged/routes.mjs:305-321 | if no proposal changes though the suffix of a shared name moves, two others carry the old suffix and two the new one |
| RouteEpochs.LabelsCanLag | bridged/index.mjs:1565-1575 | the input: two profiles register under one custom name, the first is claimed for another directory, and its label is still that of the old one |
| RouteEpochs.DirectoryNamesTheRoute | bridged/routes.mjs:294-345 | of two routes of one name the first is called after its directory |
| RouteEpochs.StepOnward | bridged/index.mjs:231-247 | a generation never goes back; it strictly increases when the route registers again and when its non-null label changes; only a registration brings a route to life |
| RouteEpochs.RunOnward | bridged/profiles.mjs:188-193 | the same over whole histories, across departures |
| RouteEpochs.AcceptedIff | bridged/routes.mjs:379-411 | a live route accepts a handle if and only if its name and generation are those it was minted under |
| RouteEpochs.OthersRefuse | bridged/routes.mjs:379-411 | of two routes live at once under different names only the one it was minted for accepts it |
| RouteEpochs.AcceptedInItsEra | bridged/routes.mjs:364-411 | over any history a profile accepts an earlier handle of its own if and only if since then it never left, never registered again and kept name and generation; otherwise it refuses it |
| RouteEpochs.HandleOutlivesItsProfile | bridged/routes.mjs:379-411 | across profiles and over time it does not hold: a profile that takes the name of one that left accepts, in its own first generation, what was minted for the other |
| RouteTable.SuffixGroup | bridged/routes.mjs:294-320 | the directory or hash suffix of each route of a name |
| RouteTable.ProposeGroup | bridged/routes.mjs:294-335 | the proposals for one name: the bare name, the suffix, or the id's hash where suffixes collide |
| RouteTable.Propose | bridged/routes.mjs:294-335 | a proposal for every live route, each once |
| RouteTable.Decide | bridged/routes.mjs:294-345 | every route's label, equal to the specified function of the table |
| RouteTable.GroupRoutes | bridged/routes.mjs:294-310 | the live routes by wanted name, each in exactly one group |
| RouteTable.RouteTable.ApplyLabels | bridged/routes.mjs:294-345 | labels are replaced in place and exactly the routes moved off a name are announced, each once |
| RouteTable.RouteTable.ResolveTable | bridged/routes.mjs:353-357 | first every label, then a new generation for each route that moved |
| RouteTable.RouteTable.Announce | bridged/routes.mjs:353-357 | each announced route gets one new generation, and no other |
| RouteTable.RouteTable.OnLabelChanged | bridged/index.mjs:231-247 | the listener writes a new generation to store and route |
| RouteTable.RouteTable.NextGeneration | bridged/profiles.mjs:188-193 | the generation is one more than the stored one, and stored |
| RouteTable.RouteTable.Attach | bridged/routes.mjs:180-234 | a registration replaces the route of its install id and resolves the table |
| RouteTable.RouteTable.Remove | bridged/routes.mjs:236-252 | the route is gone and the map's order is that of the rest |
| RouteTable.RouteTable.Detach | bridged/routes.mjs:236-252 | a departure resolves the table of the rest |
| RouteTable.RouteTable.SetDesiredLabel | bridged/routes.mjs:254-260 | a new wanted name resolves the table |
| RouteTable.RouteTable.ClaimProfile | bridged/index.mjs:1508-1609 | a claim takes the directory, a new generation, and the derived name unless the operator chose one |
| RouteTable.RouteTable.ValidateHandle | bridged/routes.mjs:379-411 | accepts or refuses as specified |
| RouteEffects.ProposalIs | bridged/routes.mjs:294-335 | spelled out: a route that alone wishes a name is proposed it; one of several is proposed it with its directory, or the hash of its key when it has none; and one whose such tail another of them has, with its own hash |
| RouteEffects.LabelIsProposal | bridged/routes.mjs:336-345 | it is called what it is proposed, unless another is proposed that too; then its own hash is added |
| RouteEffects.RegisterWants | bridged/routes.mjs:180-234 | a registration wants what it brings, and nobody else wants anything new |
| RouteEffects.ClaimWants | bridged/index.mjs:1541-1575 | a claim takes the directory, and the derived name unless the operator chose one |
| RouteEffects.RenameWants | bridged/index.mjs:1611-1659 | a rename is the operator's choice and changes nothing else a route brings |
| RouteEffects.DropWants | bridged/index.mjs:1431-1467 | a dropped claim leaves no directory, no chosen name and the key of an unclaimed route |
| RouteEffects.ActRenews | bridged/index.mjs:231-247 | an act about a route takes exactly one generation, and one more if it changes the route's name; a registration takes one |
| RouteEffects.ActEndsItsHandles | bridged/routes.mjs:379-411 | so every handle minted for the route before is refused after it |
| RouteEffects.BystandersKeep | bridged/routes.mjs:353-357 | every other route keeps its generation, or takes exactly one if it was given another name |
| RouteEffects.BystandersHandles | bridged/routes.mjs:379-411 | so its handles are good exactly as long as its name is |
| BrokerTheorems.PanicLeavesNothing | bridged/index.mjs:2061-2071 | in every reachable state in which the panic switch is active there is no route, no request in flight and no arm, whatever registration was suspended when it tripped |
| BrokerTheorems.EveryRequestCompletesOnce | bridged/index.mjs:1948-1968 | over every run a forwarded request is in flight with its timer, or finished and logged exactly once; its caller is answered at most once, under its own id, and nobody else is |
| BrokerTheorems.FinishTells | bridged/index.mjs:1948-1968 | whatever finishes a request, its caller hears of it exactly when its connection is still there |
| BrokerTheorems.OnlyItsOwnRouteAnswers | bridged/index.mjs:1921-1946 | an answer finishes a request only from the connection of its own route; another connection that tries is closed and changes no request |
| BrokerTheorems.Clamped | bridged/policy.mjs:260-264 | an arm lasts between one minute and the maximum, and within them what was asked rounded to the minute |
| BrokerTheorems.ArmedOpsWereGranted | bridged/policy.mjs:209-307 | every armed operation forwarded at a time follows an ARM of that same install id less than the clamped maximum earlier, with no disarm, dropped identity or panic in between |
| BrokerTheorems.EveryForwardIsNoted | bridged/index.mjs:1877-1897 | every request ever forwarded is on the trail that claim speaks of |
| BrokerTheorems.HeldIsNeverAccepted | bridged/index.mjs:603-662 | no connection is both answered with a panic hold and accepted, and a held one has no route: what the link assumes of the broker |
| BrokerHolds.ClashIff | bridged/index.mjs:603-662 | the exact step: some connection is both held and accepted after an event if and only if one was before, or the event is a REGISTER in panic on an accepted connection, or a registration that resumes on an open one, accepted and in panic, or held with panic off and known to be |
| BrokerHolds.BothAnswersIff | bridged/index.mjs:603-662 | over every run some connection ends both held and accepted if and only if one of its events is such a one |
| BrokerHolds.HeldAnsweredOkIff | bridged/index.mjs:658-662 | the half the link depends on: a held connection is answered ok if and only if a registration resumes on it, still open, with panic off and known to be |
| BrokerHolds.HeldIsAnsweredOk | bridged/index.mjs:1168-1201 | a run that does it: held, its popup asks to resume, and before it is closed it registers again |
| BrokerHolds.SecondRegisterBreaksIt | bridged/index.mjs:725-757 | a run the other way round: accepted, replaced, and held by a second REGISTER in panic before it is closed |
| OneRegister.NoneIsAnsweredBothWays | bridged/index.mjs:603-662 | between extensions, hosts and a broker, each over any run of its own, whose ports and pipes make up no REGISTER and repeat none, no connection is both held and accepted, and a held one has no route |
| OneRegister.OnceEach | host/index.mjs:373-398 | a connection on such a port brings one REGISTER at most |
| BrokerConnections.NobodyHangs | bridged/index.mjs:727-757 | over every run a connection that was accepted has a route, or was sent off with a last message, or is closed |
| BrokerTheorems.StepQuiet | bridged/index.mjs:250-256 | every event keeps the panic invariant |
| BrokerTheorems.StepSane | bridged/index.mjs:742-746 | every event keeps the books of the requests |
| BrokerTheorems.StepGranted | bridged/policy.mjs:273-309 | every event keeps every open window that of the last grant |
| BrokerProcess.Broker.constructor | bridged/index.mjs:258-280 | a broker starts with nothing, the switch as the file says |
| BrokerProcess.Broker.DestroyConn | bridged/index.mjs:377-398 | one connection is closed, the others are as they were |
| BrokerProcess.Broker.FinishOne | bridged/index.mjs:1948-1968 | one request is finished: timer off, one line, its caller answered if there |
| BrokerProcess.Broker.FailPendings | bridged/index.mjs:2042-2059 | the sweep finishes exactly the given requests |
| BrokerProcess.Broker.EnterPanic | bridged/index.mjs:2061-2071 | arms, requests and routes go, and every routed connection but the one that asked is closed |
| BrokerProcess.Broker.DropRoutes | bridged/index.mjs:2061-2071 | every route is gone and its connection closed |
| BrokerProcess.Broker.LeavePanic | bridged/index.mjs:2082-2091 | exactly the held connections are let go |
| BrokerProcess.Broker.Check | bridged/policy.mjs:349-358 | the switch follows the file, and enters or leaves panic when it changes |
| BrokerProcess.Broker.Hold | bridged/index.mjs:603-620 | a registration during panic is answered with a refusal and its connection kept |
| BrokerProcess.Broker.HandleRegister | bridged/index.mjs:622-662 | up to the wait for an identity: refused, held or suspended |
| BrokerProcess.Broker.DropClaim | bridged/index.mjs:1431-1500 | the claim and its arm go, and what was asked of the profile fails |
| BrokerProcess.Broker.SendAndClose | bridged/index.mjs:303-312 | a last message is on its way, and the connection is heard until it is written |
| BrokerProcess.Broker.Attach | bridged/index.mjs:725-757 | the older route goes, its requests fail, its connection is told and closes after |
| BrokerProcess.Broker.FinishRegistration | bridged/index.mjs:662-824 | after the wait: dropped if the connection went, held if panic came, else routed |
| BrokerProcess.Broker.RegistrationResumes | bridged/index.mjs:662-824 | the suspended registration is taken off and finished |
| BrokerProcess.Broker.HandleProfileOp | bridged/index.mjs:1209-1315 | arm, disarm, rename and forwarding of one profile's requests |
| BrokerProcess.Broker.Forward | bridged/index.mjs:1877-1897 | the request is pending under a new id with its timer, and noted |
| BrokerProcess.Broker.HandleReq | bridged/index.mjs:862-952 | panic is looked at before anything is done |
| BrokerProcess.Broker.HandleRes | bridged/index.mjs:1921-1946 | an answer of the right connection finishes its request |
| BrokerProcess.Broker.Orphan | bridged/index.mjs:377-398 | a leaving caller is dropped from its requests, which go on |
| BrokerProcess.Broker.ReleaseConnection | bridged/index.mjs:377-398 | the route, its requests and the caller's side of a closed connection |
| BrokerProcess.Broker.Evict | bridged/index.mjs:2260-2311 | a route that stopped answering goes with its requests |
| BrokerProcess.Broker.Dispatch | bridged/index.mjs:400-445 | whatever comes in next, the fields change as the event machine says |
| BrokerAnswers.ForwardGoesOutIff | bridged/index.mjs:1673-1897 | a request goes out, under the next number, if and only if a client asks, panic is off, the profile is connected, what is checked after the gate lets it by, and an armed operation finds the profile claimed and its window open; it then waits for the connection the profile has now, with a timer and a note |
| BrokerAnswers.ItsProfileAnswers | bridged/index.mjs:1877-1946 | the round trip, over any run before and any run after: while the request is in flight the connection its profile had when it went out fulfils it, once, for whoever asked and is still there and under its own id; any other connection that tries takes nothing and is closed |
| BrokerAnswers.TimeoutFulfils | bridged/index.mjs:1948-1968 | a request nobody answers is over when its timer fires, and its caller is told |
| BrokerEffects.ArmOpensItsWindow | bridged/policy.mjs:280-284 | after an ARM of a claimed profile an armed operation goes out until the clamped minutes are over, and not after |
| BrokerEffects.AnArmLasts | bridged/policy.mjs:272-307 | over every run that neither arms, disarms, re-identifies nor panics, an armed operation for the profile goes out exactly until its window ends, however often the profile leaves and registers again |
| BrokerEffects.OverIsForgotten | bridged/policy.mjs:296-303 | a window a request finds over is forgotten, one that is not stays as it was |
| BrokerEffects.UnclaimedIsNotArmed | bridged/index.mjs:1214-1240 | an ARM of an unclaimed profile opens nothing, not even for when it is claimed |
| BrokerEffects.DisarmCloses | bridged/policy.mjs:286-288 | a DISARM closes that window and no other |
| BrokerEffects.EvictedRouteGoes | bridged/index.mjs:2260-2280 | a route that stopped answering goes with its connection; exactly its own requests are over, and their callers told |
| BrokerEffects.ClosedRouteGoes | bridged/index.mjs:377-398 | a connection that closes takes its route, exactly what was asked of it, and its own claim to what it asked |
| BrokerEffects.DriftedProfileIsDropped | bridged/index.mjs:1431-1506 | a profile whose identity changed is unclaimed and disarmed, exactly what was asked of it is over, and its route stays |
| BrokerEffects.RegistrationRoutes | bridged/index.mjs:725-757 | a registration that resumes in peace routes its profile to its own connection and is answered ok; an older route elsewhere is over with what was asked of it and its connection closes once told; one on this very connection is renewed and what was asked of it goes on |
| BrokerEffects.ChangedRegistrationIsUnclaimed | bridged/index.mjs:658-757 | one whose identity changed comes out unclaimed and disarmed |
| BrokerEffects.SuspendedRegistrationIsHeld | bridged/index.mjs:652-662 | one that panic overtook is held, one whose connection went is dropped |
| BrokerEffects.RegisterInPanicIsHeld | bridged/index.mjs:603-646 | a registration during panic is held |
| BrokerEffects.RegisterWaitsInPeace | bridged/index.mjs:622-656 | in peace it waits for the identity behind it |
| BrokerEffects.ClaimNames | bridged/index.mjs:1508-1575 | a claim names a profile if its directory is known, and closes no window and no request |
| BrokerEffects.TripPutsOut | bridged/index.mjs:2061-2080 | a trip closes every routed connection but the one that asked, which closes after its answer, and touches no other |
| BrokerEffects.ResumeIff | bridged/index.mjs:1168-1201 | panic goes off by a request if and only if a browser that is held asks and the file could be removed; then exactly the held connections close, the one that asked after its answer |
| BrokerEffects.ForbiddenIsClosed | bridged/index.mjs:862-888 | a client that would resume and a browser that would drive another are closed, and nothing else changes |
| BrokerEffects.DestroyedIsClosed | bridged/policy.mjs:328-411 | a destroyed connection is closed and no other; the panic file is not acted on before it is looked at; the board is only read |
| BrokerEffects.WatchFollowsTheFile | bridged/policy.mjs:328-411 | a look at the panic file makes what it says so, and closes exactly the routed or the held connections |
| HostRelayTheorems.OnlyHelloBeforeProof | host/index.mjs:284-331 | over every run nothing but HELLO is written to a socket, and nothing of it reaches the browser, before its proof was accepted |
| HostRelayTheorems.NoGhostRegistration | host/index.mjs:427-454 | once the browser is told that its registration is void, no REGISTER it sent before is ever written to a broker |
| HostRelayTheorems.BoundedAndRetrying | host/index.mjs:388-405 | the buffer never exceeds 32 frames nor the remembered requests 256; a relay that is down has exactly one redial armed unless it was replaced or closes, and in no other state is one |
| HostRelayTheorems.ReplacedNeverRedials | host/index.mjs:236-282 | after a REPLACED notice no run ever dials again |
| HostRelayOrder.FramesGoInOrder | host/index.mjs:373-398 | over every run, however often the pipe goes down, the browser's frames are written in the order they were sent, each once at most to whatever pipe, and no more REGISTERs than it sent |
| HostRelayOrder.StepOrdered | host/index.mjs:152-398 | every event keeps what was written, followed by what is queued, in that order |
| HostRelayTheorems.StepKeeps | host/index.mjs:152-398 | every event keeps the relay's invariant |
| HostProcess.Host.constructor | host/index.mjs:152-160 | a relay starts by dialling |
| HostProcess.Host.ClearRetry | host/index.mjs:152-165 | no redial is armed any more |
| HostProcess.Host.Connect | host/index.mjs:152-234 | a dial, or the next attempt armed when there are no credentials |
| HostProcess.Host.FailPendingRequests | host/index.mjs:407-425 | every request the browser waits for is failed, in order, and forgotten |
| HostProcess.Host.CutRegisters | host/index.mjs:427-450 | the loop from the back cuts exactly the queued REGISTERs and keeps the order of the rest |
| HostProcess.Host.RefuseRegistration | host/index.mjs:427-454 | the browser is told once that its registration is void, and none is queued any more |
| HostProcess.Host.OnSocketClosed | host/index.mjs:236-282 | a lost socket fails what was asked, voids the registration and arms one redial, or none when replaced |
| HostProcess.Host.ForwardToBroker | host/index.mjs:373-386 | a frame is written, a request remembered, a registration noted |
| HostProcess.Host.FlushOutbound | host/index.mjs:396-398 | everything queued is written in order |
| HostProcess.Host.BufferOutbound | host/index.mjs:388-394 | the newest frames within the bound are kept |
| HostProcess.Host.HandleFromBroker | host/index.mjs:284-331 | before the proof only the proof counts; afterwards frames are relayed |
| HostProcess.Host.HandleFromBrowser | host/index.mjs:333-371 | what is answered at once, queued or written, by the state of the link |
| HostProcess.Host.Shutdown | host/index.mjs:554-584 | what is queued goes only to a broker that has proven itself |
| HostProcess.Host.DrainTo | host/index.mjs:554-584 | the loop writes exactly what was queued |
| HostProcess.Host.Dispatch | host/index.mjs:152-398 | whatever happens next, the fields change as the event machine says |
| HostRelayDelivery.ReadyFrameIsWritten | host/index.mjs:333-386 | a frame of the browser on a proven link is written, last, to that pipe, as it is |
| HostRelayDelivery.ProofSendsTheQueue | host/index.mjs:284-304 | when the proof is accepted the link is ready, and what is written grows by exactly the whole queue, in order |
| HostRelayFates.EveryFrameIsAccountedFor | host/index.mjs:333-454 | over every run each frame the browser sends is written to a broker, still queued, refused at once for want of a link, pushed out as the oldest of more than 32, a REGISTER cut out when it is voided, or lost when the browser closes the port, on a pipe that has not proven itself or after |
| HostRelayDelivery.UnprovenIsCut | host/index.mjs:304-321 | whatever a pipe sends before it has proven itself, nothing is told to it or to the browser |
| HostRelayDelivery.BrokerFrameIsRelayed | host/index.mjs:321-331 | a frame of the broker on a proven link goes to the browser as it is, except the notice that is the relay's own |
| HostRelayDelivery.LostRequestsAreFailed | host/index.mjs:400-412 | over every run: when the pipe goes exactly the requests that were written and had no answer are failed; every one of them while the relay never had 256 to remember or send |
| HostRelayFates.LostRegistrationIsVoided | host/index.mjs:427-454 | over every run: a browser that registered hears that it is void when the pipe goes, as the last thing it hears of that pipe |
| HostRelayFates.RefusedAtOnce | host/index.mjs:350-370 | what comes when there is no link is answered at once, by its kind |
| HostRelayDelivery.RetryDials | host/index.mjs:152-200 | a retry that fires dials a new pipe, or leaves the next retry when there are no credentials |
| HostRelayDelivery.HelloIsSaid | host/index.mjs:186-206 | a pipe that connects is told HELLO and nothing else |
| ChunksTheorems.EveryMessageComesOut | extension/lib/link.js:746-781 | for any bodies under distinct ids and any permutation and interleaving of all their parts, each body is delivered exactly once and equal to the original, none is mixed, and no buffer is left |
| ChunksTheorems.EveryPortStartsClean | extension/lib/link.js:851-866 | whatever half messages lost links left, even under the same ids, each message whose parts all come on one port comes out once and whole |
| ChunksTheorems.JoinTail | extension/lib/link.js:767-781 | parts joined in the order of their numbers are the bytes from that slice on |
| Chunks.SplitIntoChunks | shared/protocol.mjs:77-86 | the loop cuts the body into numbered slices; an empty body is one empty part |
| ChunksTheorems.Receiving | extension/lib/link.js:746-866 | the receiver over the frames of one port after another, cleared when each is lost, delivers what that theorem speaks of |
| Chunks.Receiver.Clear | extension/lib/link.js:851-866 | a lost link drops its half messages |
| Chunks.Receiver.AbsorbChunk | extension/lib/link.js:746-781 | the buffers and the message a part completes, malformed parts and changed totals included |
| ChunksTheorems.NoiseChangesNothing | extension/lib/link.js:746-781 | frames that do not say which part of how many they are change nothing, wherever among the others they come |
| ChunksTheorems.PartIsKept | extension/lib/link.js:746-781 | until its message is complete a part is kept, in place of an earlier one of its number, and the last total told counts |
| ChunksTheorems.RepeatedPartChangesNothing | extension/lib/link.js:746-781 | a part that came before, of a message not complete, changes nothing |
| ChunksTheorems.OtherMessagesStand | extension/lib/link.js:746-781 | no part touches another message |
| ChunksTheorems.PartsFitAFrame | shared/protocol.mjs:77-86 | no part is more than 384 KiB, and no body comes in none |
| TokenSinkTheorems.RelaysLinearize | bridged/token-relay.mjs:213-279 | any interleaving of relays to any files leaves each file as serving its own calls one at a time in call order would, each with the outcome it would have alone; a still-good token issued as late or later is never replaced |
| TokenSinkTheorems.NoCopyRemains | bridged/token-relay.mjs:304-326 | a temporary copy exists only while its call sleeps, one at most, so none remains on any outcome |
| TokenSinkTheorems.NewestTokenWins | bridged/token-relay.mjs:242-279 | while all tokens stay good and writes succeed, the file ends with the greatest issue time whatever the arrival order |
| TokenSinkTheorems.StepKeeps | bridged/token-relay.mjs:213-326 | every event keeps calls in their turn and the file what the calls before left |
| TokenRelay.Relay.OneAtATime | bridged/token-relay.mjs:213-234 | a call is chained to the last one asked of its file |
| TokenRelay.Relay.Forget | bridged/token-relay.mjs:213-234 | the queue forgets a file only with its last call |
| TokenRelay.Relay.JudgeAndWrite | bridged/token-relay.mjs:242-279 | refused, kept, failed or written, up to the first sleep |
| TokenRelay.Relay.WriteReplacing | bridged/token-relay.mjs:304-326 | the copy, a rename attempt, and the copy removed unless the call sleeps |
| TokenRelay.Relay.TryRename | bridged/token-relay.mjs:304-326 | renamed, asleep for another attempt, or failed with the copy removed |
| TokenRelay.Relay.Wake | bridged/token-relay.mjs:304-326 | the next attempt of a sleeping call |
| TokenSinkTheorems.BetterIsWritten | bridged/token-relay.mjs:242-326 | a better token is written if the folder is there and the copy can be written and renamed; a busy file puts the call to sleep, and nothing but the disk makes it fail |
| TokenSinkTheorems.SleeperTriesAgain | bridged/token-relay.mjs:304-326 | a call found busy is woken five times at most |
| TokenSinkTheorems.SomeCallCanGo | bridged/token-relay.mjs:213-234 | over every run some call before any that is not over can go on: none waits for one that will not come |
| TokenSinkTheorems.LastCallForgets | bridged/token-relay.mjs:213-234 | once the last call made for a file is over the next one waits for nobody |
| IdentityDrift.DriftIff | bridged/profiles.mjs:548-619 | the definition of drift read back as one condition, for the results below: a change is reported if and only if two readable pieces of evidence of one class disagree: the account ids when both can be read, else the addresses or the recorded evidence |
| IdentityDrift.SameAccountNeverDrifts | bridged/profiles.mjs:548-580 | never while the recorded and the current account id agree, whatever else differs |
| IdentityDrift.FreshnessOnlySwaps | bridged/profiles.mjs:548-619 | the verdict does not depend on which reading is fresh; that only swaps the old and the new account |
| IdentityDrift.UnreadableNeverDrifts | bridged/profiles.mjs:548-619 | evidence that is missing or of another class is no change, and is said to be unchecked |
| IdentityDrift.RegisterAfterClaimIff | bridged/profiles.mjs:1037-1065 | on a claimed row that did not change, a registration drops the claim if and only if the row has no account id and the reported address is readable and another |
| IdentityDrift.ClaimIsStable | bridged/index.mjs:2155-2193 | after a human claim any number of re-checks against an unchanged row keep the claim, its evidence and its directory |
| IdentityDrift.RecheckKeeps | bridged/index.mjs:2155-2193 | one re-check against the claimed row changes nothing but the time of the check |
| ProfileStore.MatchIsUnique | bridged/profiles.mjs:406-428 | an address that two candidates carry never claims |
| ProfileStore.ResolveClaimsIff | bridged/profiles.mjs:710-1017 | the definition read back as one condition: a line is claimed if and only if its own claim is honoured, or one candidate alone carries the reported address and does not contradict the evidence left |
| ProfileStore.EvidenceFollowsTheClaim | bridged/profiles.mjs:710-1017 | the definition read back for what it leaves in the store: a claim not honoured is forgotten with its evidence, an honoured one keeps the evidence it was made on |
| ProfileStore.Store.NextGeneration | bridged/profiles.mjs:188-193 | bumped and remembered, the rest of the record kept |
| ProfileStore.Store.ForgetClaim | bridged/profiles.mjs:654-671 | the join and its evidence are gone, generation kept |
| ProfileStore.Store.ResolveIdentity | bridged/profiles.mjs:710-1017 | the answer and the store as specified, other records untouched |
| IdentityDrift.FingerprintIsTheStrongest | bridged/profiles.mjs:463-482 | a fingerprint is of the strongest evidence that can be read: the account id, else an address, else the name |
| IdentityDrift.FingerprintsTellApart | bridged/profiles.mjs:463-474 | two rows have one fingerprint exactly when their strongest evidence is the same but for case and spaces |
| IdentityDrift.SpellingDecidesNothing | bridged/profiles.mjs:434-474 | how an id, an address or a name is spelled, in case and spaces, decides no verdict |
| IdentityDrift.ChangeIsTold | bridged/profiles.mjs:548-619 | a change is told from the old to the new: by address in the order of the fresher reading, by evidence from what was recorded to what is there |
| IdentityDrift.RecheckDropsIff | bridged/index.mjs:2155-2193 | a re-check that is due drops a claim exactly when its directory is there and its row and the record disagree; one that is not due does nothing |
| IdentityDrift.AnotherAccountIsNoticed | bridged/index.mjs:2155-2193 | from a claim to a re-check a minute later: the claim is dropped exactly when the directory then has another account id |
| ProfileStore.MatchIff | bridged/profiles.mjs:406-428 | an address names a candidate if it is one and that candidate alone carries it, but for case and spaces, and names nobody who does not |
| ProfileStore.ResolvedDirectory | bridged/profiles.mjs:710-1017 | the directory of a claimed line is that of its own record, or of the one candidate its address names, whose evidence is recorded; an unclaimed line has none, and no generation changes |
| ProfileStore.TrustIsMarked | bridged/profiles.mjs:710-1017 | a claim kept because nothing could be read or compared says so, and one without evidence takes up what it finds |
| KeyGuardTheorems.FillIsGuarded | extension/lib/ops.js:1265-1318 | on every page and at every pace: before every key, with no key in between, a deadline test passed and then a focus check; after a check on a granted secret field of a host every later check and key is on that host; the count is one ahead exactly when a keyDown was refused, and whatever count an error tells is that of the keys that went out |
| KeyGuardTheorems.PressIsGuarded | extension/lib/ops.js:1346-1422 | the same of pressKeys with a named field; without one the first key goes after a check alone; the count is one behind exactly when a keyUp was refused after its keyDown, and whatever count an error tells is that of the keys that went out |
| KeyGuardTiming.FillCountsIff | extension/lib/ops.js:1300-1315 | on every page fill ends with the count of the keys that went out, if and only if there is nothing to type |
| KeyGuardTiming.PressCountsIff | extension/lib/ops.js:1395-1418 | on every page pressKeys ends with the count of the keys that went out, if and only if there is no key |
| KeyGuardTiming.CountIsExactIff | extension/lib/ops.js:1302-1313 | one character of fill leaves the count exact if and only if the guard stopped it or its keyDown went out |
| KeyGuardTiming.PressIsExactIff | extension/lib/ops.js:1397-1417 | one key of pressKeys leaves the count exact if and only if the guard stopped it, its keyDown was refused, or its keyUp worked too |
| KeyGuardTiming.CheckedBeforeEachKey | extension/lib/ops.js:1233-1263 | whatever the time, the mark right before every key is a passed check |
| KeyGuardTiming.FillInTimeIff | extension/lib/ops.js:1233-1315 | on every page each key of fill follows a check that came back before the deadline margin, if and only if there is no deadline or nothing to type |
| KeyGuardTiming.PressInTimeIff | extension/lib/ops.js:1233-1263 | the same of pressKeys, with or without a named field |
| KeyGuardTiming.FillKeysSoon | extension/lib/ops.js:1233-1315 | how late it can be: if each question is answered within a pace of the one before, the check before a key comes back before the margin and sixteen paces, and the key goes out two paces later at most |
| KeyGuardTiming.PressKeysSoon | extension/lib/ops.js:1346-1422 | the same bounds for pressKeys, but for its first key when no field was named |
| KeyGuardTiming.EveryKeyTimedIff | extension/lib/ops.js:1346-1422 | every key of pressKeys is preceded by a deadline test, on every page, if and only if a field is named or there is no key |
| KeyGuardTiming.FirstKeyIgnoresTheDeadline | extension/lib/ops.js:1346-1422 | without a named field the first key is sent however late it is |
| KeyGuardTiming.CheckCanOutlastTheDeadline | extension/lib/ops.js:1233-1263 | one way a check comes after the deadline, wherever the sequence stands |
| KeyGuardTheorems.FieldGuarded | extension/lib/ops.js:1117-1143 | a passed check is on the bound site and binds a granted secret field; any other outcome leaves no mark |
| KeyGuardTheorems.FocusGuarded | extension/lib/ops.js:1233-1263 | after the retry loop of the focus check the next key is timed and checked, or the sequence stopped and told its own count |
| KeyTypist.Typist.GuardSecretField | extension/lib/ops.js:1117-1143 | one probe, its verdict and the site it binds |
| KeyTypist.Typist.CheckFocus | extension/lib/ops.js:1247-1262 | the retry loop of the focus check, and the count a refusal carries |
| KeyTypist.Typist.SettleAfterEnter | extension/lib/ops.js:1200-1212 | the loop that waits for the tab to stop loading |
| KeyTypist.Typist.GuardFocus | extension/lib/ops.js:1233-1263 | deadline test, settling after Enter, focus check |
| KeyTypist.Typist.Command | extension/lib/ops.js:1297-1300 | focusing the field, attaching the debugger: it works, or the sequence stops without a count |
| KeyTypist.Typist.Dispatch | extension/lib/ops.js:1305-1313 | keyDown, then keyUp; the key is out once the first worked |
| KeyTypist.Typist.TypeOne | extension/lib/ops.js:1302-1313 | a character counted, then sent |
| KeyTypist.Typist.Fill | extension/lib/ops.js:1265-1318 | the key loop of fill, behind its checks |
| KeyTypist.Typist.PressOne | extension/lib/ops.js:1397-1417 | a key sent, then counted |
| KeyTypist.Typist.PressKeys | extension/lib/ops.js:1346-1422 | the key loop of pressKeys, behind its checks |
| KeyGuardChecks.FillIsGenuine | extension/lib/ops.js:1265-1318 | on every page each mark of fill is a question really asked and answered so, each after the one before: every check that clears a key was of a field the verdict allowed, and every key one whose keyDown worked |
| KeyGuardChecks.PressIsGenuine | extension/lib/ops.js:1346-1422 | the same of pressKeys |
| KeyGuardChecks.RefusedFieldsGetNoKey | extension/lib/ops.js:1117-1143 | where every field is refused nothing is typed by fill or pressKeys, and neither reports success |
| KeyGuardChecks.PassIff | extension/lib/ops.js:1117-1143 | a check passes if and only if the page answered, the verdict allowed the field, and it is on the bound site if there is one |
| KeyGuardChecks.GuardClearsIff | extension/lib/ops.js:1233-1263 | the next key may go if and only if there is time, the tab has loaded after an Enter, and one of eight checks passes before any is refused |
| KeyGuardChecks.FocusSays | extension/lib/ops.js:1247-1262 | what each way of stopping tells: the count when the tries run out, the count of a refusal once a key was sent, and none with another exception |
| KeyGuardChecks.LateIsTold | extension/lib/ops.js:1236-1242 | without time left the sequence stops with its count |
| KeyGuardChecks.FillTypesTheText | extension/lib/ops.js:1300-1315 | on every page the keys fill sends are the characters of the text, in order from the first, and all of them unless it was stopped |
| KeyGuardChecks.PressSendsTheKeys | extension/lib/ops.js:1395-1418 | and those of pressKeys are the keys named |
| KeyGuardChecks.WillingPageGetsAll | extension/lib/ops.js:1265-1422 | nothing stops a sequence that nothing speaks against: such a page gets every key, and the count of them |
| KeyGuardChecks.CommandsAreNeeded | extension/lib/ops.js:1297-1300 | when the field cannot be focused, or, with no field named, the debugger not attached, nothing is typed and no count is told |
| KeyGuardChecks.AttachIsNeeded | extension/lib/ops.js:1300-1300 | nor when the debugger cannot be attached |
| KeyGuardChecks.EnterIsWaitedFor | extension/lib/ops.js:1200-1246 | on every page, after an Enter no key goes out before the tab was seen not loading |
| GatherConserves.GatherConserves | extension/lib/tab-groups.js:571-634 | all groups of the title become one in the host, its leftmost or a new one; the members are those it had, then the outside groups', then those of the host's other groups, each in its own order; exactly the tabs of the title, none lost; every other tab keeps its window and its order |
| GatherConserves.EveryTabIsCounted | extension/lib/tab-groups.js:582-608 | the number of moved tabs reported is that of the title's tabs outside the host |
| GatherConserves.FoldJoins | extension/lib/tab-groups.js:615-634 | folding the host's other groups appends their members, group by group, and moves no other tab |
| GatherTheorems.NextCameIn | extension/lib/tab-groups.js:506-553 | one outside group comes in: it is the end of the kept group, its window keeps the rest in order, and the groups still outside are untouched |
| GatherTheorems.AllCameIn | extension/lib/tab-groups.js:582-608 | so do all of them, in the order the browser lists them, whichever windows close meanwhile |
| TabGroupsTheorems.GroupTabsRegroups | extension/lib/tab-groups.js:286-349 | groupTabs puts the given tabs, in the order given, after the members it was not given, and moves nothing else |
| TabGroupsTheorems.MovesKeepTheRest | shared/protocol.mjs:1153-1165 | moving the planned tabs one by one to the end of the group gives exactly the planned order |
| GatherConserves.EmptiedWindowsClose | extension/lib/tab-groups.js:506-553 | a window that lost its last tab to the gather is closed, and none opens |
| Gatherer.Profile.GroupTabs | extension/lib/tab-groups.js:307-330 | the group call, then the loop over the planned moves |
| Gatherer.Profile.MoveTabs | extension/lib/tab-groups.js:506-530 | the loop that moves one tab at a time to the end of the host |
| Gatherer.Profile.MoveGroupTabsIn | extension/lib/tab-groups.js:506-553 | the tabs of one outside group in the host's group of the title, and how many |
| Gatherer.Profile.FoldOthers | extension/lib/tab-groups.js:615-634 | the loop over the host's other groups |
| Gatherer.Profile.GatherGroup | extension/lib/tab-groups.js:571-634 | the whole gather, and how many tabs it took from other windows |

## Left out

- LinkTheorems.NoLostReconnect: holds of the runs that never spend the last driver of an abandoned connect, because the code loses the reconnect in the others.
- RouteEpochs.LabelsForgetTheHistory: holds of the histories in which a claim that moves labels is followed by an act that resolves the table, because the code does not resolve it at the claim.
- RouteEpochs.QuietClaimIff: the only-if half is of suffixed names that do not end in their own route's hash, as the fallback name of that route does.
- BrokerTheorems.HeldIsNeverAccepted: of runs in which no connection sends REGISTER twice, because it fails in others; BrokerHolds.BothAnswersIff is the exact condition.
- OneRegister.NoneIsAnsweredBothWays: a port and a pipe are held to invent and repeat no REGISTER; when a message is on its way in them is left out.
- HostRelayDelivery.LostRequestsAreFailed: that every request is failed is of runs in which the relay never has 256 requests to remember or send at once, because beyond that it forgets the oldest.
- LinkWorker.Worker.RejectPending: the chunk buffers it clears too are those of Chunks.Receiver.Clear, a separate object.
- ProfileStore.Store.ResolveIdentity: of a browser whose vendor is known; the fields only shown to people are left out.
- Gatherer.Profile.MoveGroupTabsIn: no move is refused and no tab is skipped, so there is no error to return.
- Gatherer.Profile.GatherGroup: in a browser nobody disturbs and that refuses no edit, so nothing fails and no tab is skipped; which windows emptied or now show another tab is left out.
- KeyTypist.Typist.Dispatch: a command that finds the debugger detached attaches it and is sent once more; its answer is that of the last try.
- TabAgesRestart.RestartIsLossless: a restart that also opened, closed or moved tabs is covered by the injection only; a changed window can take the partner of an unchanged one of equal score.
- The link's attempt counter, backoff delays, error texts and display state: only whether a timer is armed matters to the properties.
- Answers of session storage out of call order, and failed writes.
- Request handling inside the extension and the relay specs that come with an ack: they do not touch the link.
- Ack and backpressure timers of the host, framing and pausing of streams: a socket that times out is a socket that closes.
- The order in which the broker writes to different sockets, and sockets that are slow: queues that can close.
- Board, audit redaction, addresses, collision notes, reload guard, candidate refresh: they change nothing the properties speak of.
- Vendor and process detection, reading of Local State, the identity probe itself: their outcomes are inputs.
- A handle's generation or tab above 2^53, which JavaScript would round: tab ids and generations stay far below.
- Who may ask for which operation and at which tier: finite tables; the model keeps the split by role, and whether an operation is armed tier.
- Which fields of an upload or url are checked before forwarding: one input says whether they let the request by.
- Tabs pinned, dragged or closed by a person during a gather, refused edits and their retries, active and collapsed state, colors: the gather is modelled in a browser nobody disturbs.
- Sorting of windows by age, opening or focusing a tab, snapshots, screenshots and injected scripts.
- Reading the ledger from storage, and the waiting for settled tabs: the rows and tabs a re-key gets are inputs; a read of the ledger that fails, which the code takes for an empty ledger, is left out.
- Reading the file of a token sink fails like an absent file; clocks and folders are inputs.
