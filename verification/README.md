# Okta to Security Lake connector: a verified model

The connector reads Okta's System Log page by page, maps each record to OCSF, drops what it has already
delivered, buffers the rest, flushes the buffer as objects addressed by the cursor the batch began at,
and only then commits the cursor and the delivered uids in one transaction. A crash anywhere replays
from the committed cursor into the same object keys. This project models that protocol and the code
around it, and proves what the protocol promises.

`dafny verify dfyconfig.toml` checks everything. The modules, from the centre outwards:

- `Domain`, `StateSpec`: values, and the abstract state store (a row per stream, one shared seen-set
  with a time to live).
- `Protocol`: the delivery protocol as a step machine. Any number of streams share one store and one
  lake, in any interleaving. Logs grow, the clock moves, a page is cut anywhere, objects are PUT one at
  a time, and a process can die at every step. `Inv` is its invariant.
- `DeliverySafety`: every step keeps the invariant; no loss, no stream disturbs another, caught-up is true.
- `EventLoss`: the exact condition for losing no event, as against no uid.
- `ExactlyOnce`, `Duplicates`, `CrashWindow`, `Multiplicity`, `Overlap`: how many rows an event gets, the
  exact condition for one, and what the shared seen-set does where two logs overlap.
- `Backfill`: a bounded range ends, and finishes once.
- `Reopening`, `ReopeningLoss`: opening a finished range again, which the runner does not refuse, and the
  exact condition under which that loses nothing.
- `Witnesses`: concrete runs that break a conclusion once one of its hypotheses is dropped: blank uids, a
  finished range reopened, a moved opening, a shorter replay, a uid on two pages of one batch, a uid in two
  logs, a uid that comes back after the window.
- `StateStores`, `StoreTraces`: the in-memory and the SQLite store, proved to agree with the abstract
  store and so with each other over every trace of operations.
- `LakeSink`, `Neighbours`, `RunTrace`, `RunLoop`, `RunGuarantees`: the sink, the object store and the runner's
  loop as they are written, proved to be a run of the machine, so that the machine's theorems hold of the loop,
  and its counters what the run's steps add up to. Other streams take any number of steps on the shared store
  and lake between its calls.
- `Reconcile`, `DeliveryReconciles`: the reconciliation judgement, and what it says of a run.
- `Leftovers`, `OcsfSchema`, `OktaRecords`, `OktaBody`, `OktaMeaning`, `OktaMapping`: the mapper and its `unmapped`
  tree. `OktaRecords` says what an event is to tell of a record, `OktaMeaning` that the body built tells it.
- `Text`, `LinkHeader`, `FetchBudget`: the `Link` header scanner (section 3 of RFC 8288) and the
  retry and rate budget loop.
- `Roles`, `Naming`, `Settings`: role list, custom source names, object paths, and the settings check.

## What the proofs found

The code's own prose is stronger than the code in four places. The code is modelled as it is, and each gap
has its exact condition.

- The comment at `src/ocsf_connector/runner/loop.py:109-113`, like the design document, holds that a
  shorter replay heals itself. With several objects under one key it does not:
  `Duplicates.ExactlyOnceIffCovering` shows that, once everything is committed, no uid is on two rows if
  and only if every commit rewrote every non-empty object its crashed attempts had left under the key. A
  caller can read that condition off the lake's keys and the batch before the commit. It always holds for
  one object per key, for a replay that reads at least as far as the attempts that died
  (`ExactlyOnce.LongerReplayCovers`), and for runs that never die between a first PUT and its commit
  (`CrashWindow.ExactlyOnceOutsideTheWindow`). `Witnesses.ShorterReplayDuplicates` is a run where it fails.
- The filter consults only committed uids, so a uid on several pages of one open batch is written once per
  page: `Witnesses.OpenBatchDuplicates` is such a run, without any crash, and `Multiplicity.RowsPerPage`
  gives the exact number of rows of every run.
- A committed `None` cursor reads as "start again". `ReopeningLoss.ReopeningKeepsIffSafe` shows that a
  finished range can be opened again without losing a delivered row if and only if each of its objects has
  one row at most, that row's uid has expired, and the sink writes nothing for an empty batch. Hardly any
  range is like that, so the guard to check is whether the range is finished; the machine refuses to open
  one, as the runner should. Where the condition holds, the rerun is, action for action, a first run
  (`Reopening.ReopenedIsFirstRun`), so that all that is proved of the machine holds of it.
- Missing uuids all become `""`, and uids are all the protocol looks at.
  `EventLoss.NoEventLostIffUidsDistinguish` shows that no run loses an event if and only if no two
  different records at or past the openings, of one stream or of two, share a uid.

The opening cursor of a stream is taken to be the same at every start, until it first commits: the runner
cannot check that, the two modes have to see to it (`src/ocsf_connector/runner/modes.py:11-14`).
`Witnesses.MovedOpening` is a run in which it moves: one event is lost and another is on two rows.

## Model

| member | source | states |
|---|---|---|
| DeliverySafety.NoLoss | src/ocsf_connector/runner/loop.py:46-256 | in every state any run with crashes can reach, each event from a stream's opening to its committed position is a row of a final object; the event itself when uids identify events |
| DeliverySafety.RunKeepsInv | src/ocsf_connector/runner/loop.py:105-207 | over whole runs the invariant holds and no object that was final is ever rewritten |
| DeliverySafety.StepKeepsInv | src/ocsf_connector/runner/loop.py:135-256 | each single step of any process, or a crash, keeps the invariant |
| DeliverySafety.StepExtends | src/ocsf_connector/sinks/objects.py:43-46 | a step only ever adds: logs and positions grow, no object whose key is committed past changes |
| DeliverySafety.StepIsolated | src/ocsf_connector/runner/modes.py:23-26 | a step of one stream changes no other stream's process, cursor, position or objects |
| DeliverySafety.SeenImpliesDelivered | src/ocsf_connector/runner/loop.py:159-166 | whatever the shared seen-set absorbs is on a row of a final object, so skipping it loses nothing |
| DeliverySafety.OpenKeyInvariant | src/ocsf_connector/runner/loop.py:109-114 | a live process writes at its stored cursor only, `pending` is exactly the uids held, and no key lies past the committed position |
| DeliverySafety.CommitAdvances | src/ocsf_connector/sinks/security_lake.py:137-138 | a commit of a page with a next cursor strictly advances, for the sink that PUTs nothing for an empty buffer |
| DeliverySafety.CaughtUpIsSound | src/ocsf_connector/runner/loop.py:243-252 | when a stream is stamped caught up, every event the log held when the empty page was served is on a final row, though the committed cursor may lag |
| DeliverySafety.FilterCovers | src/ocsf_connector/runner/loop.py:159-166 | the filter and the page-local collapse drop only events already on a final row, and keep only events of the page |
| DeliverySafety.CommitDelivers | src/ocsf_connector/runner/loop.py:188-197 | after acknowledge-then-commit every held event is on a row of a final object |
| DeliverySafety.CommitKeepsDelivery | src/ocsf_connector/state/sqlite.py:109-151 | a commit marks as seen, and moves the cursor past, only what is delivered |
| EventLoss.NoEventLostIffUidsDistinguish | src/ocsf_connector/runner/loop.py:159-181 | over any number of streams, every run over their logs keeps each event it commits past on a row if and only if no two different events at or past the openings share a uid |
| EventLoss.LosesEvent | src/ocsf_connector/runner/loop.py:159-165 | from any initial state with two different events of one uid, in one log or in two, some run commits past both and stores at most one |
| EventLoss.KeptIfDistinguished | src/ocsf_connector/runner/loop.py:46-256 | where uids tell events apart, every run of any streams keeps the events themselves |
| ExactlyOnce.ExactlyOnceWhenCovering | src/ocsf_connector/sinks/base.py:37-40 | over distinct uids and covering commits every reachable lake has each uid on at most one row, and each committed event on one |
| ExactlyOnce.ExactlyOnceForOneObject | src/ocsf_connector/sinks/base.py:37-38 | with one object per batch key that holds of every run, however a replay is cut |
| ExactlyOnce.OneObjectCovers | src/ocsf_connector/sinks/base.py:37-38 | one object per key covers by itself |
| ExactlyOnce.LongerReplayCovers | src/ocsf_connector/runner/loop.py:109-113 | a replay that reads at least as far as the attempts that crashed covers them |
| ExactlyOnce.FinishedRangeIsExact | src/ocsf_connector/runner/loop.py:184-238 | a finished range's objects hold exactly the uids from its opening to its end, each on one row |
| ExactlyOnce.RunStaysTidy | src/ocsf_connector/runner/loop.py:109-207 | final objects hold only committed events, and only a stream's open key holds anything else |
| Duplicates.ExactlyOnceIffCovering | src/ocsf_connector/sinks/security_lake.py:140-150 | at rest, no uid is on two rows if and only if every commit covered its crashed attempts |
| Duplicates.UncoveredCommitDuplicates | src/ocsf_connector/runner/loop.py:109-113 | one uncovered commit in a run that goes on to commit everything puts some uid on two rows |
| CrashWindow.ExactlyOnceOutsideTheWindow | src/ocsf_connector/runner/loop.py:184-207 | over distinct uids, a run whose processes never die between the first PUT of a flush and its commit has each uid on at most one row, however its replays are cut |
| CrashWindow.OutsideTheWindowCovers | src/ocsf_connector/runner/loop.py:194-199 | such a run covers at every commit |
| Multiplicity.RowsPerPage | src/ocsf_connector/runner/loop.py:159-181 | while a stream does not die, for shorter than the window and from any reachable state in which the event is new, whatever other streams do: an event its log repeats has one row per page carrying it in the first batch that has it, at that batch's key, and none elsewhere |
| Multiplicity.HistoryTilesTheLog | src/ocsf_connector/runner/loop.py:109-114 | the batches counted tile the log from where the stream stood, each under the key that points at its first event |
| Multiplicity.OneRowWhenEveryPageFlushes | src/ocsf_connector/runner/loop.py:159-207 | when each page is flushed at once, a repeated uid has one row, in the object of its first page |
| Overlap.OnceAcrossStreams | src/ocsf_connector/runner/modes.py:23-26 | over logs that overlap but repeat nothing within themselves, while no two live processes are past the filter with one uid and nothing expires: covering commits put no uid on two rows of final objects, and each committed event on one |
| Backfill.FetchesBounded | src/ocsf_connector/runner/loop.py:182-238 | while a stream does not crash, a run over a finite chain of pages fetches no more of them than the chain has left, pages that are empty and still link on included |
| Backfill.PositionsBoundFetches | src/ocsf_connector/runner/loop.py:182-238 | where every page but perhaps the last carries something, that is at most one page per position left, and the last |
| Backfill.FinishesOnce | src/ocsf_connector/runner/loop.py:182-207 | in the machine, which does not open a finished range again (the runner does not refuse): after a range finishes it never commits again, and its position and its `None` cursor stay |
| Reopening.ReopenedIsFirstRun | src/ocsf_connector/runner/loop.py:105-114 | where nothing of it is live and no object has two rows, a finished range opened again, with any crashes, runs action for action like a first run from an empty store, and leaves every object that run does not write |
| Reopening.SafeKeepsDelivered | src/ocsf_connector/runner/loop.py:105-207 | and keeps every delivered uid on a row |
| Reopening.RerunCursorIsSafe | src/ocsf_connector/runner/loop.py:105-207 | and leaves each event before the cursor it stored on a row |
| Reopening.RerunWithoutLoss | src/ocsf_connector/runner/loop.py:46-256 | the same of the runner, on the actual store and lake |
| ReopeningLoss.ReopeningCanLose | src/ocsf_connector/runner/loop.py:105-207 | from every state a covering run over distinct uids can reach, beside any other streams: opening a finished range that is not so safe can take a delivered uid off every row |
| ReopeningLoss.ReopeningKeepsIffSafe | src/ocsf_connector/runner/loop.py:105-107 | every rerun of a finished range keeps every delivered uid on a row if and only if each of its objects has one row at most, of an expired uid, and the sink writes nothing for an empty batch |
| ReopeningLoss.LosesToShortPage | src/ocsf_connector/runner/loop.py:109-114 | an object of several rows: once they have expired, a shorter first page overwrites it without the later ones |
| ReopeningLoss.LosesToLive | src/ocsf_connector/runner/loop.py:159-181 | an object with a live row: a new event of its class and day overwrites it without that row |
| ReopeningLoss.LosesToEmpty | src/ocsf_connector/sinks/base.py:37-38 | with one object per key an empty page overwrites it with nothing |
| Witnesses.ShorterReplayDuplicates | src/ocsf_connector/runner/loop.py:109-113 | a run with one crash and a shorter replay that leaves one uid on two rows |
| Witnesses.ReopeningLoses | src/ocsf_connector/runner/loop.py:105-107 | one such run: a finished range reopened while part of it is live loses a row that was delivered |
| Witnesses.BlankUidsLose | src/ocsf_connector/mapping/okta.py:141-162 | two events without a uuid: one is committed past and is in no object |
| Witnesses.OpenBatchDuplicates | src/ocsf_connector/runner/loop.py:159-181 | a uid on two pages of one open batch: two rows in one object, without a crash |
| Witnesses.MovedOpening | src/ocsf_connector/runner/modes.py:11-14 | an opening computed anew after a crash before the first commit: one event is on no row and another on two |
| Witnesses.SharedUidDuplicates | src/ocsf_connector/runner/modes.py:23-26 | a uid in two logs that two live processes both read before either commits is on two rows |
| Witnesses.ExpiryDuplicates | src/ocsf_connector/state/memory.py:78-90 | a uid that comes back once it has expired is written again |
| StateSpec.UnseenMeaning | src/ocsf_connector/state/memory.py:78-90 | the filter returns exactly the uids not live, each once, as a sublist in the order given |
| StateSpec.PublishedIsNewest | src/ocsf_connector/state/memory.py:96-99 | of the old and the new published time the later one is kept, and nothing else changes |
| StateStores.InMemoryStateStore.Commit | src/ocsf_connector/state/memory.py:50-65 | cursor, committed flag, version, stamp and expiries move to the abstract commit of the old contents |
| StateStores.InMemoryStateStore.MarkCaughtUp | src/ocsf_connector/state/memory.py:67-70 | stamps a stream that has committed, and no other |
| StateStores.InMemoryStateStore.FilterUnseen | src/ocsf_connector/state/memory.py:78-90 | its answer is the abstract filter's |
| StateStores.InMemoryStateStore.RecordPublished | src/ocsf_connector/state/memory.py:96-99 | keeps the newest timestamp |
| StateStores.InMemoryStateStore.PurgeExpired | src/ocsf_connector/state/memory.py:124-131 | drops exactly the expired uids and says how many |
| StateStores.SqliteStateStore.Reopen | src/ocsf_connector/state/sqlite.py:72-101 | a new process over the same tables has the same contents, with the committed mirror rebuilt |
| StateStores.SqliteStateStore.Commit | src/ocsf_connector/state/sqlite.py:109-151 | either the whole abstract commit or, on any failure part way, nothing at all |
| StateStores.SqliteStateStore.FilterUnseen | src/ocsf_connector/state/sqlite.py:153-176 | the chunked lookup gives the abstract filter's answer for any number of uids |
| StateStores.SqliteStateStore.RecordPublished | src/ocsf_connector/state/sqlite.py:184-200 | the upsert's effect, which is the abstract one for positive timestamps |
| StateStores.PublishedAgree | src/ocsf_connector/state/sqlite.py:184-200 | the two stores record the same published time if and only if it is not a negative one that is the first of a stream already known |
| StateStores.SqliteStateStore.MarkCaughtUp | src/ocsf_connector/state/sqlite.py:202-214 | stamps a stream that has committed, and no other |
| StateStores.SqliteStateStore.PurgeExpired | src/ocsf_connector/state/sqlite.py:234-240 | drops exactly the expired uids and says how many |
| StateStores.UnseenOfFirsts | src/ocsf_connector/state/sqlite.py:153-176 | removing repeats and then what is live is the filter |
| StoreTraces.RunBoth | src/ocsf_connector/state/sqlite.py:103-240 | over every trace of operations, any of which may fail in the SQLite store and is then skipped in both, the two stores answer alike and end alike, as the abstract store does over the operations that succeeded; as many are skipped as statements failed |
| StoreTraces.PurgeIsInvisible | src/ocsf_connector/runner/loop.py:223-225 | purges put anywhere in a trace on a forward clock change no other answer |
| StoreTraces.PurgeNeedsAForwardClock | src/ocsf_connector/state/memory.py:124-131 | on a clock that goes back they can |
| LakeSink.SecurityLakeSink.Write | src/ocsf_connector/sinks/security_lake.py:113-120 | appends, and dates the batch by the first event written |
| LakeSink.SecurityLakeSink.ShouldFlush | src/ocsf_connector/sinks/security_lake.py:122-129 | due when something is buffered and it is large or old enough |
| LakeSink.TotalSizeOf | src/ocsf_connector/sinks/security_lake.py:113-129 | what is buffered is as large as its events together |
| LakeSink.SecurityLakeSink.Flush | src/ocsf_connector/sinks/security_lake.py:131-157 | a clean return means every object of the batch is PUT and the buffer empty; a failure leaves the buffer, and some objects PUT |
| LakeSink.BucketEvents | src/ocsf_connector/sinks/security_lake.py:179-189 | one bucket per class and day of the buffer, each with its events in order |
| LakeSink.FlushPartitions | src/ocsf_connector/sinks/security_lake.py:131-157 | the objects of one flush hold together exactly the buffered events, as a multiset |
| LakeSink.OneClassOneDay | src/ocsf_connector/sinks/security_lake.py:179-189 | every row of an object has the object's class and day |
| LakeSink.SortIsStable | src/ocsf_connector/sinks/security_lake.py:196-197 | rows are a time-sorted permutation that keeps the order of equal times |
| LakeSink.ObjectStore.Put | src/ocsf_connector/sinks/objects.py:33-81 | a PUT overwrites its key and nothing else; one that fails may have landed |
| RunLoop.Collapse | src/ocsf_connector/runner/loop.py:159-165 | the page-local collapse keeps the first event of each unseen uid |
| RunLoop.NewestDated | src/ocsf_connector/runner/loop.py:172-175 | the newest timestamp that parsed, if any did |
| RunLoop.FlushThenCommit | src/ocsf_connector/runner/loop.py:184-206 | commits only after a clean flush, and then the row has the next cursor, the mapping version and the time of the commit; when either fails the stream has committed nothing and its row is untouched, whatever others committed meanwhile |
| RunLoop.ReadPage | src/ocsf_connector/runner/loop.py:148-181 | a page that is read is mapped, filtered and buffered whole, and leaves the published time the newest of what it was and the times of the page that parsed |
| RunLoop.SettlePage | src/ocsf_connector/runner/loop.py:184-225 | commits if and only if the range ended or the buffer is large or old enough, purges after a commit exactly when an interval has passed, and paces the next purge and stamp from it |
| RunLoop.MoveOn | src/ocsf_connector/runner/loop.py:235-252 | an empty page with nothing pending stamps the stream if and only if the interval has passed; any other leaves the row alone |
| RunLoop.StampIfDue | src/ocsf_connector/runner/loop.py:243-250 | stamps on an empty page with nothing pending, if and only if an interval has passed since the last stamp or commit; when the store fails nothing is stamped |
| RunLoop.PurgeIfDue | src/ocsf_connector/runner/loop.py:223-225 | purges exactly when an interval has passed since the last time; a failed purge changes nothing |
| RunLoop.Turn | src/ocsf_connector/runner/loop.py:135-252 | one page, in the order of the source, is a stretch of the machine's run, whichever call on the source, the object store or the state store fails and whatever other streams do in between; counters, row and pacing move by exactly what the turn did |
| RunLoop.Loop | src/ocsf_connector/runner/loop.py:135-256 | the loop ends in a machine state; it fetches one page a turn and over a finite chain no more than the chain has; each counter is what its steps in the trace add up to, it is never both exhausted and stopped, and the row has the version it committed with and no cursor if and only if it is exhausted |
| RunLoop.Run | src/ocsf_connector/runner/loop.py:46-256 | every run, however it ends, any call on the source, the object store or the state store failing included, and beside any steps of other streams, is a legal run of the machine from the stored or the opening cursor; pages, mapped, written and commits are the sums over its steps, duplicates the rest; nothing is returned exactly if one call failed, a stop is reported exactly if one was asked for; its idle stamps are spaced |
| RunLoop.Meanwhile | src/ocsf_connector/runner/modes.py:23-26 | any steps of other streams on the shared store and lake are steps of the machine that leave the run's own process, row and log alone |
| Neighbours.PutMovesForward | src/ocsf_connector/sinks/security_lake.py:140-150 | a PUT changes places with any steps of other streams before it, so a flush they cut into ends as one made in one piece |
| RunGuarantees.RunIsLegal | src/ocsf_connector/runner/loop.py:105-114 | a run on an unfinished range is one action of opening and then the run |
| RunGuarantees.RunKeepsGuarantees | src/ocsf_connector/runner/loop.py:46-256 | a run leaves the invariant the next run needs, and every event before the stored cursor on a row |
| RunGuarantees.RunKeepsExactlyOnce | src/ocsf_connector/runner/loop.py:105-207 | over distinct uids, a run whose commits cover puts no uid on two rows, and leaves what the next run needs for the same |
| RunGuarantees.RunWithoutLoss | src/ocsf_connector/runner/loop.py:46-256 | of the actual store and lake, however the run ended: each mapped event before the cursor now stored, or up to where the range finished, is on a row |
| RunGuarantees.Drain | src/ocsf_connector/runner/loop.py:182-238 | over a finite chain a run in which no call fails and no stop is asked for ends exhausted, its range finished, after no more pages than the chain has |
| Reconcile.Compare | scripts/reconcile.py:104-134 | each list says exactly what it is named for; clean if and only if the two sides reconcile |
| Reconcile.CountRows | scripts/reconcile.py:120 | the number of rows of each uid in each table |
| Reconcile.TablesPerUid | scripts/reconcile.py:121-123 | the tables that hold each uid |
| Reconcile.CleanIsExactlyOnce | scripts/reconcile.py:104-108 | reconciled means each Okta uid is on one row and no other |
| DeliveryReconciles.ReconcilesIffCovering | scripts/reconcile.py:111-134 | over a finished range, comparing it with a full read of the lake is clean if and only if every commit covered its crashed attempts |
| Leftovers.Reader.Get | src/ocsf_connector/mapping/okta.py:284-299 | the value at a path or null; a path is remembered exactly when it is there |
| Leftovers.Leftover | src/ocsf_connector/mapping/okta.py:384-394 | the record less the paths read, pruned; the same for every order of removal |
| Leftovers.LeftoverMeans | src/ocsf_connector/mapping/okta.py:384-406 | a boolean, a number, or a text or list that is not empty stays at a dictionary path if and only if it was there and neither the path nor one above it was read |
| Leftovers.LeftoverIsPruned | src/ocsf_connector/mapping/okta.py:397-406 | no member left is null or an empty text, list or dictionary, and pruning again changes nothing |
| Leftovers.PopAtMeans | src/ocsf_connector/mapping/okta.py:386-393 | one removal takes out the path and all below it, and nothing else |
| Leftovers.PopAnyOrder | src/ocsf_connector/mapping/okta.py:386 | paths can be removed in any order, any number of times |
| Leftovers.PruneMeans | src/ocsf_connector/mapping/okta.py:397-406 | pruning adds nothing and keeps every boolean, number, and text or list that is not empty |
| Leftovers.PruneLeavesNoEmpty | src/ocsf_connector/mapping/okta.py:397-406 | at no level does a dictionary keep null or an empty text, list or dictionary |
| Leftovers.PruneIdempotent | src/ocsf_connector/mapping/okta.py:397-406 | pruning twice is pruning once |
| OktaMapping.LoadTable | src/ocsf_connector/mapping/okta.py:81-89 | a table loads exactly when every row and the fallback is legal for OCSF 1.3.0 |
| OktaMapping.LoadEntryMeans | src/ocsf_connector/mapping/okta.py:302-319 | a row is read as the class and activity it says, as numbers, booleans or texts of numbers, if and only if OCSF 1.3.0 has them |
| OktaMapping.OktaMapper.Map | src/ocsf_connector/mapping/okta.py:114-210 | every record maps to an event valid for the class its type has in the table; each attribute is said in terms of the record: status, severity, time, metadata, texts, who, from where, to what, and which class has which (`OktaRecords`); what was not read is under `unmapped`; unknown types are counted |
| OktaMeaning.StatusIsTold | src/ocsf_connector/mapping/okta.py:323-326 | status 0 if there is no outcome, 1 if it is a success in any case of letters, 2 if a failure, 99 for anything else; its text in title case |
| OktaMeaning.UserIsTold | src/ocsf_connector/mapping/okta.py:233-264 | user and actor are the same person, of the id, display name and alternate id that say something other than the placeholder; nobody for a machine; a class that requires a user has one of unknown name |
| OktaMeaning.ClientIsTold | src/ocsf_connector/mapping/okta.py:266-282 | endpoint, agent and session, each exactly when the record says it, city, country and state read below the location |
| OktaMeaning.FirstIs | src/ocsf_connector/mapping/okta.py:335-351 | the target taken is the first dictionary of one of the types, or an empty one |
| OktaMeaning.SignInIsTold | src/ocsf_connector/mapping/okta.py:200-206 | a sign-in has its first application, or the org, as service, and is multi-factor if a step is named or the provider holds the word FACTOR |
| OktaMeaning.ObjectsAreTold | src/ocsf_connector/mapping/okta.py:212-231 | entity, privileges and group, of exactly the classes that have them, by display name, or alternate id, or as unknown |
| OktaMeaning.BodyIsTold | src/ocsf_connector/mapping/okta.py:145-210 | the whole body at once, and nothing else in it |
| OktaMapping.OktaMapper.BodyIsValid | src/ocsf_connector/mapping/okta.py:145-210 | whatever the record holds: only attributes of the class, every required object present and not empty, and an authentication has its service |
| OktaBody.WhoActed | src/ocsf_connector/mapping/okta.py:185-188 | an event names the same person as user and as actor or neither, never a machine, and in no attribute the vendor's placeholder |
| OktaBody.FilledMeans | src/ocsf_connector/mapping/okta.py:372-381 | filling adds exactly what is required and missing or empty, of unknown name, and leaves the rest |
| OktaMapping.OktaMapper.FillRequired | src/ocsf_connector/mapping/okta.py:372-381 | the loop fills exactly that |
| OktaMapping.UnreadIsKept | src/ocsf_connector/mapping/okta.py:384-406 | under `unmapped` stands, at its own path, exactly what no path the mapping reads leads to, of booleans, numbers, and texts and lists that are not empty |
| OktaMapping.TargetsAreKept | src/ocsf_connector/mapping/okta.py:335-351 | the whole `target` list survives under `unmapped` |
| OktaMapping.ClassIsRecoverable | src/ocsf_connector/mapping/okta.py:153-157 | class and activity are legal and can be told from the type uid |
| LinkHeader.NextLink | src/ocsf_connector/sources/okta/source.py:233-245 | the first URL, over all header lines in order, marked `next` |
| LinkHeader.IsNextMeans | src/ocsf_connector/sources/okta/source.py:241-244 | a link is next if and only if the word `next`, in any case of letters, is one of its relations |
| LinkHeader.LowerMeans | src/ocsf_connector/sources/okta/source.py:243 | each capital letter becomes its small one, and no other character changes |
| LinkHeader.LinkRoundTrip | src/ocsf_connector/sources/okta/source.py:55-56 | links with any parameters, quoted or bare, padded, in any case of letters, printed over any lines, scan back to the first URL one of whose relations is the word `next`, byte for byte, whatever `;`, `,` or `<` it holds |
| LinkHeader.WordsMeans | src/ocsf_connector/sources/okta/source.py:241-244 | the relations are the words between white space, no more and no fewer |
| FetchBudget.OktaSource.Fetch | src/ocsf_connector/sources/okta/source.py:136-188 | for every sequence of answers: a page only for a 200 with a valid body, any other answer raised with its status, giving up only after `maxAttempts` transient failures (`Concludes`); each wait is one the code owes, with the length it owes (`Lawful`); all backoff together is below its bound |
| FetchBudget.RepliesDecide | src/ocsf_connector/sources/okta/source.py:143-188 | how often is asked and what comes of it is decided by the answers alone |
| FetchBudget.BackoffsBounded | src/ocsf_connector/sources/okta/source.py:218-220 | the backoffs of a fetch add up to less than the caps of its failures |
| FetchBudget.CapMeans | src/ocsf_connector/sources/okta/source.py:218-220 | the cap is the power of two of the failures, at most 30 seconds, reached with the fifth |
| FetchBudget.OnLogsEndpointMeans | src/ocsf_connector/sources/okta/source.py:137-141 | a cursor is asked for exactly if it is the org's logs endpoint, a question mark and a query |
| FetchBudget.OktaSource.ObserveBudget | src/ocsf_connector/sources/okta/source.py:195-202 | a report counts only when both headers are there |
| FetchBudget.OktaSource.RespectBudget | src/ocsf_connector/sources/okta/source.py:204-210 | waits, and forgets the report, exactly when too little is known to be left |
| FetchBudget.OktaSource.Until | src/ocsf_connector/sources/okta/source.py:212-216 | a reset at most two windows ahead is waited out, a later one for two windows, one not given for one window, and no wait is longer than that and the jitter |
| FetchBudget.OktaSource.Backoff | src/ocsf_connector/sources/okta/source.py:218-220 | below the cap for the number of failures |
| Roles.ParseRoles | src/ocsf_connector/config.py:199-225 | refuses exactly when some piece is malformed, and otherwise gives the map of the pieces |
| Text.IsSpaceMeans | src/ocsf_connector/config.py:211-223 | which characters are stripped |
| Roles.MalformedMeans | src/ocsf_connector/config.py:218-223 | a piece is malformed when it is not blank and lacks a name, `=` or an ARN |
| Roles.NothingSkipped | src/ocsf_connector/config.py:211-213 | the map holds every named piece and nothing else, the last one of a name winning |
| Roles.RoleListRoundTrip | src/ocsf_connector/config.py:202-209 | any entries, none included, in any order and with any padding, written and parsed are the map they stand for |
| Roles.RolesOfAnyOrder | src/ocsf_connector/config.py:202-209 | with distinct names the order does not matter |
| Naming.CheckSourceNames | src/ocsf_connector/sinks/naming.py:77-109 | accepts exactly prefixes of at most five allowed characters; a refusal names a derived name and how much to shorten so that all fit |
| Naming.AllowedMeans | src/ocsf_connector/sinks/naming.py:33-36 | which characters a source name may have |
| Naming.AcceptedMeans | src/ocsf_connector/sinks/naming.py:77-109 | every derived name is allowed and fits if and only if the prefix is allowed and has at most five characters |
| Naming.ClassSources | src/ocsf_connector/sinks/naming.py:44-53 | which source each class has |
| Naming.SourcesDiffer | src/ocsf_connector/sinks/naming.py:44-63 | no two classes share a source |
| Naming.PathsDiffer | src/ocsf_connector/sinks/s3.py:229-236 | distinct class, day and digest always give distinct paths |
| Naming.PartitionsDiffer | src/ocsf_connector/sinks/security_lake.py:159-176 | below one source, distinct day and digest give distinct partitions |
| Settings.AcceptedMeans | src/ocsf_connector/config.py:242-286 | settings are accepted if and only if the prefix is registrable, a bucket goes with S3 and only with it, and roles, external id and S3 go together, with a role for each source |
| Settings.FaultMeans | src/ocsf_connector/config.py:242-286 | a refusal names a check that fails, and those before it hold |
| Settings.EveryClassHasItsRole | src/ocsf_connector/config.py:242-286 | an accepted setting with roles has one role for each class, and no other |
| Settings.WrongRolesAreExact | src/ocsf_connector/config.py:269-279 | a refusal for wrong roles names exactly what to add and what to drop |
| Settings.CompleteRoleListIsAccepted | src/ocsf_connector/config.py:199-286 | a role list naming every source, in any order and padding, is read, and accepted if and only if the prefix has at most five characters, all allowed |
| OcsfSchema.TypeUidRecovers | src/ocsf_connector/mapping/okta.py:157 | the type uid of a legal pair says which pair it is |
| OcsfSchema.Classes | src/ocsf_connector/ocsf/schema.py:49-58 | the classes, the last activity of each and its category |
| OcsfSchema.Carriers | src/ocsf_connector/ocsf/schema.py:60-70 | which classes carry, and which require, an attribute |

## Left out

- HTTP, TLS, boto3, STS, SQLite's own machinery, Parquet and Arrow: environment steps, or a map with
  overwrite and an all-or-nothing commit.
- SHA-256: the lake is keyed by the batch's cursor itself; `Naming.PathsDiffer` is about any two digests.
- The mapper inside the protocol: logs hold mapped events, so a mapping table that changes between a
  crash and its replay is not modelled.
- Reading dates, calendar days, Unicode case conversion and `str` of values that are not strings: abstract
  functions of their arguments. White space is Python's up to U+00A0.
- Clocks: integer seconds in the store and the protocol; reals only for waits. Floating point rounding is
  not modelled.
- asyncio, threads and signals: a stop is read at the top of the loop, and a store operation is one step.
  Other streams step between the runner's calls; inside a flush they do so by `Neighbours.PutMovesForward`.
- DeliverySafety.NoLoss: a finished range is not opened again, which the runner would accept, because
  `ReopeningLoss.ReopeningCanLose` shows that rows can then be lost; `Reopening` says when they are not.
- RunGuarantees.RunWithoutLoss: the same; `Reopening.RerunWithoutLoss` is for a finished range that is safe.
- Backfill.FinishesOnce: of the machine, which refuses what the runner accepts; `Reopening` and
  `ReopeningLoss` are about what happens then.
- ReopeningLoss.ReopeningKeepsIffSafe: over one stream, and from states that covering runs reach (elsewhere a
  lost row can have a second copy). Its safe half needs no covering, its losing half no single stream.
- RunLoop.Loop: a tail has no end of its own, so it ends when the source has answered a number of times, any
  number; a bounded query ends by its chain.
- ExactlyOnce.ExactlyOnceWhenCovering: assumes that no uid is in two logs; `Overlap.OnceAcrossStreams` is what
  holds where logs overlap, of final objects.
- Multiplicity.RowsPerPage: the stream does not die and the run is shorter than the dedup window, as the claim
  needs; no other log carries the uid.
- DeliverySafety.CaughtUpIsSound: the second clause needs the empty page to have been served from the end of
  the log; the first says what holds of any empty page.
- FetchBudget.OktaSource.Fetch: the fetch also ends when the answers run out, which stands for the process
  dying; a run of 429s has no other end. Headers of the request, and the body's JSON, are not modelled.
- Leftovers.Leftover: the deep copy that is popped in place is a value here, so aliasing with the record is
  not modelled.
- Reconcile.Compare: sorted lists without repeats are sets; printing and hashing of examples is not modelled.
- Roles.ParseRoles: only the string form; a TOML table passes through unchanged.
- Naming.CheckSourceNames: the regular expression's word class is a parameter that has the underscore and the
  lower-case letters and no slash.
- ProviderRoles, the per-source cache of assumed roles, and the token cache: easy next to the rest.
- Retention warnings, the opening bound, health file, telemetry, Terraform, command line: single decisions or I/O.
