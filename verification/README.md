# xwlrvnc: a verified model

xwlrvnc runs X11 clients, a VNC server above all, on a Wayland compositor. This project models the parts of it where
threads and outside parties run a protocol, or where arithmetic has an exact specification, and proves what each
promises over all its inputs or all its runs. `dafny verify dfyconfig.toml` checks everything.

- **The clipboard bridge** (`BridgeTypes`, `ServerClock`, `FetchTable`, `ClipJobs`, `ClipboardState`, `EchoProtocol`,
  `BridgeWorld`, `BridgeRuns`, `BridgeEmissions`, `BridgeClears`, `PublicationLocks`, `PublicationOrder`, `BridgeCases`,
  `BridgeOverflow`, `OfferGenerations`, `ConversionRuns`). X clients own CLIPBOARD and PRIMARY; each connection fetches
  the value of an owner it has granted a selection to; publications go through a job queue to the Wayland thread; the
  compositor announces every selection, ours and foreign, in order. `EchoProtocol` is one selection as both sides see
  it. `BridgeWorld` is everything at once, one step per transition, and is proved to refine `EchoProtocol`;
  `BridgeRuns` holds the theorems about runs of it. A transition only calls for its effects: `BridgeEmissions` has each
  thread carry out its own afterwards, one by one, while others go on, and `BridgeClears` follows what X clients come to
  believe. `PublicationLocks` and `PublicationOrder` take a publication apart, lock by lock, for one selection.
  `BridgeCases` and `BridgeOverflow` are runs from the start that meet what the theorems rule out, and
  `ConversionRuns` follows conversions from the mimes read to the answer.
- **Framebuffer and output transforms** (`PixelTransform`, `Capture`, `BlitTheorems`). Blits and reads over a byte
  array, specified byte by byte.
- **The RandR screen** (`PackAxis`, `PackTheorems`, `RandrScreen`, `ScreenModel`, `ScreenRollback`, `ScreenTheorems`,
  `PointerLayout`). Packing is declared as a set of equations with one solution, which the loop is shown to compute.
- **Dynamic resolution** (`RequestSlots`, `OutputRetry`, `ResolutionRuns`, `RetryTheorems`). X threads and the Wayland
  thread, interleaved lock by lock, composed with the retry machine.
- **Smaller cores**: a client's outbox (`ClientOutbox`, with `OutboxRuns`), DAMAGE objects (`DamageTracking`,
  `DamageTheorems`), keysym lookup (`KeymapDedup`), and the signal hand-off during a spawn (`TermSignals`).

Objects whose methods change their fields are classes here too. Each method is proved to make a transition that is
written as a function of the state before, and the theorems are about those functions.

## Assumptions

- In `BridgeWorld` each public `Clipboard` transition, with its post of a publication, is one step. The code lets the
  lock go between the two, and between recording the echo and posting the job. `PublicationLocks` drops the assumption
  for one selection: the sides agree unless publications overlap, and then exactly if the last posted was the owner's.
- The compositor announces every `set_selection` and every foreign change of a selection, in order.
- Which selections the device carries, and whether the Wayland thread takes jobs, are fixed during a run of
  `BridgeRuns`; `ClipJobs` has stopping and starting.
- Four mishaps are recorded when they happen, and each theorem names those it rules out: a 17th echo owed, a post
  refused, a foreign announcement that looks like the echo at the front of the queue, and a second answer for an owner
  that has its value. The last needs an acquisition repeated, window and time, while its fetch is out. `EchoProtocol`
  says exactly when each breaks agreement (a 17th echo does not, but displaces an owner); `BridgeCases` and
  `BridgeOverflow` show each.
- Times are inputs. Wrapped times are compared exactly while live ones are within half the range.
- What a property, a pipe or a socket holds when read is an input of the step that reads it.
- On screens, a logical size is positive where non-overlap is claimed; the packing itself is modelled for all inputs.

## Where the code and its documentation differ

The model follows the code.

- XFixes notifications go out after the lock is released, so news of two threads can be told in the wrong order, and
  watchers be left with an owner who is none (`WatchersCanBeMisled`, `WatchersKnowIff`).
- A publication takes the clipboard's lock anew after the transition that makes it, so two connections' can overlap:
  the last one posted wins, whoever owns the selection, and the record of echoes comes out right exactly if they are
  posted in the order recorded (`LastPublicationWins`, `OvertakenPublicationWins`, `RecordSettlesIff`,
  `CrossedRecordDisplaces`).
- A SelectionClear goes out after the lock too, so an owner can be told last of a loss it has undone (`ClientsKnowIff`,
  `RetakerIsToldOfItsLoss`).
- `server_time_ms` is documented as monotonic and never 0. It goes back once it is half the range ahead of the last
  change, in every wrap, and to 0 if there was none (`ServerTimeGoesBackIff`, `ServerTimeIsZeroIff`).
- The search by column need not find a key that has a keysym at both Shift levels (`SearchCanMissBoth`).
- `restore_outputs` does not report a change of positions alone (`RestoreReportsIff`, `MovesAreUndoneSilently`).
- A sequence 2^15 or more ahead of the last stamped is taken for one behind it (`StampIsRightIff`).
- An outcome not yet read is discarded by the next request parked (`OutcomeIsThereIff`).
- `read_rect_into` is documented to write every byte of its destination. It does exactly if that is a whole number of
  the image's rows (`WritesEveryByteIff`, `SharedIsFilledIff`, `SharedCanBeLeft`).
- At the delta level all new damage is reported, not only what is newly damaged (`RawAndDeltaReportTheDamage`).

## Model

| member | source | states |
|---|---|---|
| BridgeRuns.BothSidesAgree | src/bridge/clipboard.rs:610-902 | In every run of the whole bridge (any X connections, fetches, jobs and foreign apps, in any order), once no publication of a selection is queued and no announcement undelivered: an X owner whose value is `d` means the compositor shows our source carrying exactly `d`, if the device carries the selection, no acquisition of it was repeated while its fetch was out, no post refused and no lookalike announced; a Wayland owner is the offer shown; no echo is left owed, if none was over 16 and no lookalike announced; and, if besides no post was refused, `published` holds exactly if the source shown is ours |
| BridgeEmissions.WatchersKnowUnless | src/bridge/clipboard.rs:274-326 | With effects carried out after the lock, thread by thread: in every run, at every moment, a watcher of XFixes notifications knows the owner, unless that is an acquisition whose connection, still there, has its fetch out, or news of the selection is still to be told, or the last news was called for while earlier news was |
| BridgeEmissions.WatchersKnowIff | src/bridge/clipboard.rs:274-326 | Once nothing of the selection is outstanding, a watcher knows the owner exactly if the last news told is the last called for, or names the same owner; and it is the last called for unless two threads' news overlapped |
| BridgeEmissions.WatchersCanBeMisled | src/bridge/x11/conn.rs:350-365 | A run from the start in which an X thread's news of a release is told after the Wayland thread's news of a later change: nothing is left outstanding, and watchers believe that nobody owns what a Wayland app does |
| BridgeEmissions.EveryEffectIsCarriedOutOnce | src/bridge/clipboard.rs:291-326 | In every run each effect called for is owed by a thread or carried out, once; when none is owed, each offer announced is an owner's or destroyed, once |
| BridgeEmissions.WorldMakesARun | src/bridge/clipboard.rs:291-326 | Under the emissions the bridge makes a run of its own, so what holds of every run of it holds here |
| BridgeEmissions.BooksRecordCalls | src/bridge/clipboard.rs:610-855 | Each transition calls for exactly the news and the offers entered in the books |
| BridgeClears.ClientsKnowUnless | src/bridge/clipboard.rs:274-326 | In every run, at every moment: an X client believes it owns a selection exactly if it does, unless a SelectionClear of it is still to be sent to it, or it took the selection last while one was |
| BridgeClears.ClientsKnowIff | src/bridge/clipboard.rs:274-326 | With none still to be sent to it, a client believes it owns a selection exactly if it does and did not take it last while one was |
| BridgeClears.RetakerIsToldOfItsLoss | src/bridge/x11/conn.rs:355-372 | A run from the start: a client takes the selection back before the other thread sends the SelectionClear it owes it, and ends the owner of a selection that nobody believes to own |
| BridgeClears.HoldersNext | src/bridge/clipboard.rs:610-855 | Each transition takes the selection from the client that a SelectionClear is called for, and gives it to the one that took it |
| BridgeRuns.NewsCalledForIsTrue | src/bridge/clipboard.rs:610-855 | In every run, at every moment: the owner in the last notification called for is the owner, or the owner is an X acquisition whose connection is still there with its fetch out; and the clients no SelectionClear was called for are the X owner's |
| BridgeRuns.NothingIsLostOrDoubled | src/bridge/x11/selection.rs:137-234 | In every run: each fetch begun is out or resolved, once; each offer announced is a current owner's or was handed out for destruction, once |
| BridgeRuns.RunsKeepInvariant | src/bridge/x11/conn.rs:1545-1700 | The invariant behind those three is kept by every run from the start |
| BridgeRuns.InvariantStep | src/bridge/x11/conn.rs:1545-1700 | and by every single step: acquisitions, releases, answers, sweeps, chunks, displacements, job steps, announcements, windows and connections going |
| BridgeRuns.NeverResolvedTwice | src/bridge/clipboard.rs:786-800 | An owner that has its value is never afterwards refused it, as long as no acquisition of the selection is repeated, window and time, while its fetch is out |
| BridgeRuns.CloseKept | src/bridge/x11/conn.rs:2019-2027 | A connection that drops gives up each selection it owns and each fetch it has out, and leaves the books balanced |
| BridgeRuns.ResolveKept | src/bridge/x11/conn.rs:1688-1700 | Carrying out a resolution, accepted, stale or refused, keeps the invariant |
| BridgeRuns.TakeKept | src/bridge/x11/conn.rs:334-387 | Granting a selection to an X client, and starting its fetch, keeps the invariant |
| BridgeRuns.AnnounceKept | src/bridge/wayland/data_control/mod.rs:521-550 | Delivering an announcement, echo or foreign, keeps the invariant |
| BridgeWorld.StepsAreMoves | src/bridge/clipboard.rs:610-902 | Refinement: each step of the whole world is, to each selection, one move of the two-sided echo protocol, with the mishaps recorded |
| BridgeWorld.SentSwept | src/bridge/clipjobs.rs:132-146 | Sweeping the job queue loses no publication |
| EchoProtocol.DeliveryIsAttributedIff | src/bridge/clipboard.rs:412-429 | An announcement is taken for ours exactly if our publication caused it, and the record of echoes stays exact, precisely unless a foreign app announces what the echo at the front of the queue would |
| EchoProtocol.PublishingIsAttributedIff | src/bridge/clipboard.rs:864-892 | A publication keeps the record of echoes exact precisely while fewer than 16 are owed |
| EchoProtocol.MoveHolds | src/bridge/clipboard.rs:610-902 | Each move keeps each property that the mishaps so far allow |
| EchoProtocol.RunsHold | src/bridge/clipboard.rs:610-902 | and so does every run: coherence always, attribution without overflow or lookalikes, `published` also without refused posts, agreement without lookalikes, refused posts and second answers, however many echoes are owed |
| EchoProtocol.AgreementWhenSettled | src/bridge/clipboard.rs:864-892 | In a run with no lookalike, refused post or second answer, a value held by X with nothing in flight is the value shown, by our source |
| EchoProtocol.FillAgreesIff | src/bridge/clipboard.rs:763-775 | From any state, a value fetched agrees with what the compositor comes to show exactly if its post is taken, or that is the value already, or a foreign announcement is to come |
| EchoProtocol.FailAgreesIff | src/bridge/clipboard.rs:786-800 | A refusal keeps the two sides agreeing exactly if the owner has no value, or nothing of ours is withdrawn, or a foreign announcement is to come |
| EchoProtocol.DeliverAgreesIff | src/bridge/clipboard.rs:412-429 | A delivery keeps them agreeing exactly unless a lookalike is taken for the echo of an older value |
| EchoProtocol.RefusalWithdrawsIff | src/bridge/clipboard.rs:786-800 | In any state, a refusal withdraws our source exactly if one is recorded as published, the device carries the selection and the post is taken; otherwise what was to come of ours stays |
| BridgeOverflow.SeventeenthEchoDisplacesItsOwner | src/bridge/clipboard.rs:874-878 | A run of the bridge from its start: a window takes the selection 17 times, each time fetched and published, before anything is announced. When the announcements come, the last of our own is taken for a foreign app's and displaces the owner whose value it carries |
| EchoProtocol.RefusalWithdrawsWhenSettled | src/bridge/clipboard.rs:786-800 | With nothing in flight, an owner that refuses its value gets the old source withdrawn exactly if the compositor shows one of ours |
| BridgeCases.WithdrawalCanBeSkipped | src/bridge/clipboard.rs:650-655 | A run of the bridge from its start: a foreign offer overtakes our echo, the owner that takes the selection back refuses, nothing is withdrawn, and the compositor is left showing the value of the owner before |
| BridgeCases.LookalikeIsMisattributed | src/bridge/clipboard.rs:412-429 | A run from the start: a foreign offer of our very mimes while an echo is due is taken for the echo, and our own source then for a foreign app's |
| BridgeCases.RefusedPostDisagrees | src/bridge/clipboard.rs:864-892 | A run from the start with nobody to take the post: X clients are served a value the compositor never shows |
| BridgeCases.AnswerThenRefusalDisagrees | src/bridge/clipboard.rs:128-130 | A run from the start: a window takes the selection twice at one time before its first fetch is answered; the first is answered, the second refused, and the value still held is withdrawn |
| BridgeCases.FaceFollows | src/bridge/clipboard.rs:610-902 | The scripts of these runs are steps of the bridge |
| PublicationLocks.LastPublicationWins | src/bridge/clipboard.rs:864-892 | Lock by lock, in every run with no lookalike announced and no post refused, however publications interleave: once all is settled, an X owner that has its value finds the compositor showing what was posted last. So the sides agree exactly if that was its value; and it was, if no publication was begun during another and none refused after its answer |
| PublicationOrder.RecordSettlesIff | src/bridge/clipboard.rs:859-892 | Lock by lock, in every run with no lookalike and no more than 16 echoes owed, however publications overlap and whichever posts are refused: once all is settled, no echo is left owed exactly if publications were posted in the order they were recorded; and if they were and none was refused, `published` holds exactly if the source shown is ours |
| PublicationOrder.OneAtATimeIsInOrder | src/bridge/clipboard.rs:859-892 | as they are if they do not overlap |
| PublicationOrder.StepKept | src/bridge/clipboard.rs:864-902 | Each region of a publication, and each move in between, keeps what that rests on |
| PublicationLocks.RecordSettles | src/bridge/clipboard.rs:859-892 | In particular, one publication at a time, whatever else comes between its locks: no echo is left owed once all is settled |
| PublicationLocks.OvertakenPublicationWins | src/bridge/clipboard.rs:763-775 | A run from the start, free of mishaps: a connection is held up between storing a value and publishing it, another client takes the selection and publishes its own, and the compositor ends up showing the first |
| PublicationLocks.CrossedRecordDisplaces | src/bridge/clipboard.rs:864-892 | A run from the start, free of mishaps: a withdrawal and a publication record their echoes in one order and are posted in the other, so our own announcements displace the owner whose value is shown, and an echo is owed for good |
| PublicationLocks.StepKeeps | src/bridge/clipboard.rs:864-902 | Each region of a publication, and each move in between, keeps what those rest on |
| PublicationLocks.LockedRunsHold | src/bridge/clipboard.rs:610-902 | and so does every run |
| PublicationLocks.UninterruptedIsOneMove | src/bridge/clipboard.rs:763-902 | With nothing in between, the regions of a publication are the one step the whole bridge takes, with the same mishaps |
| PublicationLocks.ProceedExact | src/bridge/clipboard.rs:870-892 | A record made before its job is posted, or undone after its post is refused, leaves the echoes exact |
| OfferGenerations.OffersAreTheOnesSeen | src/bridge/clipboard.rs:553-581 | In every run short of 2^64 steps, a conversion prepared from mimes and a generation is given an offer later only if it is the offer those mimes came with |
| OfferGenerations.GenerationsCount | src/bridge/clipboard.rs:400-404 | The generation counts the owners since; unchanged means the same owner |
| OfferGenerations.StepFollows | src/bridge/clipboard.rs:400-404 | Each step keeps the owner and its generation or moves to the next generation |
| OfferGenerations.StepsFollowTheClock | src/bridge/clipboard.rs:462-481 | Each step of the world leaves the change times alone or is one change of the clock's |
| ConversionRuns.DeliveredValuesAreThoseAskedFor | src/bridge/wayland/data_control/mod.rs:240-386 | End to end, in every run of at most 2^64 steps: a value delivered for a conversion is everything read, to its end, from the very offer its selection had, with the mimes read, when it was prepared |
| ConversionRuns.EachAskedIsAnsweredOnce | src/bridge/wayland/data_control/mod.rs:301-410 | In every run: each conversion asked for is on its way or answered, as many times as it was asked for and no more |
| ConversionRuns.StepsHold | src/bridge/wayland/data_control/mod.rs:301-410 | Each step of the bridge and its conversions, over one job queue, keeps what that rests on |
| ConversionRuns.StepsPost | src/bridge/clipboard.rs:864-902 | A transition posts at most one publication |
| ClipboardState.Clipboard.WaylandAnnounced | src/bridge/clipboard.rs:610-675 | The transition for an announcement: echo taken or not, owner, effects, times |
| ClipboardState.Clipboard.Took | src/bridge/clipboard.rs:680-712 | The transition for a SetSelectionOwner, refused if its time is stale |
| ClipboardState.Clipboard.Released | src/bridge/clipboard.rs:717-758 | The transition for giving the selection up |
| ClipboardState.Clipboard.Fetched | src/bridge/clipboard.rs:763-775 | The transition for an owner's value arriving; dropped if the owner has changed |
| ClipboardState.Clipboard.FetchFailed | src/bridge/clipboard.rs:786-800 | The transition for an owner that does not give its value |
| ClipboardState.Clipboard.OwnerGone | src/bridge/clipboard.rs:806-837 | The transition for an owner's window or connection going |
| ClipboardState.Clipboard.PublishValue | src/bridge/clipboard.rs:864-892 | The echo owed and the job posted; neither if the post is refused |
| ClipboardState.Clipboard.WithdrawOurs | src/bridge/clipboard.rs:896-902 | A withdrawal, only of a source of ours |
| ClipboardState.Clipboard.Stamp | src/bridge/clipboard.rs:462-472 | A time after every earlier change of either selection |
| ClipboardState.Clipboard.NoteChange | src/bridge/clipboard.rs:476-481 | A change time recorded and put under the server clock |
| ClipboardState.AnnouncementsFollowTheClock | src/bridge/clipboard.rs:610-675 | An announcement leaves every time alone or stamps one Wayland change |
| ClipboardState.RequestsFollowTheClock | src/bridge/clipboard.rs:680-837 | A request leaves every time alone or records one change at its own time, refused if stale |
| ServerClock.TimeCmpExact | src/bridge/event/mod.rs:212-214 | Comparing wrapped times gives the order of the true ones exactly if they are within half the range |
| ServerClock.WrapRefines | src/bridge/clipboard.rs:462-503 | Each change made on 32-bit times is the change made on unbounded ones, wrapped, while live times are within half the range |
| ServerClock.WrappedTimesAreTrueTimes | src/bridge/clipboard.rs:462-503 | and so is every history of changes |
| ServerClock.StepKeepsOrder | src/bridge/clipboard.rs:462-481 | A change never goes back, a Wayland change is strictly after every earlier change of either selection, and the clock is behind none |
| ServerClock.RunsKeepOrder | src/bridge/clipboard.rs:462-481 | over every history |
| ServerClock.FreshTimesAreNeverStale | src/bridge/clipboard.rs:501-503 | A time read from the server after the last change is accepted by a SetSelectionOwner, over every history whose live times are within half the range (section 2.1 of the ICCCM) |
| ServerClock.RawClockIsMonotonic | src/bridge/event/mod.rs:226-235 | The clock before its floor never goes back |
| ServerClock.ServerTimeIsTrueIff | src/bridge/event/mod.rs:226-235 | The server time is the later of clock and floor exactly while the clock is less than half the range ahead of the floor, or not so far behind that it reads as ahead |
| ServerClock.ServerTimeGoesBackIff | src/bridge/event/mod.rs:224-235 | It goes back, though documented as monotonic, exactly when the clock, less than half the range ahead of the floor in the wrap, comes to be half the range or more ahead, or less far ahead than it was: so in every wrap with no change |
| ServerClock.ServerTimeIsZeroIff | src/bridge/event/mod.rs:222-235 | It is 0, though documented as never, exactly while the floor is 0, where it starts, and the clock is half the range or more into a wrap |
| ServerClock.ServerTimeCanBeZero | src/bridge/event/mod.rs:222-235 | A server on which no selection has changed in its first 2^31 ms goes from 2^31 - 1 back to 0, and stays there for as long again |
| ServerClock.Clock.ServerTimeMs | src/bridge/event/mod.rs:226-235 | The clock read, never behind its floor |
| ServerClock.Clock.NoteSelectionTime | src/bridge/event/mod.rs:238-242 | The floor raised, never lowered |
| FetchTable.EveryFetchIsResolvedOnce | src/bridge/x11/selection.rs:137-234 | Over every history of one connection: each fetch begun is out or resolved, once; no two share a property; at most 32 wait; a completed INCR is exactly its own chunks in order, within the cap (section 2.7.2 of the ICCCM) |
| FetchTable.AnswersFindTheirFetch | src/bridge/x11/selection.rs:184-190 | An answer finds the fetch of its selection and property, a refusal the oldest of its selection |
| FetchTable.BeginKeeps | src/bridge/x11/selection.rs:137-151 | Beginning a fetch gives back every one it displaces and loses none |
| FetchTable.BeginKeepsForm | src/bridge/x11/selection.rs:137-151 | and leaves the table within its bounds, properties distinct |
| FetchTable.PushKeeps | src/bridge/x11/selection.rs:214-234 | A chunk neither loses nor doubles a fetch; too big or done hands it back |
| FetchTable.ChunksComeBackWhole | src/bridge/x11/selection.rs:214-234 | Chunks, ended by an empty one, come back as one value exactly if it fits the cap, and then as all of them in order |
| FetchTable.AnswerKeeps | src/bridge/x11/conn.rs:1596-1672 | A SelectionNotify resolves its fetch or turns it into a chunked receive, and touches no other |
| FetchTable.AnswerKeepsForm | src/bridge/x11/conn.rs:1596-1672 | A chunked receive starts empty, on a property of its own |
| FetchTable.UnexpiredKeeps | src/bridge/x11/selection.rs:156-168 | A sweep hands back each fetch it drops, once |
| FetchTable.SweepFinds | src/bridge/x11/selection.rs:172-176 | A sweep finds something exactly if the next deadline has passed |
| FetchTable.Selection.BeginFetch | src/bridge/x11/selection.rs:137-151 | The list after a fetch begins, and those displaced |
| FetchTable.Selection.ExpiredFetches | src/bridge/x11/selection.rs:156-168 | The fetches and receives out of time, taken out |
| FetchTable.Selection.TakeFetch | src/bridge/x11/selection.rs:184-190 | The fetch an answer is for, taken out |
| FetchTable.Selection.HandleNotify | src/bridge/x11/conn.rs:1596-1672 | What the connection does with a SelectionNotify |
| FetchTable.Selection.IncrPush | src/bridge/x11/selection.rs:214-234 | One chunk: more, done with the whole value, or too big |
| FetchTable.Selection.NextDeadline | src/bridge/x11/selection.rs:172-176 | The earliest deadline of all that waits, none if nothing does |
| ClipJobs.RunsAnswerOnce | src/bridge/wayland/data_control/mod.rs:301-410 | Over every run of post, sweep, take, run, pump and shutdown: each conversion is held or answered, once; not running means an empty queue, at most 64 wait; a value is delivered only after the end of its pipe |
| ClipJobs.SweepingKeepsOrder | src/bridge/clipjobs.rs:132-146 | A sweep drops only conversions out of time; the rest keep their order |
| ClipJobs.PumpCollects | src/bridge/wayland/data_control/mod.rs:204-235 | A pass over a pipe gathers exactly the bytes read, in order, up to the first end, error or limit |
| ClipJobs.Jobs.PostJob | src/bridge/clipjobs.rs:170-220 | A post: refused when stopped or full, after the expired are swept |
| ClipJobs.Jobs.Sweep | src/bridge/clipjobs.rs:229-238 | The expired conversions taken out |
| ClipJobs.Jobs.Take | src/bridge/clipjobs.rs:266-268 | The whole queue taken |
| ClipJobs.Jobs.SetRunning | src/bridge/clipjobs.rs:273-291 | Stopping drops what is queued |
| ClipJobs.Jobs.DrainExpired | src/bridge/clipjobs.rs:132-146 | The queue rebuilt without its expired conversions |
| ClipJobs.PendingReceive.PumpPipe | src/bridge/wayland/data_control/mod.rs:204-235 | One pass over the pipe |
| BlitTheorems.BlitIsThePixelMap | src/bridge/capture.rs:201-349 | For all transforms, sizes, offsets, channel maps and both modes: after a blit of a full-size source, each source pixel's colour is where its transform puts it |
| BlitTheorems.OutsideIsUntouched | src/bridge/capture.rs:201-349 | and no pixel outside the transformed rectangle has changed |
| BlitTheorems.LandsInItsRectangle | src/util/transform.rs:52-80 | A full-size source lands, on the screen, on exactly the pixels of its transformed rectangle |
| BlitTheorems.PathsAgree | src/bridge/capture.rs:201-349 | The row path and the walked path agree on every colour byte, with damage computed or not |
| BlitTheorems.PathsDisagreeOnPadding | src/bridge/capture.rs:241-268 | but not on the fourth byte, which the native row copy takes from the source and the walk forces to 0xff |
| BlitTheorems.HullIsTight | src/bridge/capture.rs:343-348 | The walked blit's box covers each pixel whose colour changed, touches one on each side, and is there exactly if one did |
| BlitTheorems.RowBoxCovers | src/bridge/capture.rs:277-282 | The row blit's box covers each pixel that changed, its first and last rows hold a change, and it is there exactly if one did |
| BlitTheorems.DamageLosesNothing | src/bridge/capture.rs:85-131 | Whatever colour a blit changes is inside the box it reports, on screens within MAX_SCREEN |
| BlitTheorems.ReadsSeeTheBlit | src/bridge/capture.rs:150-195 | A read after a blit shows, in its whole rows, the colours the source put on the screen |
| Capture.Framebuffer.BlitDiff | src/bridge/capture.rs:85-131 | A blit: every byte of the framebuffer after it, and the box reported |
| Capture.Framebuffer.BlitRows | src/bridge/capture.rs:201-283 | The row blit: every byte after it, and the box of rows that change |
| Capture.Framebuffer.BlitTransformed | src/bridge/capture.rs:291-349 | The walked blit: every byte after it, and the hull of the pixels that change colour |
| Capture.Framebuffer.WalkRow | src/bridge/capture.rs:319-342 | One source row walked along its line |
| Capture.Framebuffer.CopyRow | src/bridge/capture.rs:241-247 | One row compared and copied in native order |
| Capture.Framebuffer.ShuffleRow | src/bridge/capture.rs:248-273 | One row shuffled from a foreign order |
| Capture.Framebuffer.ReadRectInto | src/bridge/capture.rs:150-195 | A rectangle read into whole rows, zero off the screen, the rest of the destination as it was |
| BlitTheorems.WritesEveryByteIff | src/bridge/capture.rs:142-183 | A read into `size` bytes writes every one, as documented, exactly if they are a whole number of rows that the image has |
| BlitTheorems.SharedIsFilledIff | src/bridge/x11/conn.rs:620-637 | So a client that shares less room than the image gets all of it written exactly if it is whole rows |
| BlitTheorems.SharedCanBeLeft | src/bridge/x11/conn.rs:620-637 | An image of two rows of two pixels into 12 bytes of shared memory: the last four are left as they were |
| Capture.Framebuffer.Ensure | src/bridge/capture.rs:57-65 | The framebuffer resized and cleared, or left alone |
| Capture.RecolouredIsChanged | src/bridge/capture.rs:327-336 | A pixel is reported exactly if its colour bytes differ before and after |
| Capture.WireIsExact | src/bridge/capture.rs:343-348 | On screens within MAX_SCREEN the box survives the casts to 16 bits |
| PixelTransform.PointIsOneToOne | src/util/transform.rs:52-80 | Each transform is one-to-one from the buffer onto the transformed rectangle |
| PixelTransform.RectIsItsPoints | src/util/transform.rs:52-80 | A rectangle lands as the rectangle of its pixels |
| PixelTransform.RowsAreLines | src/util/transform.rs:77-80 | A buffer row lands as a line of one fixed step |
| PackAxis.Pack | src/bridge/x11/randr.rs:581-610 | The loop over the outputs in order of start, against the placement of one after another |
| PackAxis.PackingIsUnique | src/bridge/x11/randr.rs:362-390 | The packing, declared edge by edge with no order of outputs, has one solution |
| PackAxis.PlaceKeepsPacking | src/bridge/x11/randr.rs:594-607 | Placing an output no earlier than those before it keeps the packing |
| PackAxis.BoundsPack | src/bridge/x11/randr.rs:581-610 | The loop's edges are that packing |
| PackAxis.StartsAreEdges | src/bridge/x11/randr.rs:581-610 | and each output's start is its edge's place |
| PackTheorems.StartsAreNonNegative | src/bridge/x11/randr.rs:581-610 | No start is negative; the leftmost is 0 |
| PackTheorems.NeighboursDoNotOverlap | src/bridge/x11/randr.rs:362-371 | An output that starts at another's logical end starts at or after its physical end |
| PackTheorems.ListingOrderIsIrrelevant | src/bridge/x11/randr.rs:581-610 | The starts do not depend on the order in which outputs are listed |
| PackTheorems.AlignedColumnsPack | src/bridge/x11/randr.rs:362-371 | Where spans are equal or disjoint, equal columns get equal starts and disjoint ones disjoint spans, in order |
| PackTheorems.GapsAreKept | src/bridge/x11/randr.rs:362-371 | A gap is as wide physically as logically |
| PackTheorems.FollowersClearIff | src/bridge/x11/randr.rs:362-371 | Aligned or not, outputs stay clear of those they follow exactly if no chain of outputs and gaps to an output's end is physically longer than every chain to a start that logically follows it |
| PackTheorems.PlaceIsAChain | src/bridge/x11/randr.rs:591-608 | An edge is placed at the physical length of a chain of outputs and gaps from the leftmost edge |
| PackTheorems.ChainsAreNoLonger | src/bridge/x11/randr.rs:591-608 | and no chain to it is longer |
| PackTheorems.UnscaledPacksAsItIs | src/bridge/x11/randr.rs:362-371 | Unscaled outputs are packed as they are logically, aligned or not |
| PackTheorems.StaggeredColumnsOverlap | src/bridge/x11/randr.rs:362-371 | Scaled ones that are not aligned can overlap |
| ScreenRollback.RollbackIsComplete | src/bridge/x11/randr.rs:235-302 | From a settled screen, after any client requests the compositor did not grant, restoring gives back every position, size and the screen size, each output at a mode of its real size; again changes nothing and says so |
| ScreenRollback.RestoreSettles | src/bridge/x11/randr.rs:257-302 | Restoring settles any screen of Wayland outputs |
| ScreenRollback.RestoringSettledIsNothing | src/bridge/x11/randr.rs:257-302 | Restoring a settled screen changes nothing and returns false |
| ScreenRollback.RunsKeepDevices | src/bridge/x11/conn.rs:1372-1440 | No client requests change which outputs there are, their sizes or their logical layout |
| ScreenRollback.LayoutFollowsDevices | src/bridge/x11/randr.rs:372-390 | Positions are a function of the outputs' logical and physical sizes alone |
| ScreenRollback.RestoreReportsIff | src/bridge/x11/randr.rs:265-302 | Restoring returns true exactly if some output was not at a mode of its size, or the outputs in place do not bound to the screen's size |
| ScreenRollback.MovesAreUndoneSilently | src/bridge/x11/randr.rs:265-302 | A CRTC moved by a client is put back with false returned, though its documentation says whether anything changed |
| ScreenTheorems.RunsStayTidy | src/bridge/x11/randr.rs:412-536 | Over every run of compositor changes, granted modes and modes that clients make and list: the screen stays settled, and each native mode is the one some output is at. What clients otherwise do is met by `RollbackIsComplete` and `ReportsSettle` |
| ScreenTheorems.FirstReportTidies | src/bridge/x11/randr.rs:412-523 | The first report replaces the synthetic output |
| ScreenTheorems.ReportsSettle | src/bridge/x11/randr.rs:412-523 | A report that changes anything settles the screen, whatever clients did to its output, if the other outputs are at modes they list |
| ScreenTheorems.AdoptionSettles | src/bridge/x11/randr.rs:308-337 | Adopting a client's mode moves nothing and keeps the screen settled |
| ScreenTheorems.GrantedModeIsReadBack | src/bridge/x11/conn.rs:1473-1482 | and the mode read back is the one the client asked for |
| ScreenTheorems.RemovalSettles | src/bridge/x11/randr.rs:525-536 | An output that goes leaves the rest settled |
| ScreenTheorems.PruneKeepsIff | src/bridge/x11/randr.rs:130-134 | A mode survives pruning exactly if a client made it or an output lists it |
| ScreenTheorems.CleanMeansInUse | src/bridge/x11/randr.rs:127-134 | No native mode is left that no output is at |
| ScreenModel.Screen.ConfigureCrtc | src/bridge/x11/randr.rs:235-255 | A CRTC reconfigured in the model, as the transition the theorems are about |
| ScreenModel.Screen.RestoreOutputs | src/bridge/x11/randr.rs:266-302 | The loop that puts the outputs back, as the transition the theorems are about |
| ScreenModel.Screen.AdoptMode | src/bridge/x11/randr.rs:308-337 | The CRTC switched to the client's mode, as the transition the theorems are about |
| ScreenModel.Screen.RecomputeBounds | src/bridge/x11/randr.rs:341-361 | The loop for the screen's bounds, as the transition the theorems are about |
| ScreenModel.Screen.RelayoutPhysical | src/bridge/x11/randr.rs:372-390 | Every output moved to its packed place, as the transition the theorems are about |
| ScreenModel.Screen.SyncWaylandOutput | src/bridge/x11/randr.rs:412-523 | A compositor report taken in, as the transition the theorems are about |
| ScreenModel.Screen.RemoveWaylandOutput | src/bridge/x11/randr.rs:525-536 | An output taken away, as the transition the theorems are about |
| ScreenModel.Screen.DropMode | src/bridge/x11/randr.rs:150-155 | A mode destroyed, on every list, as the transition the theorems are about |
| ScreenModel.Screen.NewMode | src/bridge/x11/randr.rs:115-125 | A client's mode created, as the transition the theorems are about |
| ScreenModel.Screen.ListMode | src/bridge/x11/randr.rs:136-142 | A mode listed once, as the transition the theorems are about |
| ScreenModel.Screen.UnlistMode | src/bridge/x11/randr.rs:144-148 | A mode unlisted, as the transition the theorems are about |
| ScreenModel.Screen.Resize | src/bridge/x11/randr.rs:392-396 | The size clamped and set, as the transition the theorems are about |
| ScreenModel.Screen.PruneModes | src/bridge/x11/randr.rs:130-134 | Unlisted native modes dropped, as the transition the theorems are about |
| PointerLayout.PointerFollowsTheOutput | src/util/layout.rs:56-85 | On an aligned grid as packed, a point of an output's physical rectangle maps inside that very output's logical rectangle |
| PointerLayout.InsideMapsInside | src/util/layout.rs:56-85 | A point maps inside the logical rectangle of the first output that holds it, at the scaled offset, and the last clamp changes nothing |
| PointerLayout.OrderIsKept | src/util/layout.rs:73-79 | Within an output, order is kept on each axis |
| PointerLayout.EveryUnitIsReached | src/util/layout.rs:73-76 | Where an output has at least as many pixels as logical units, every unit can be pointed at |
| PointerLayout.GapsMapToTheNearest | src/util/layout.rs:66-72 | Any other point maps inside the logical rectangle of the nearest output |
| PointerLayout.PackedGridTiles | src/bridge/x11/randr.rs:362-390 | On an aligned grid no point is in two outputs |
| PointerLayout.BoundsHoldOutputs | src/util/layout.rs:36-52 | Every output lies inside the layout's bounds |
| ResolutionRuns.EachTakenIsCompletedOnce | src/bridge/dynres.rs:89-185 | In every run: each request taken is completed exactly once, in order, but for the one in hand; none is queued while one is in flight |
| ResolutionRuns.OutcomesAreTruthful | src/bridge/wayland/output_config.rs:294-520 | In every run: at most six configurations are applied for a request, and success is reported only if the model showed the requested size |
| ResolutionRuns.WaitersGetTheirOwn | src/bridge/dynres.rs:112-132 | In every run: a client gets only its own request's outcome, and a withdrawn request is never taken |
| ResolutionRuns.OutcomeIsThereIff | src/bridge/dynres.rs:108-132 | In every run: a client that still waits, and whose request has been completed, finds its outcome exactly if no request has been parked since its own |
| ResolutionRuns.OutcomeCanBeDiscarded | src/bridge/dynres.rs:114-114 | and a second client that parks before the first has looked discards it |
| ResolutionRuns.StepsHold | src/bridge/wayland/output_config.rs:212-520 | Every step, of X threads and of the Wayland thread, keeps what those rest on |
| ResolutionRuns.AnswerHolds | src/bridge/wayland/output_config.rs:470-520 | An answer ends the request truthfully or keeps its tally: configurations applied plus attempts left is attempts planned plus cancellations |
| ResolutionRuns.AdvanceHolds | src/bridge/wayland/output_config.rs:294-332 | and so does a pass of the event loop |
| RetryTheorems.SilenceEnds | src/bridge/wayland/output_config.rs:294-332 | A compositor that never answers cannot hold a request: two passes past their deadlines end it |
| RetryTheorems.RequestsEnd | src/bridge/wayland/output_config.rs:294-520 | However passes, answers and cancellations follow one another, a request changes no more often than its weight before it ends |
| RetryTheorems.AnswerIsProgress | src/bridge/wayland/output_config.rs:470-520 | An answer that changes anything strictly lessens what a request can still do |
| RetryTheorems.AdvanceIsProgress | src/bridge/wayland/output_config.rs:294-332 | and so does a pass, always once the deadline is past |
| RetryTheorems.FreshRequestsAreLight | src/bridge/wayland/output_config.rs:174-197 | A new request can change at most 18 times |
| RetryTheorems.ConfigurationCoversHeads | src/bridge/wayland/output_config.rs:348-377 | A configuration names every head once, sets the size of the requested one alone, by its best mode, and keeps the rest as they are |
| RetryTheorems.ModeIsTheSizeOnScreen | src/bridge/wayland/output_config.rs:262-268 | The mode asked for, turned as the output is, is the requested size |
| OutputRetry.OutputConfig.Begin | src/bridge/wayland/output_config.rs:238-290 | A request resolved against outputs and heads, as the move the run theorems are about |
| OutputRetry.OutputConfig.MoveAlong | src/bridge/wayland/output_config.rs:294-332 | One pass over the active request, as the move the run theorems are about |
| OutputRetry.OutputConfig.ApplyNextAttempt | src/bridge/wayland/output_config.rs:335-393 | The next attempt applied, or the request failed, as the move the run theorems are about |
| OutputRetry.OutputConfig.Configure | src/bridge/wayland/output_config.rs:348-377 | The loop over the heads, as the move the run theorems are about |
| OutputRetry.OutputConfig.HandleAnswer | src/bridge/wayland/output_config.rs:470-520 | The compositor's answer, as the move the run theorems are about |
| OutputRetry.OutputConfig.HandleSerial | src/bridge/wayland/output_config.rs:544-547 | A serial, as the move the run theorems are about |
| OutputRetry.OutputConfig.HandleOutput | src/bridge/wayland/output_config.rs:411-420 | An output shown at a new size, as the move the run theorems are about |
| OutputRetry.OutputConfig.Finish | src/bridge/wayland/output_config.rs:442-457 | Success, as the move the run theorems are about |
| OutputRetry.OutputConfig.GiveUpOn | src/bridge/wayland/output_config.rs:459-467 | Failure, as the move the run theorems are about |
| RequestSlots.DynRes.TryPark | src/bridge/dynres.rs:95-114 | A request parked, while none is queued or in flight |
| RequestSlots.DynRes.TryCollect | src/bridge/dynres.rs:116-132 | A look by its waiter: outcome first, then deadline |
| RequestSlots.DynRes.TakeRequest | src/bridge/dynres.rs:166-174 | The parked request taken |
| RequestSlots.DynRes.CompleteRequest | src/bridge/dynres.rs:178-185 | The outcome left for its waiter |
| ClientOutbox.StreamIsTheRunningMax | src/bridge/event/client.rs:23-53 | For any stream of replies and stale events in reach: libxcb's widening of the 16-bit stamps is the running maximum of the true 64-bit counts |
| ClientOutbox.StampIsRightIff | src/bridge/event/client.rs:43-53 | One stamp is right exactly if its request is less than half the range ahead of the last, or not so far behind that it reads as ahead |
| ClientOutbox.StreamNeverOvertakes | src/bridge/event/client.rs:23-53 | However far ahead writes jump, the client never counts past a request it has sent, if none is more than half the range behind |
| ClientOutbox.LongSilenceMisstamps | src/bridge/event/client.rs:43-53 | A reply 2^15 or more requests after the last write carries the wrong sequence |
| OutboxRuns.WireIsWhatWasAccepted | src/bridge/event/client.rs:123-191 | In every run the bytes on the wire are a prefix of the buffers accepted, in order, and all of them once the writer has gone, unless the client was dropped |
| OutboxRuns.QueueStaysBounded | src/bridge/event/client.rs:149-168 | In every run the byte count is the sum of what is queued, over the cap only with a lone non-empty buffer |
| OutboxRuns.NothingAfterClose | src/bridge/event/client.rs:149-191 | Nothing is accepted once the outbox is closed |
| OutboxRuns.SentIsWritten | src/bridge/event/client.rs:203-236 | Whatever follows: a message whose send fails is never written, nor anything after it; one whose send succeeds is on the wire right after all accepted before it, once the writer has gone, unless the client was dropped |
| ClientOutbox.Client.PopNext | src/bridge/event/client.rs:126-133 | The next buffer to write |
| ClientOutbox.Client.Queue | src/bridge/event/client.rs:149-168 | A buffer queued, or the client dropped |
| ClientOutbox.Client.SendReply | src/bridge/event/client.rs:203-210 | A reply stamped and queued |
| ClientOutbox.Client.SendEvent | src/bridge/event/client.rs:214-228 | An event stamped with the request of the moment |
| ClientOutbox.Client.SetSeq | src/bridge/event/client.rs:238-240 | The request of the moment, which events are stamped with from then on |
| ClientOutbox.Client.Drop | src/bridge/event/client.rs:173-181 | The client dropped |
| ClientOutbox.Client.Close | src/bridge/event/client.rs:186-191 | The queue ended |
| ClientOutbox.Client.WriteSetup | src/bridge/event/client.rs:194-198 | The setup queued, unstamped |
| DamageTheorems.DamageIsToldAtEveryLevel | src/bridge/damage.rs:103-147 | At each of the four levels, over any run of damage, subtractions and resizes: each pixel damaged since the last subtraction is in an area the client was told of; at NonEmpty exactly for the pixels of the screen as it was at the first of that damage |
| DamageTheorems.OneEventPerRearm | src/bridge/damage.rs:137-143 | At NonEmpty, one event for the first damage since a subtraction and no more |
| DamageTheorems.BoxEventIffExtentsGrow | src/bridge/damage.rs:127-136 | At BoundingBox, one event exactly if damage reaches outside the extents so far, with the new extents |
| DamageTheorems.RawAndDeltaReportTheDamage | src/bridge/damage.rs:115-126 | At the raw and delta levels a pixel is reported exactly if it was damaged; so only what is newly damaged is reported exactly if none of it was damaged before |
| DamageTheorems.BboxIsExact | src/util/geometry.rs:33-50 | On screens within MAX_SCREEN the bounding box survives the casts to 16 bits |
| DamageTracking.ExtentsAreLeast | src/util/geometry.rs:33-50 | The extents hold every visible rectangle, and nothing smaller does |
| DamageTracking.FindBbox | src/util/geometry.rs:33-50 | The loop for the bounding box |
| DamageTracking.FeedingIsPerObject | src/bridge/damage.rs:113-146 | Each object is fed, and its client told, on its own |
| DamageTracking.DamageSink.AddDamage | src/bridge/damage.rs:103-147 | Damage fed to every live object, gone clients' dropped |
| DamageTracking.DamageSink.FeedOne | src/bridge/damage.rs:114-145 | One object fed, by its level |
| DamageTracking.DamageSink.Subtract | src/bridge/damage.rs:79-100 | An object's damage cleared and returned; a no-op at the raw level |
| DamageTracking.DamageSink.Create | src/bridge/damage.rs:45-58 | An object added with nothing accumulated |
| DamageTracking.DamageSink.Destroy | src/bridge/damage.rs:69-76 | What is left is every object but those of that client and id |
| DamageTracking.WithoutKeepsTheRest | src/bridge/damage.rs:69-76 | in the order it was in |
| DamageTracking.DamageSink.Active | src/bridge/damage.rs:61-67 | Active exactly if there is an object that damage would be fed to |
| KeymapDedup.Dedup | src/bridge/keymap.rs:112-134 | The two passes over the table, against its declared result |
| KeymapDedup.KeysThatStay | src/bridge/keymap.rs:112-134 | A key still gives a keysym exactly if it did and some key gives it at both Shift levels or this is the lowest that did; at the same levels |
| KeymapDedup.NoKeysymDisappears | src/bridge/keymap.rs:112-134 | No keysym disappears |
| KeymapDedup.BothIsKept | src/bridge/keymap.rs:105-109 | A keysym some key gives at both levels is untouched |
| KeymapDedup.DedupIsIdempotent | src/bridge/keymap.rs:112-134 | Doing it twice changes nothing more |
| KeymapDedup.SearchesAgree | src/bridge/keymap.rs:95-105 | For any other keysym, the search by column finds the lowest key that had it, the only one left |
| KeymapDedup.SearchFinds | src/bridge/keymap.rs:95-105 | The search by column finds every keysym the table had |
| KeymapDedup.SearchFindsBothIff | src/bridge/keymap.rs:105-109 | For a keysym given at both levels by some key, the search by column finds such a key exactly if no lower key has it unshifted alone |
| KeymapDedup.SearchCanMissBoth | src/bridge/keymap.rs:105-109 | which its documentation takes for granted, and need not be so |
| TermSignals.ParkedSignalsAreDelivered | src/main.rs:80-109 | However main and any number of handlers interleave: in the end the slot is empty, each parked signal was sent once or put over by a later one, and if any was parked one was sent |
| TermSignals.SendsNeverExceedParks | src/main.rs:233-250 | At every moment, what was sent from the slot had been parked there, no more often |
| TermSignals.StepsHold | src/main.rs:80-109 | Each atomic step of main or a handler keeps what those rest on |

## Left out

- BridgeRuns.BothSidesAgree: takes a transition and its publication in one step; publications of one selection that overlap are in `PublicationLocks` and `PublicationOrder` alone, which have no connections' fetches and no job queue of their own.
- A refusal does not always take the old source down: a foreign offer that overtakes our echo makes the bridge forget it (`EchoProtocol.RefusalWithdrawsIff`, `BridgeCases.WithdrawalCanBeSkipped`).
- ScreenTheorems.RunsStayTidy: has no client disables, moves, deletions or destructions in its runs; a client that takes a native mode off its output's list leaves it behind until the next report, as the code does.
- ConversionRuns.EachAskedIsAnsweredOnce: has no stop of the Wayland thread in its runs, nor has any other theorem of `ConversionRuns`; `ClipJobs.RunsAnswerOnce` has, for conversions alone.
- Selections that are not bridged, their owners and `set_owner`; the properties table; target and format conversion of values.
- Writing values out to Wayland clients (`PendingSend`), and the poll loop and eventfds around all pipes.
- Overflow of 32-bit coordinates and byte offsets in blits, packing and pointer mapping; outputs and captures are far smaller.
- A zero-sized output, on which the nearest-output search of `Layout::to_logical` would panic; the model clamps.
- PackAxis.Pack: the standard library's stable sort is modelled as an insertion sort.
- DamageTracking.DamageSink.Subtract: has no repair region, which the code takes and ignores.
- Mode names, refresh rates and millimetres of RandR outputs; exhaustion of the 32-bit ids.
- Rotation requests and the checks on CRTC requests that answer before the screen is touched.
- A failed spawn, a reaped child, and the exit path of a signal that comes before the spawn or after the child.
- Registry binding, seats, output power, shared memory, wire encoding, the rest of the X request dispatch, keymap compilation, configuration, profiling and logging.
- Bookkeeping of capture sessions, and the hook that patches the VNC server.
