# Hermo transcript synchronisation: a verified model

Hermo shows chats that run on a gateway. A Rust core folds the gateway's event stream into one
transcript per open chat and emits indexed row changes. Those changes are the only source of rows for
the app, which applies them to its own list. The socket drops and comes back, sends race with rebuilds,
and opens overlap. The project models that whole path, in Dafny, and proves what it keeps:

- **The reducer** (`Transcript`, `ReducerSpec`, `Reducer`, `ReducerInvariants`, `Projection`, `RowContent`): rows with
  two latches and a tool map that index into them. All indexing is in range on every run, rows never
  vanish or change kind between resets, one card carries each tool id, and each kind of row, read alone,
  is what a simple specification over its own events says, however the streams interleave.
- **The replica** (`Replica`, `Mirror`, `SystemMirror`): the app's list, driven by the changes alone,
  equals the core's rows rendered one by one, exactly as long as row indices fit 32 bits. Reordered
  delivery without a reset is harmless if each row keeps its own order.
- **The core** (`CoreSpec`, `CoreState`, `Resume`, `Routing`, `Records`, `SubmitRace`, `Approvals`,
  `Registry`): the sections that run under the core's lock, as steps that interleave freely. Events reach
  their owner and its record, watermarks agree with the registry, a send lands only in the session it was
  submitted into, an answer resolves its card, and a pending card is re-emitted exactly when it is missing
  and at most once per open tab.
- **Reconnect** (`Reconnect`, `PhaseMirror`): when a resume rebuilds a chat and when it fills the gap, what
  it leaves of each chat, and the app through the whole phase.
- **Gap fill** (`GapFill`): the gateway's log and the core over a socket that drops any number of times,
  with rebuilds and re-opens on the way, end up where an uninterrupted run since the last build would,
  when every replay is clean, and exactly then each event counts once.
- **The app** (`SessionTabs`, `AppSpec`, `App`, `Parking`, `AppMirror`, `OpenedHistory`, `AppMoves`,
  `RowCache`): the tab state machine, what each action moves, the parking of changes for sessions whose open
  is still in flight, the core and the app run together, how much of a history survives parking, and the
  incremental row parser.
- **The two markdown splitters** (`Markdown`, `SwiftMarkdown`, `TwinSplitters`, `LineReading`): each returns
  the one segmentation of a text; where the twins agree is stated as an if-and-only-if.
- **The call table** (`CallSpec`, `CallTable`): JSON-RPC calls, replies, timeouts and closes in any
  interleaving.

State that the source updates in place is a class here (`Reducer`, `CoreState`, `SessionRegistry`,
`GatewayState`, `AppFeature`, `TranscriptRows`, `Splitter`, `Shared`). Its methods are proved equal to
functions on values, and the properties are lemmas about those functions over every state or every run.

The claims below hold for the code as it is. Where the code falls short of what its comments say, a
lemma gives a concrete input and another states exactly when the promise holds:

- Gap fill shows events twice, since the watermark is never compared: when a frame is still on the wire
  as the replay is read (`GapFill.OverlapDoublesTheText`), when a lag keeps frames of the chat on the wire
  while it catches up (`GapFill.LagDoublesTheText`), when a chat was built from a history and no event has
  arrived before the resume (`GapFill.ReopenThenDropShowsTwice`, and without any drop for a chat opened
  while the resume phase of its socket runs, `GapFill.OpenDuringResumeShowsTwice`), and when a history
  covers frames still on the wire. When exactly it does not: `GapFill.CountedOnceIff`,
  `GapFill.RowsAgreeIff`.
- A chat opened under a key the app does not know yet loses the oldest rows of its history when, from its
  first row on, more than 512 changes of such chats arrive before it is registered, its own or those of
  overlapping opens. Exactly when: `OpenedHistory.HistoryShowsIffItsRowsFit` while only changes arrive,
  `OpenedHistory.HistoryShowsIff` with any other actions on the way.
- A gateway restart goes unnoticed by a chat whose record never learned a replay epoch, as none does from
  live events: its old rows and mark stay, and the new log's events up to that mark are never asked for
  (`Reconnect.UnlearnedRestartGoesUnnoticed`; when exactly it is caught: `Reconnect.RestartIsCaughtIff`).
- The first header event of a chat that was opened again or rebuilt blanks the title of its record if it
  names none, since the header starts empty (`Records.ReopenedTitleIsBlanked`, and exactly when:
  `Records.TitleIsBlankedIff`).
- A rebuild whose history was read before a submit, and which lands after the submitted row was appended,
  removes that row (`SubmitRace.LateHistoryLosesTheSend`; when exactly an accepted message lasts:
  `SubmitRace.AcceptedSendLastsIff`).
- Re-opening a chat without history leaves its old rows on show (`SystemMirror.OpenShowsIff`).
- A rebuild loses a re-emitted pending card for good (`Approvals.RebuildLosesTheCard`); it comes back if
  and only if this tab never re-emitted it (`Approvals.ComesBackIffNeverEmitted`).
- A close while `connect` still runs is undone (`CallProperties.ConnectReopens`), and a call that
  registers just after a close drained the table is not failed by it
  (`CallProperties.LateRegistrationOutlivesTheClose`); a close fails exactly the registered ones
  (`CallProperties.CloseFailsIffRegistered`).
- A second message start leaves the first row flagged as streaming
  (`ReducerInvariants.TwoStreamingRows`), and nothing else does (`StreamingFlags.StrayFlagIff`).
- A tool row of a history that carries no id is taken for a placeholder
  (`ReducerInvariants.IdlessHistoryCardIsTaken`); when, is read off the history
  (`ReducerInvariants.HistoryCardIsTakenIff`).
- The app flags every fenced block open, closed or not (`TwinSplitters.FlagsAgreeOnlyInAnOpenFence`), and
  does not split lines at CRLF although its comment says so: Swift reads CRLF as one character. The two
  cut the same lines if and only if there is no carriage return (`TwinSplitters.LinesAgreeIff`).
- Both splitters drop the empty lines at the start of a fence (`LineReading.LeadingEmptyLineIsLost`; what a
  block holds: `LineReading.BlockTextIsItsLines`).
- After closing the current tab the app never fetches the next tab's header: that branch is unreachable
  (`AppSpec.ClosingTheLastTabOpensAnother`).

`dafny verify dfyconfig.toml` checks the project with Dafny 4.11.

## Model

| member | source | states |
|---|---|---|
| ReducerObject.Reducer.OnMessageStart | hermes_core/src/transcript/reducer.rs:277-288 | a new streaming row is appended and latched, and the thinking streak ends; the new state is the specification's |
| ReducerObject.Reducer.OnMessageDelta | hermes_core/src/transcript/reducer.rs:580-602 | an empty delta is ignored; otherwise the text joins the latched row or starts one |
| ReducerObject.Reducer.OnMessageInterim | hermes_core/src/transcript/reducer.rs:295-321 | the latch is taken and its row sealed, keeping streamed text or taking the carried one |
| ReducerObject.Reducer.OnMessageComplete | hermes_core/src/transcript/reducer.rs:323-349 | a payload that is no object is ignored; the latched row's text is replaced and sealed |
| ReducerObject.Reducer.OnThinkingDelta | hermes_core/src/transcript/reducer.rs:351-363 | deltas of one streak join one row |
| ReducerObject.Reducer.OnToolGenerating | hermes_core/src/transcript/reducer.rs:365-383 | a placeholder card without id is appended |
| ReducerObject.Reducer.PendingGeneratingRow | hermes_core/src/transcript/reducer.rs:604-615 | the search from the end finds the last tool row of that name without an id |
| ReducerObject.Reducer.OnToolStart | hermes_core/src/transcript/reducer.rs:385-431 | restart of a known id, pairing with a placeholder, or a new card; each binds the id |
| ReducerObject.Reducer.OnToolProgress | hermes_core/src/transcript/reducer.rs:433-452 | the card's context is replaced in place, without a new row |
| ReducerObject.Reducer.OnToolComplete | hermes_core/src/transcript/reducer.rs:454-470 | the card bound to the id is completed in place |
| ReducerObject.Reducer.MergeHeader | hermes_core/src/transcript/reducer.rs:621-641 | non-empty header fields win, empty ones never blank a known value |
| ReducerObject.Reducer.Apply | hermes_core/src/transcript/reducer.rs:91-126 | an event without session changes nothing; every change carries the event's session key |
| ReducerObject.Reducer.Resolve | hermes_core/src/transcript/reducer.rs:128-161 | the first open card with the id is marked resolved, and only that row changes |
| ReducerObject.Reducer.ResetFromResume | hermes_core/src/transcript/reducer.rs:175-181 | rows, latches and map are wiped and one reset is emitted |
| ReducerObject.Reducer.IngestResumeMessages | hermes_core/src/transcript/reducer.rs:202-257 | a reset, then one appended row per history object, in list order, tools indexed by id |
| ReducerObject.Reducer.AppendUserRow | hermes_core/src/transcript/reducer.rs:267-273 | one user row at the end |
| ReducerObject.Reducer.ApplyCard | hermes_core/src/transcript/reducer.rs:658-685 | a pending card becomes an open approval row under its id |
| ReducerInvariants.RunWellFormed | hermes_core/src/transcript/reducer.rs:51-59 | on every run each row's index is its position, the streaming latch is the last assistant row and flagged streaming, the thinking latch the last thinking row, each map entry a tool row with that id |
| ReducerInvariants.PerformKeeps | hermes_core/src/transcript/reducer.rs:91-273 | each single entry point keeps that invariant |
| ReducerSpec.PerformInBounds | hermes_core/src/transcript/reducer.rs:339-354 | no entry point can index out of range |
| ReducerInvariants.PerformAnnounced | hermes_core/src/transcript/reducer.rs:91-126 | between resets an operation changes at most one row and announces exactly that one, at its index; nothing changes silently |
| ReducerInvariants.RunEvolves | hermes_core/src/transcript/reducer.rs:130-161 | over every run without a reset rows never vanish, move or change kind, and resolved never reverts |
| ReducerInvariants.OneCardPerId | hermes_core/src/transcript/reducer.rs:385-431 | from an empty reducer or histories with distinct ids, an id is on one row, and the map finds exactly that row |
| ReducerInvariants.DistinctMeansInverse | hermes_core/src/transcript/reducer.rs:395-413 | with distinct ids on the rows the tool map is exactly their inverse, both directions |
| ReducerInvariants.PerformKeepsDistinct | hermes_core/src/transcript/reducer.rs:385-431 | every operation but an ingest keeps ids distinct |
| ReducerInvariants.IngestDistinctIff | hermes_core/src/transcript/reducer.rs:202-257 | a rebuilt transcript has distinct ids if and only if its history has |
| ReducerInvariants.StartTakesNewestPlaceholder | hermes_core/src/transcript/reducer.rs:604-615 | a start with a new id takes the newest unpaired placeholder of its name and no other row |
| ReducerInvariants.CompletionLandsOnStart | hermes_core/src/transcript/reducer.rs:454-470 | whatever happens in between short of a reset, a completion lands on the card its start bound |
| ReducerInvariants.StartedShowsCompleteIff | hermes_core/src/transcript/reducer.rs:604-615 | a start with a new id leaves its card marked complete if and only if the newest id-less card of the name was |
| ReducerInvariants.HistoryCardIsTakenIff | hermes_core/src/transcript/reducer.rs:611-615 | right after a rebuild that happens if and only if the history holds a tool message of that name without an id |
| ReducerInvariants.IdlessHistoryCardIsTaken | hermes_core/src/transcript/reducer.rs:611-615 | one such history: the start binds its card and leaves it marked complete |
| ReducerInvariants.TwoStreamingRows | hermes_core/src/transcript/reducer.rs:277-288 | two starts in a row leave two rows flagged streaming |
| RowContent.HistoryIsShown | hermes_core/src/transcript/reducer.rs:202-257 | after a rebuild the i-th object of the history is row i, with every field of it as the message says, for each role; header and latches start anew |
| RowContent.NoticeIsShown | hermes_core/src/transcript/reducer.rs:472-578 | a status, an approval, a question or an error becomes one row at the end with just what the event brought; without a kind, a request id or a question, and for a heartbeat, nothing happens |
| RowContent.NamesAreParsed | hermes_core/src/transcript/model.rs:74-85 | parsing a status kind loses nothing: its wire name is what was parsed |
| RowContent.SilentIffIgnored | hermes_core/src/transcript/reducer.rs:91-273 | an operation announces nothing if and only if it brings nothing to show, and then it leaves rows, header, latches and map alone |
| RowContent.AnswerResolves | hermes_core/src/transcript/reducer.rs:130-161 | an answer marks the first waiting card of its id as resolved, keeps its every other field and every other row, and announces that row; without one nothing happens |
| RowContent.AnswerTakesOne | hermes_core/src/transcript/reducer.rs:130-161 | so one card fewer waits under that id and kind, if any did, and no other count moves |
| Projection.LastCommutes | hermes_core/src/transcript/reducer.rs:604-615 | searching a class of rows finds in the reading the rank of what it finds in the transcript |
| Projection.FirstCommutes | hermes_core/src/transcript/reducer.rs:617-620 | the same for searches from the front |
| Projection.StepAgrees | hermes_core/src/transcript/reducer.rs:277-470 | one operation moves the transcript's four readings exactly as their specifications say |
| Projection.RunProjects | hermes_core/src/transcript/reducer.rs:277-349 | after any interleaved run the assistant, thinking, tool and notice rows, each in order, are those of specifications that see only their own operations |
| Projection.HeaderShowsTheLatest | hermes_core/src/transcript/reducer.rs:552-641 | after any run each header field is the latest non-empty value sent since the last rebuild |
| StreamingFlags.StrayFlagIff | hermes_core/src/transcript/reducer.rs:277-288 | a row stays flagged without being latched exactly when a message start finds the latch taken |
| StreamingFlags.AtMostOneStreams | hermes_core/src/transcript/reducer.rs:277-349 | on every run without such a start at most one row is flagged as streaming, the latched one |
| Projection.InterleavingIsIrrelevant | hermes_core/src/transcript/reducer.rs:365-470 | two runs with the same message operations show the same assistant rows, and with the same tool operations the same cards |
| Replica.ApplyChange | ios/Sources/HermoLogic/TranscriptState.swift:70-86 | the padding loop computes the indexed write: pad with blanks, overwrite one row, reject negative indices |
| Replica.ReceiveAllConcat | ios/Sources/HermoLogic/TranscriptState.swift:70-86 | receiving two batches in turn is receiving their concatenation |
| DeliveryOrder.RowSettles | ios/Sources/HermoLogic/TranscriptState.swift:65-86 | what a reset-free delivery leaves at each row: its own last change, or what was there, or a blank |
| DeliveryOrder.ReorderingIsHarmless | hermes_core/src/core.rs:994-1020 | reset-free deliveries that agree row by row leave the same list, padding included |
| DeliveryOrder.WhatMayNotSwap | ios/Sources/HermoLogic/TranscriptState.swift:70-86 | two changes of one row, or a change and a reset, must keep their order |
| Mirror.ReplicaRefinesReducer | hermes_core/src/core.rs:230-257 | over every run the app's list is the core's rows rendered one by one, if and only if they fit the 32-bit index |
| Mirror.PerformMirrors | hermes_core/src/core.rs:230-257 | one operation keeps replica and transcript in step |
| Mirror.RebuildShows | hermes_core/src/transcript/reducer.rs:202-257 | the reset and the appends of a rebuild show the rebuilt transcript over any old list |
| Mirror.AnyDeliveryMirrors | hermes_core/src/core.rs:1752-1762 | from any transcript on show, a reset-free delivery that keeps each row's own order, whatever overtakes what, still shows the transcript |
| RegistryObject.SessionRegistry.Upsert | hermes_core/src/session_registry.rs:65-72 | a known record is replaced in place, a new one appended |
| RegistryObject.SessionRegistry.Close | hermes_core/src/session_registry.rs:75-82 | every record of the key goes, the active pointer with it, and the answer says whether there was one |
| RegistryObject.SessionRegistry.Touch | hermes_core/src/session_registry.rs:103-112 | the watermark only rises and an empty epoch keeps the stored one |
| RegistryObject.SessionRegistry.Position | hermes_core/src/session_registry.rs:94-100 | the first record with the key, or none |
| Registry.UpsertIsSeen | hermes_core/src/session_registry.rs:65-72 | a lookup afterwards sees the new record under its key and every other as before |
| Registry.TouchIsSeen | hermes_core/src/session_registry.rs:103-112 | a lookup afterwards sees the raised mark under that key only |
| Registry.CloseIsSeen | hermes_core/src/session_registry.rs:75-82 | a closed key is gone, every other record is as before |
| Registry.CloseUndoesUpsert | hermes_core/src/session_registry.rs:65-82 | closing a tab just added restores the record list |
| Records.DeliverRecords | hermes_core/src/core.rs:1734-1750 | an event moves its own chat's record exactly so: the mark is raised, the title becomes the header's if the event brought any header field, and all else stays; just then the app is told, with that title |
| Records.TitleIsBlankedIff | hermes_core/src/core.rs:1737-1750 | an event blanks the record's title if and only if it brings a header field but no title and the transcript knows none |
| Records.ReopenedTitleIsBlanked | hermes_core/src/core.rs:686-706 | a chat opened again under a saved title loses it to a first event that names a model only |
| Records.OpenRecords | hermes_core/src/core.rs:686-707 | an open renews its chat's record, keeping epoch, title and, unless it brings one, the profile; no other record moves, and the chat is active |
| Records.CloseForgets | hermes_core/src/core.rs:806-820 | a close leaves no transcript, record, noted card or active mark of its chat, and its live sid leads nowhere |
| Records.ClearForgets | hermes_core/src/core.rs:874-887 | a clear leaves nothing of any chat but the epoch counter |
| Records.ActiveIsOpenedLast | hermes_core/src/core.rs:932-948 | in every reachable state the active chat is the one opened last, unless it was closed or all cleared since |
| Records.ActiveIsRegistered | hermes_core/src/core.rs:932-948 | and it has a record, so a relaunch finds it |
| CoreObject.CoreState.OpenSession | hermes_core/src/core.rs:669-724 | a fresh session under the key: new epoch, rebuilt rows, sid indexed, record upserted and active |
| CoreObject.CoreState.CloseSession | hermes_core/src/core.rs:806-820 | session, its sid, its emitted cards and its record go |
| CoreObject.CoreState.ClearSessions | hermes_core/src/core.rs:874-887 | everything goes but the history epoch |
| CoreObject.CoreState.DeliverEvent | hermes_core/src/core.rs:1714-1763 | the routed session's reducer, watermark and record follow the event; unroutable events are dropped |
| CoreObject.CoreState.BeginSend | hermes_core/src/core.rs:968-993 | the snapshot entitles to one row: finishing with it at once appends exactly one, with any other epoch or without a session nothing |
| CoreObject.CoreState.FinishSend | hermes_core/src/core.rs:994-1013 | the row is appended only if the epoch still stands |
| CoreObject.CoreState.RepointLiveSid | hermes_core/src/core.rs:1913-1926 | the old sid is dropped and the new one indexed |
| CoreObject.CoreState.RebuildSession | hermes_core/src/core.rs:1882-1909 | new epoch, rows from history, both watermarks restarted |
| CoreObject.CoreState.ReemitCard | hermes_core/src/core.rs:1989-2036 | one card of a round: dedupe, append, note |
| CoreObject.CoreState.ReplayThroughFanOut | hermes_core/src/core.rs:1855-1863 | one session's replayed events take the live path, in order |
| CoreObject.CoreState.ResumeSession | hermes_core/src/core.rs:1830-1869 | repoint, then rebuild or fill the gap |
| CoreObject.CoreState.ResumeAll | hermes_core/src/core.rs:1804-1872 | every listed session in turn; one without an answer is skipped |
| CoreObject.CoreState.ReemitRound | hermes_core/src/core.rs:1963-2036 | one re-emission round over a pending list |
| CoreObject.CoreState.ReemitAll | hermes_core/src/core.rs:1963-1988 | one round per open session |
| CoreObject.CoreState.ResumePhase | hermes_core/src/core.rs:1804-1872 | every session resumed, then the pending cards |
| CoreObject.CoreState.CatchUpAll | hermes_core/src/core.rs:1930-1958 | after a lag the missed events of every registered session that answers |
| CoreSpec.DoSound | hermes_core/src/core.rs:342-365 | no section can break a transcript's invariant |
| Routing.OthersUntouched | hermes_core/src/core.rs:420-446 | a step leaves transcript, watermark, sid, epoch, emitted cards and record of every session but its target |
| Routing.DtosCarryTheOwner | hermes_core/src/core.rs:1752-1762 | every delivered change carries the durable key of the session it belongs to |
| Routing.EventReachesOwner | hermes_core/src/core.rs:439-444 | an event does to its owner's transcript exactly what the reducer says, raises its live watermark to the event's seq, and leaves routes and epochs |
| Routing.EveryChatRoutes | hermes_core/src/core.rs:420-446 | with a gateway that gives no sid to two chats, in every reachable state an open chat's sid and key both route to it |
| Routing.RouteIff | hermes_core/src/core.rs:431-442 | an event goes where the index sends its sid, or else to the chat of that durable key, and only to an open chat |
| Routing.StepRoutes | hermes_core/src/core.rs:1913-1926 | exactly how each step moves the sid index: given, dropped with the chat that lived under it, or kept |
| Routing.OldSidIsSilent | hermes_core/src/core.rs:806-820 | after a close or a repoint, events under the old sid reach no chat over any run, until the sid is given out again |
| Routing.SharedSidMisroutes | hermes_core/src/core.rs:684-685 | without that, the first chat's events land in the second and closing the second cuts the first off |
| Watermarks.StepMarks | hermes_core/src/core.rs:1734-1736 | exactly how each step moves a session's live watermark and its record's |
| Watermarks.WatermarksAgree | hermes_core/src/core.rs:697-706 | in every reachable state a live session is registered, its mark is the running maximum of what was delivered, its record's that of what was delivered or acknowledged, and it is never ahead |
| Watermarks.NeverBackwards | hermes_core/src/core.rs:1896-1900 | neither mark falls except at an open or rebuild of that session |
| SubmitRace.StepEpochs | hermes_core/src/core.rs:674-680 | the epoch counter moves at each open and rebuild, of an open chat or not, and at nothing else; a step keeps a session's epoch, or the session is gone or has the new one |
| SubmitRace.RunFresh | hermes_core/src/core.rs:1888-1895 | epochs of open sessions are pairwise distinct in every reachable state |
| SubmitRace.SendAppendsIffSameIncarnation | hermes_core/src/core.rs:971-1013 | over every interleaving a send appends its row, at the end and under its key, if and only if no open, rebuild, close or clear hit that chat since it began |
| SubmitRace.NoSubmissionTwice | hermes_core/src/core.rs:1466-1495 | over every interleaving of sends, rebuilds, closes and re-opens, with histories that show a message at most once, no submission has two rows |
| SubmitRace.AcceptedSendShowsOnceIff | hermes_core/src/core.rs:994-1013 | an accepted new message is on the chat exactly once if and only if nothing disturbed the chat or the history that last did shows it; otherwise not at all |
| SubmitRace.AcceptedSendLastsIff | hermes_core/src/core.rs:968-1013 | and after any further run it is there once if and only if it was there and nothing disturbed the chat since, or the history that last did shows it; otherwise not at all |
| SubmitRace.LateHistoryLosesTheSend | hermes_core/src/core.rs:1882-1909 | a rebuild from a history read before the submit, landing after the row was appended, removes it |
| Approvals.ReemitIffMissing | hermes_core/src/core.rs:1989-2036 | a card is delivered if and only if it has an id, its chat is open, this tab did not re-emit it and no row with its id waits for an answer; then it is appended open, delivered as that row and noted, and otherwise nothing happens |
| Approvals.ReemitKeepsOneWaiting | hermes_core/src/core.rs:2005-2020 | a re-emission adds a waiting card only where none of its id waits, so one of an id stays at most one |
| Approvals.AnswerReachesTheCard | hermes_core/src/core.rs:1044-1100 | an accepted answer resolves the first waiting card of its id, changes and delivers that row alone, and does nothing without one |
| Approvals.AnswerTakesOneCard | hermes_core/src/core.rs:1044-1100 | one waiting card of that id and kind fewer in its chat, if there was one |
| Approvals.StepRemembers | hermes_core/src/core.rs:806-820 | a card is noted after a step if and only if the step re-emitted it, or it was noted and the step neither closed the chat nor cleared |
| Approvals.RemembersIff | hermes_core/src/core.rs:1989-2036 | in every reachable state a card is noted if and only if it was re-emitted since its chat was last closed or all cleared |
| Approvals.ComesBackAfterClose | hermes_core/src/core.rs:806-820 | a card that still pends is emitted again once its tab was closed and opened, from any history |
| Approvals.AtMostOnceWhileOpen | hermes_core/src/core.rs:1989-2036 | over any run that does not close the tab an id is re-emitted at most once |
| Approvals.RoundIsIdempotent | hermes_core/src/core.rs:1989-2036 | a round repeated with the same list changes and delivers nothing |
| Approvals.RebuildLosesTheCard | hermes_core/src/core.rs:1882-1909 | after a rebuild, whatever epoch it learns, the re-emitted card is gone and stays gone |
| Approvals.ComesBackIffNeverEmitted | hermes_core/src/core.rs:1882-1909 | after a rebuild a pending card is emitted again if and only if this tab never re-emitted it |
| Reconnect.ResumeRebuildsIff | hermes_core/src/core.rs:1836-1869 | a resumed chat is built from the history, marks at 0 and a new epoch, if and only if the answer is truncated or the stored replay epoch is neither empty nor the one in force; otherwise its rows are the old ones told the replay; in both cases what the record holds afterwards |
| Reconnect.RestartIsCaughtIff | hermes_core/src/core.rs:1838-1842 | a gateway restart under a new replay epoch is noticed if and only if the record had learned the old one |
| Reconnect.UnlearnedRestartGoesUnnoticed | hermes_core/src/core.rs:1734-1737 | a chat opened new that heard only live events does not notice it |
| Reconnect.ReplayTellsEach | hermes_core/src/core.rs:1855-1863 | a replay tells each open chat the events that route to it, in order, and raises both marks |
| Reconnect.ResumeAllReachesEach | hermes_core/src/core.rs:1804-1870 | with answers about their own chats, the phase does to each listed and answered chat what its resume alone would, in any order, and nothing to the others |
| Reconnect.CatchUpReachesEach | hermes_core/src/core.rs:1930-1958 | after a lag each listed chat is told just the events of its own answer |
| PhaseMirror.PhaseShowsTheCore | hermes_core/src/core.rs:1804-1872 | an app that showed the core before a resume phase and applies what it delivers shows the core after it |
| PhaseMirror.CatchUpShowsTheCore | hermes_core/src/core.rs:1930-1958 | the same through a catch-up |
| PhaseMirror.NoneMissingAfterPhase | hermes_core/src/core.rs:1963-2036 | after a resume phase no card of the pending lists is missing from its chat |
| SystemMirror.OpenShowsIff | hermes_core/src/core.rs:681-681 | re-opening a chat shows the new transcript if and only if there was a history or nothing on show |
| SystemMirror.AppShowsTheCore | ios/Sources/HermoLogic/TranscriptState.swift:70-86 | over every run of the whole core an app that takes each change shows each open chat as the core holds it, if and only if the rows fit the index |
| AppMirror.EveryTabShowsTheCore | ios/Sources/HermoLogic/TranscriptState.swift:34-86 | over every orderly run of core and app together, through unknown keys, parking, draining, tabs opened, restored and closed, each tab shows its chat as the core holds it, if and only if the rows fit the index |
| AppMirror.ActionKeepsShown | ios/Sources/HermoFeatures/AppFeature.swift:302-488 | no careful action of the app changes what it shows of a chat that is open in the core |
| OpenedHistory.HistoryShowsIff | ios/Sources/HermoFeatures/AppFeature.swift:561-755 | a chat opened from a history under a key not yet known, with any actions on the way that do not name it, and over any rows left of it: the registered tab shows the history if and only if all its changes are still parked, or the old rows make up for those that are not |
| OpenedHistory.HistoryShowsIffItsRowsFit | ios/Sources/HermoFeatures/AppFeature.swift:577-587 | without old rows: if and only if, from its first row on, at most 512 changes of unknown chats arrive |
| OpenedHistory.HistoryShowsIffItFits | ios/Sources/HermoFeatures/AppFeature.swift:561-587 | so a history delivered at once, with other opens' changes parked before and after, is shown if and only if it is empty or its rows and the unknown changes after it are at most 512 together |
| Gateway.GatewayState.NextSeqAndRecord | tools/fake_gateway/src/server.rs:185-201 | the next seq and a log entry, or nothing for a session that is gone |
| Gateway.GatewayState.EventsSince | tools/fake_gateway/src/server.rs:568-598 | exactly the newer entries, in order; an unknown session is reported truncated |
| Gateway.NewerIsTheRest | tools/fake_gateway/src/server.rs:576-598 | on a gap-free log the newer entries are the rest of the log |
| Gateway.RecordedIsNewer | tools/fake_gateway/src/server.rs:185-201 | what was just recorded is what is newer than the log before it, with the next seq, and comes last for every older watermark |
| GapFill.GapFillEqualsUninterrupted | hermes_core/src/core.rs:1830-1869 | from a chat built from any history, with an honest gateway, after any drops, reconnects, rebuilds, re-opens, sends, answers and steps of other chats, all replays and histories clean: rows, header, latches and both marks are those of a socket that never dropped since the last build |
| GapFill.OpenIsJustBuilt | hermes_core/src/core.rs:669-724 | every first open, from any history, on any log with any end of it on the wire, during the resume phase or after it, is a chat that theorem starts from |
| GapFill.RunBooked | hermes_core/src/core.rs:1804-1958 | on every clean run the chat shows a beginning of the log, each event once and in order, and its marks stand there from the first event on |
| GapFill.MarkTellsIff | hermes_core/src/core.rs:697-706 | the record's mark stands where the transcript does unless a history covered something and no event has arrived since |
| GapFill.SecondResumeIsSilent | hermes_core/src/core.rs:1830-1869 | after any gap fill, a second one changes and delivers nothing |
| GapFill.CountedOnceIff | hermes_core/src/core.rs:439-444 | after a resume, catch-up, rebuild or re-open, or a resume phase that passed over the chat, each event is shown or on the wire once if and only if the action was exact: no frame of the chat on the wire, or kept by a lag, and the mark where the transcript stands; a history, or a transcript passed over, that covers just what is not on the wire |
| GapFill.RowsAgreeIff | hermes_core/src/core.rs:1830-1869 | an exact action leaves the transcript as if the events due had been delivered, whatever they are; for logs of events that add rows the rows agree if and only if it was exact |
| GapFill.HistoryIsReplayedOnTop | hermes_core/src/core.rs:674-706 | after any open or rebuild and before the next event, a resume replays the whole log on top of the history, clean only if that covered nothing |
| GapFill.ReopenThenDropShowsTwice | hermes_core/src/core.rs:674-706 | a chat opened from its history, dropped and resumed, shows the history and then the log once more |
| GapFill.OpenDuringResumeShowsTwice | hermes_core/src/core.rs:1509-1520 | a chat opened from its history while the resume phase runs, as at launch, is told the whole log over the history, with no drop |
| GapFill.LagDoublesTheText | hermes_core/src/core.rs:1628-1635 | a delta that a lag left on the wire is caught up and then delivered again |
| GapFill.OverlapDoublesTheText | hermes_core/src/core.rs:439-444 | a delta both replayed and still on the wire shows twice |
| SessionTabs.AddKeepsProper | ios/Sources/HermoLogic/SessionTabs.swift:21-33 | adding puts a new key at the end and never moves a known one, selecting moves none; the key is shown, and the strip stays proper |
| SessionTabs.CloseKeepsProper | ios/Sources/HermoLogic/SessionTabs.swift:35-48 | closing removes that key and no other, never indexes out of range, and shows another tab only if the shown one went |
| SessionTabs.CloseShows | ios/Sources/HermoLogic/SessionTabs.swift:35-48 | closing tab i takes it out; if it was shown its left neighbour is shown, or the next one if it was the first, or none |
| SessionTabs.CloseUndoesAdd | ios/Sources/HermoLogic/SessionTabs.swift:27-48 | closing a tab just added restores the strip |
| SessionTabs.TapSettles | ios/Sources/HermoLogic/SessionTabs.swift:68-71 | a tap acts if and only if it names another open tab, and then once |
| AppObject.AppFeature.Send | ios/Sources/HermoFeatures/AppFeature.swift:302-488 | every action's new session state and effect are the specification's |
| AppObject.AppFeature.DrainParked | ios/Sources/HermoFeatures/AppFeature.swift:733-755 | the parked changes of the key are applied in order, the others stay parked in order |
| AppObject.AppFeature.RegisterOpenedSession | ios/Sources/HermoFeatures/AppFeature.swift:704-711 | drain, register the tab, finish the open |
| AppObject.AppFeature.OnTranscriptChange | ios/Sources/HermoFeatures/AppFeature.swift:577-606 | a change for an unknown key is parked, oldest out beyond 512, or dropped with no open in flight |
| AppObject.AppFeature.OnRestored | ios/Sources/HermoFeatures/AppFeature.swift:307-322 | restored tabs in order, the planned current or the last one |
| AppObject.AppFeature.OnTabClosed | ios/Sources/HermoFeatures/AppFeature.swift:473-488 | the tab and its session go; the strip's current is shown |
| AppObject.AppFeature.PerformSwitchTab | ios/Sources/HermoFeatures/AppFeature.swift:628-634 | a tap on another open tab shows it and asks for its header |
| AppObject.AppFeature.FindTabForProfile | ios/Sources/HermoLogic/BotDrawer.swift:68-74 | the first tab of the strip with that profile, none for a blank one |
| AppSpec.TabStateHolds | ios/Sources/HermoFeatures/AppFeature.swift:307-488 | over all runs: distinct keys, shown key equal to the strip's current, absent exactly without tabs, a session for every tab, nothing parked without an open |
| AppSpec.ClosingTheLastTabOpensAnother | ios/Sources/HermoFeatures/AppFeature.swift:473-488 | a close asks for a new chat exactly when no tab is left, and never for the next tab's header |
| AppSpec.NoPhantomSession | ios/Sources/HermoLogic/TranscriptState.swift:34-55 | the app holds a session only for a key that some action opened or planned |
| AppSpec.NothingParkedForTabs | ios/Sources/HermoFeatures/AppFeature.swift:577-755 | over all runs nothing is parked for a tab |
| AppSpec.PlanIsRestored | ios/Sources/HermoLogic/SessionTabs.swift:51-54 | when every planned tab comes back at launch the strip is the saved one in order, and shows the last active tab, or the last one |
| AppMoves.CloseShowsNeighbour | ios/Sources/HermoFeatures/AppFeature.swift:473-488 | the app shows that neighbour too, and keeps the tab it shows when another is closed |
| AppMoves.StepInFlight | ios/Sources/HermoFeatures/AppFeature.swift:302-472 | exactly how each action moves the count of opens in flight |
| AppMoves.InFlightIsTheBalance | ios/Sources/HermoFeatures/AppFeature.swift:724-731 | in every run whose ends have their starts the count is opens started less opens ended, and at 0 nothing is parked |
| AppMoves.StepPending | ios/Sources/HermoFeatures/AppFeature.swift:302-340 | exactly how each action moves the keys being restored |
| AppMoves.StepTabKeys | ios/Sources/HermoFeatures/AppFeature.swift:307-488 | exactly how each action moves the strip: opened chats go to its end in order, a closed one is taken out |
| AppMoves.StepCurrent | ios/Sources/HermoFeatures/AppFeature.swift:307-472 | exactly which tab is shown after an open, a restore, a tap or a clear |
| AppMoves.StepSession | ios/Sources/HermoFeatures/AppFeature.swift:307-701 | exactly what each action makes of each chat's session: what was parked drained, the latest summary seeded, a blank profile filled, a fetched summary shown, a change applied, a close forgotten |
| AppMoves.StepEffect | ios/Sources/HermoFeatures/AppFeature.swift:343-606 | exactly when the app asks for a chat, a close, the summary of the tab it shows now, or a fresh header |
| AppMoves.ProfileTabIff | ios/Sources/HermoLogic/BotDrawer.swift:68-74 | a profile's tab is the first of the strip that shows it, and none for a blank one |
| Parking.ParkingIsTransparent | ios/Sources/HermoFeatures/AppFeature.swift:577-755 | parking until the key is known and then draining gives the same full state as knowing the key from the start |
| Parking.OverlappingOpensKeepTheirs | ios/Sources/HermoFeatures/AppFeature.swift:704-755 | an open that finishes leaves other opens' parked changes and sessions alone |
| Parking.DrainReplaysTheStream | ios/Sources/HermoFeatures/AppFeature.swift:733-755 | drained rows are those of a replica that received the changes in order |
| Parking.ParkKeepsTheNewest | ios/Sources/HermoFeatures/AppFeature.swift:577-587 | of any number of parked changes the newest 512 are kept, in order |
| RowCache.TranscriptRows.Of | ios/Sources/HermoLogic/TranscriptState.swift:101-124 | after any earlier lists the answer is that of parsing every non-empty row from scratch, ids strictly increasing |
| RowCache.IdsIncrease | ios/Sources/HermoLogic/TranscriptState.swift:88-99 | row ids are the indices of the non-empty texts, increasing, each with its own content, none missing |
| RowCache.GapFillKeepsIds | ios/Sources/HermoLogic/TranscriptState.swift:88-99 | filling a gap adds that row's id and moves no other |
| Fences.MarkerMeans | hermes_core/src/transcript/markdown.rs:91-110 | a line is a marker if and only if it is three or more of one fence character that recurs nowhere after them |
| LineReading.TrimMeans | hermes_core/src/transcript/markdown.rs:34-36 | trimming leaves just the text between the white space at both ends |
| LineReading.TrimmedByCoreOnlyAre | ios/Sources/HermoLogic/MarkdownBlocks.swift:46-48 | the seven characters that the core trims and the app does not |
| LineReading.MarkerLineReads | hermes_core/src/transcript/markdown.rs:35-44 | a run of fence characters, indented or not, is read as that marker and what follows as the language, both without the white space around them |
| LineReading.ShortRunReads | hermes_core/src/transcript/markdown.rs:91-110 | a run of fewer than three, or none, before other text is read as text |
| LineReading.CoreLinesMean | hermes_core/src/transcript/markdown.rs:34-34 | the core cuts at each line feed and drops it with a carriage return right before it |
| LineReading.AppLinesMean | ios/Sources/HermoLogic/MarkdownBlocks.swift:104-127 | the app cuts at each line feed and carriage return that stand alone, and keeps an empty last line |
| Markdown.SplitBlocks | hermes_core/src/transcript/markdown.rs:27-85 | the loop computes the specified blocks of a text |
| Markdown.SplitIsTheSegmentation | hermes_core/src/transcript/markdown.rs:16-26 | the blocks are those of the text cut into maximal plain stretches and fences up to their first closing line |
| Markdown.SegmentationIsUnique | hermes_core/src/transcript/markdown.rs:16-26 | there is only one such cut |
| Markdown.StreamingIsStable | hermes_core/src/transcript/markdown.rs:27-85 | more text after a line end leaves finished blocks, and the last one keeps its language and only grows |
| Markdown.NoTextIsLost | hermes_core/src/transcript/markdown.rs:27-85 | line feeds aside, the block texts are exactly the lines that are no delimiters |
| LineReading.BlockTextIsItsLines | hermes_core/src/transcript/markdown.rs:62-76 | in both splitters a block's text is its stretch's lines, delimiters aside, with one line feed between each two, from the first line that is not empty |
| LineReading.LeadingEmptyLineIsLost | hermes_core/src/transcript/markdown.rs:66-70 | a fence that starts with an empty line loses it |
| SwiftMarkdown.SplitLines | ios/Sources/HermoLogic/MarkdownBlocks.swift:104-127 | the loop cuts at single line ends and keeps an empty last line |
| SwiftMarkdown.FindFenceMarker | ios/Sources/HermoLogic/MarkdownBlocks.swift:86-102 | the counting loops find the same marker as the core's test |
| SwiftMarkdown.Splitter.TakeLine | ios/Sources/HermoLogic/MarkdownBlocks.swift:46-81 | one line moves the captured variables as specified, flush before the flags are reset |
| SwiftMarkdown.SplitBlocks | ios/Sources/HermoLogic/MarkdownBlocks.swift:21-84 | the loop computes the specified blocks of a text |
| TwinSplitters.TwinsAgree | ios/Sources/HermoLogic/MarkdownBlocks.swift:21-102 | on every list of lines read alike both give as many blocks with the same languages and texts |
| TwinSplitters.FlagsAgreeOnlyInAnOpenFence | ios/Sources/HermoLogic/MarkdownBlocks.swift:61-66 | the open flags agree on a block if and only if it is the last and its fence is not closed |
| TwinSplitters.AgreeOnLinesReadAlike | hermes_core/src/transcript/markdown.rs:34-84 | texts whose lines trim to the same marker and info string are split alike |
| TwinSplitters.OneLineTells | hermes_core/src/transcript/markdown.rs:34-41 | a line alone is split alike if and only if it is read alike |
| TwinSplitters.OrdinaryLinesReadAlike | ios/Sources/HermoLogic/MarkdownBlocks.swift:46-48 | every line without the seven characters only the core trims is read alike |
| TwinSplitters.FormFeedHidesTheFence | ios/Sources/HermoLogic/MarkdownBlocks.swift:46-48 | a form feed before a fence hides it from the app |
| TwinSplitters.WholeTextsAgreeIff | ios/Sources/HermoLogic/MarkdownBlocks.swift:104-127 | a text without carriage returns whose lines are read alike shows the same blocks in both if and only if it does not end in a line break after a closed fence or after some text in its last stretch |
| TwinSplitters.LinesAgreeIff | ios/Sources/HermoLogic/MarkdownBlocks.swift:104-127 | both cut a text into the same lines, the app's empty last one aside, if and only if it holds no carriage return |
| TwinSplitters.CrLfSplitsOnlyInTheCore | ios/Sources/HermoLogic/MarkdownBlocks.swift:104-127 | one text on which they differ: two lines for the core, one for the app |
| CallTable.Shared.Begin | hermes_core/src/rpc/client.rs:513-522 | a closed connection refuses with its reason, otherwise the call has a fresh id |
| CallTable.Shared.Register | hermes_core/src/rpc/client.rs:533-534 | the id enters the pending map |
| CallTable.Shared.Queue | hermes_core/src/rpc/client.rs:535-538 | a dead writer ends the call and withdraws its entry |
| CallTable.Shared.Await | hermes_core/src/rpc/client.rs:540-551 | one poll: the slot first, then the deadline |
| CallTable.Shared.Forget | hermes_core/src/rpc/client.rs:541-547 | a timed-out call withdraws its entry |
| CallTable.Shared.Reply | hermes_core/src/rpc/client.rs:683-696 | a reply takes the entry with its id and fills that call's slot |
| CallTable.Shared.RecordSeq | hermes_core/src/rpc/client.rs:761-771 | the per-session maximum, from 0 |
| CallTable.Shared.CloseTerminal | hermes_core/src/rpc/client.rs:253-265 | the first closer's reason sticks, and only it is told so |
| CallTable.Shared.FailPending | hermes_core/src/rpc/client.rs:269-274 | the drain answers every pending call and empties the map |
| CallTable.Shared.Shutdown | hermes_core/src/rpc/client.rs:573-578 | a local close marks the connection, unless it is closed already, and drains the table either way |
| CallTable.Shared.WriteFailed | hermes_core/src/rpc/client.rs:651-658 | a failed write drains only if it closed first |
| CallProperties.RunHolds | hermes_core/src/rpc/client.rs:513-552 | over every interleaving a returned call leaves no entry, a waiting one is pending or answered, and none ends in "connection lost" |
| CallProperties.LostIffUnanswered | hermes_core/src/rpc/client.rs:540-551 | a waiting call comes back as lost if and only if its entry is gone without an answer, which no reachable state holds |
| CallProperties.ReplyReachesOnlyItsCall | hermes_core/src/rpc/client.rs:683-696 | a reply completes only the pending call with its id; late, repeated and unknown ids change nothing |
| CallProperties.OneOutcomePerCall | hermes_core/src/rpc/client.rs:539-550 | what a call got never changes |
| CallProperties.EveryAnswerHasItsCause | hermes_core/src/rpc/client.rs:683-696 | every filled slot was filled by a reply with the call's own id, or a drain, that found it pending |
| CallProperties.ResultsAreOwnReplies | hermes_core/src/rpc/client.rs:513-552 | a returned value came in a reply with that call's id |
| CallProperties.CloseAnswersAll | hermes_core/src/rpc/client.rs:573-578 | after a drain every registered call comes back: a waiting or still queueing one with what its slot holds or the reason, one without a writer or out of time as such; a closed connection refuses new ones without a trace |
| CallProperties.FirstReasonStaysIff | hermes_core/src/rpc/client.rs:245-265 | a close reason stands through a run if and only if nobody marks the connection open in it |
| CallProperties.FirstReasonIsFinal | hermes_core/src/rpc/client.rs:253-265 | once connect has returned the first reason is final |
| CallProperties.ConnectReopens | hermes_core/src/rpc/client.rs:337-375 | a close during connect is undone by the ready frame |
| CallProperties.CloseFailsIffRegistered | hermes_core/src/rpc/client.rs:519-578 | in every reachable state a close fails an unanswered call in flight, with its reason, if and only if the call has registered |
| CallProperties.LateRegistrationOutlivesTheClose | hermes_core/src/rpc/client.rs:519-534 | a call registered after the drain of a close waits for its deadline |
| CallProperties.WatermarkIsTheMaximum | hermes_core/src/rpc/client.rs:761-771 | a session's watermark is the highest seq its events carried, or 0 |

## Left out

- JSON text: events, history messages and headers arrive decoded, "" standing for an absent or mistyped field; a rendered row is a value that stands for its text.
- tokio, WebSocket, HTTP, cookies, files and the UniFFI boundary: each lock-held section or received frame is one atomic step, and what the gateway answers is a parameter.
- Integer widths: seqs, epochs and call numbers are unbounded; only the clamping of row indices to 32 bits and the app's index guard are modelled.
- CoreState holds its reducers and its registry by value; the in-place form of both is proved equal to those values in their own classes, and aliasing between them is not modelled.
- The registry's dirty flag and its flushing, `to_json` and `from_json`.
- Errors of failed remote calls: a failed call is a step that does not happen, so only the accepted submit, answer or resume reaches the core's state.
- AppFeature's phase, error text, pairing and connection cases, and the model-driven phase change after a header refresh.
- SubmitRace.NoSubmissionTwice: as in SubmitRace.AcceptedSendShowsOnceIff, a submission is identified by its text, no two share one, and served histories show each text at most once; what the gateway does with a rejected or queued submit is not modelled.
- CallTable.Shared.Begin: the closed check and the drawing of an id are one step; the numbers of two calls that start together may swap, which nothing observes.
- The app's `Dictionary` and `Set` iteration order, which no modelled action observes.
- Swift grapheme clusters other than CRLF: a fence character followed by a combining mark is a different Swift character.
- TwinSplitters.WholeTextsAgreeIff: asks for texts without carriage returns and lines read alike; with a carriage return the lines always differ (TwinSplitters.LinesAgreeIff), but the blocks need not, since a difference at the end of a delimiter is trimmed away, and that case is not characterised.
- Parking.ParkingIsTransparent: asks that fewer than 512 changes are parked whenever one arrives and that the open in question stays in flight; Parking.ParkKeepsTheNewest says what is lost beyond that.
- GapFill.GapFillEqualsUninterrupted: asks for a gateway that hands a sid only to the chat that owns it, and that every replay and history is clean, so a lag counts only when it keeps no frame of this chat; GapFill.CountedOnceIff and GapFill.RowsAgreeIff show what clean must mean. A gateway that restarts with a new log is not an action of the run; Reconnect.RestartIsCaughtIff says when a resume notices one.
- GapFill.OpenIsJustBuilt: a resume is one action, so an open lands before it or after it; one between the reading of the watermark and the replay is not modelled, nor a resume whose first call fails and leaves the chat under its dead sid.
- CoreObject.CoreState.ResumeSession: runs its lock-held sections back to back; other steps between them are covered by the theorems over single steps.
- CoreObject.CoreState.ResumeAll: likewise, over keys given as a parameter; Reconnect.ResumeAllReachesEach asks that each answer is about its own chat.
- CoreObject.CoreState.ReemitAll: likewise, over lists given as a parameter.
- CoreObject.CoreState.ResumePhase: likewise.
- CoreObject.CoreState.CatchUpAll: likewise; it takes each session's answer as given, and the snapshot of watermarks the questions were asked with is not modelled.
- AppObject.AppFeature.Send: does not model the phase and the error text that the cited cases also set.
- AppMirror.EveryTabShowsTheCore: asks that a change for an unknown key finds an open in flight and room to park, and that the app closes and clears only what the core has; changes arrive in the order the core made them (DeliveryOrder.ReorderingIsHarmless says when they need not).
- RowCache.TranscriptRows.Of: takes the parser as a function of the row's text, which always gives a row under the index it was asked for.
- The Android app, views, themes, reconnect backoff, login, slash commands and the rest of the fake gateway.
