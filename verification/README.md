# Copilot gateway: session and streaming protocols

This project models the stateful core of a gateway that offers OpenAI- and Claude-style chat endpoints over a
Copilot session runtime, and proves what its clients rely on.

* **Sessions.** Chat requests that name a session key share a long-lived upstream session. A manager keeps the
  live sessions in a map, hands out one lease at a time per session, creates or resumes sessions lazily, reaps idle
  ones, enforces limits, and mirrors the live sessions in a file, so that they survive a restart.
* **Interaction.** Permission requests, questions to the user and tool calls of a session wait in a bridge until a
  client answers them through a second endpoint.
* **Streaming.** Answers are streamed as server-sent events under a watchdog that cancels silent streams.

The modules, in the order in which they build on each other:

| files | what they hold |
|---|---|
| `Prelude`, `SessionSpec`, `SessionKeys` | shared datatypes; session settings and permission modes; scoped keys |
| `LeaseProtocol`, `LeaseEffects`, `LeaseInvariant`, `LeaseTheorems`, `LeaseSweep`, `LeaseService` | the lease protocol as a step relation over any number of threads, cut where the manager lock and the entry locks are taken and dropped and where the sweep loads a last use; the effects of its steps, its invariant, what follows for every run, what a sweep can take, and what a thread gets that nobody is in the way of |
| `FileStore` | the session index: one file rewritten as a whole, refining a map |
| `SessionModel`, `SessionManager`, `SessionEffects`, `SessionRuns`, `SessionLate`, `SessionLifetime` | the manager's operations as functions on values, as classes with locks proved against these functions, what each operation comes to in terms of sessions, records and requests alone, runs of operations, runs that leases finalised after a shutdown spoil, and how long sessions last |
| `Prompt`, `Transcript`, `TranscriptFailures`, `Requests`, `RequestEffects` | what is sent upstream and how it can be read; a conversation over any run of the gateway, and what unused leases and failed sends do to it; one request from its checks to giving back its lease, and what it comes to in terms of what it asks for |
| `BridgeModel`, `BridgeInvariant`, `Bridge`, `Continuation`, `BridgeRuns`, `BridgePayload`, `BridgeWaiting`, `BridgeTools`, `BridgeService`, `BridgeSources` | the bridge on values and as classes, the continuation endpoint, runs of both, an account of who is served, what the index of tool calls leads to, what a client's answer brings about, and where every result comes from |
| `IdleWatchdog` | the watchdog as a timed automaton |
| `Sse`, `Weaving`, `Stream`, `AnswerContent`, `StreamTheorems`, `StreamFrames` | frames and the client's parser; two writers on one stream; the two streams over a connection that may break, with handler calls that overlap their ending; the answer and what is written, told from the events alone; the grammar of the protocols and their frames |
| `ToolFingerprint` | the fingerprint of a list of tools |

Assumptions about the world outside are arguments or premises: what clock, disk and runtime answer; that the runtime
creates a session under the id it is asked for, starts it empty and resumes none that it does not have (`Transcript`);
that a request id determines kind and call id (`BridgePayload`, `BridgeWaiting`); that completion events follow answers
(`BridgeRuns.NoStrandedHandler`, `BridgeWaiting.EveryAskerIsServed`); that the session calls its callback for one event
at a time, in order (`Stream`); that encodings of tools are injective and JSON payloads contain no line breaks; that a
connection on which a write has failed stays broken.

Some promises turn out to hold only under a condition. Each condition is proved to be exact, and each failure is
shown by a run or a family of inputs:

* Exclusion is per entry, not per key, once `closeContext` has unmapped a leased entry
  (`LeaseTheorems.LeaseOwnsItsEntry`, `LeaseTheorems.CloseAllowsTwoLeases`). Releasing or discarding such a lease
  afterwards keeps pool and index in agreement if and only if the index is not changed by it or the key has not been
  taken again by another session (`SessionRuns.LateReleaseKeepsAgreementIff`,
  `SessionRuns.LateDiscardKeepsAgreementIff`); `SessionLate.LateReleaseSpoils` and `SessionLate.LateDiscardSpoils` are
  runs in which it has.
* A sweep takes a session that has just been used if and only if the session was leased when the sweep loaded its
  last use and was given back before the sweep tried its lock (`LeaseSweep.FreshIsReapedIff`,
  `LeaseSweep.ReleasedThenReaped`).
* A created session given back unused makes later answers miss earlier turns (`TranscriptFailures.AbandonedLeaseIff`,
  `TranscriptFailures.EarlierTurnsMissed`). After a failed send the conversation goes on in full, whatever comes, if and
  only if the discard deleted the record or the session upstream, or a shutdown has left the key without a record or
  room to come back by (`TranscriptFailures.UndeletedSessionIff`, `TranscriptFailures.TurnToldTwice`).
* The prompt built from a conversation is that of another one too if and only if a message imitates a turn: it holds a
  blank line followed by a displayed role, a colon and a space (`Prompt.SamePromptIff`, `Prompt.OtherReadingIff`,
  `Prompt.BlankLineImitatesTurns`). Other blank lines do no harm.
* The watchdog's timer is set to the deadline if and only if the goroutine looked at the clock before the deadline and
  reset the timer without delay; it is late by the delay, or by a whole idle period after a late look
  (`IdleWatchdog.ResetMeetsDeadlineIff`, `IdleWatchdog.OverdueIff`, `IdleWatchdog.SleepyWatchdogIsLateIff`); touches
  that overtake one another can do the same (`IdleWatchdog.LastGoesBack`).
* The handler of a stream is called beside the send and does not stop with it. A stream is a sentence of its protocol if
  and only if nothing is written by a call that ends behind the first ending frame (`StreamTheorems.WholeIsCompleteIff`,
  `StreamTheorems.TextAfterFailure`), and the streamed text is the answer under a like condition
  (`StreamTheorems.StreamedIsAnswerIff`).
* A pending tool request is found by its call if and only if, since it was announced, no request of that call has been
  forgotten and the call has not been announced for another one (`BridgeTools.ToolIsFoundIff`,
  `BridgeTools.PermissionHidesTool`).
* When Send ends, every handler that waits for a permission or an answer is served (`BridgeWaiting.EveryAskerIsServed`);
  of the handlers of a tool call some are left waiting if and only if there are more of them than results
  (`BridgeWaiting.LeftWaitingIff`, `BridgeWaiting.SecondToolHandlerIsLeft`).

The documentation of the gateway says that streamed reasoning is mirrored into `choices[].delta.reasoning`
(README.md:49 and README.md:70 of the repository). The code reads the event's `Delta` field
(internal/httpapi/server.go:570), which the runtime leaves empty for reasoning (internal/runtime/copilot.go:448). The
model follows the code; `StreamTheorems.ReasoningIsNotMirrored`
states the consequence.

`dafny verify dfyconfig.toml` checks the whole project. Every induction is written out: no proof uses automatic
induction.

## Model

| member | source | states |
|---|---|---|
| `LeaseTheorems.RunKeepsInv` | internal/session/manager.go:120-158 | Every interleaving of Acquire, Release, Discard, CleanupExpired, closeContext and Lookup steps by any number of threads keeps the protocol invariant: lock holders, claims on mapped entries, creators, readiness and capacity. |
| `LeaseTheorems.LeaseOwnsItsEntry` | internal/session/manager.go:120-143 | An outstanding lease holds the lock of its entry, whose session is there, and that entry is the one mapped at its key if and only if closeContext has not unmapped it. |
| `LeaseTheorems.EntryExclusion` | internal/session/manager.go:333-354 | No entry is leased by two threads at once, with or without closeContext. |
| `LeaseTheorems.KeyExclusion` | internal/session/manager.go:120-158 | Two outstanding leases on entries that closeContext left alone never share a key, in any interleaving. |
| `LeaseTheorems.CloseAllowsTwoLeases` | internal/session/manager.go:374-388 | Once closeContext has unmapped a leased entry, the same key can be leased again: a concrete run that ends with two leases on one key. |
| `LeaseTheorems.IdleHoldsNothing` | internal/session/manager.go:120-258 | A thread between operations holds neither an entry lock nor the manager lock and has closed the ready channel of every entry it ever created, whichever way its last operation ended; when all threads are idle every lock is free and every channel closed. |
| `LeaseTheorems.ManagerHolderMoves` | internal/session/manager.go:291-302 | The holder of the manager lock never waits for an entry lock: some step of it is always possible. |
| `LeaseTheorems.WaitsAreShort` | internal/session/manager.go:120-187 | No deadlock: every thread inside an operation can move, or waits for one that can, or for one that is next in line for the manager lock whose holder can move. |
| `LeaseTheorems.RetriesAreBounded` | internal/session/manager.go:119-143 | One call of Acquire goes round its loop at most once per entry unmapped while it runs, and never retries the same entry twice. |
| `LeaseTheorems.CreatorFinishes` | internal/session/manager.go:150-258 | Whoever has put a new entry into the map closes its ready channel: it is closed as soon as the creator has taken six steps of its own or has nothing more to do with it, whatever the other threads do in between and whichever way the creation ends. |
| `LeaseTheorems.MappedIsReadyOrInTheMaking` | internal/session/manager.go:514-526 | A mapped entry whose ready channel is closed has a session; if it is still open, its creator is at work and holds its lock. |
| `LeaseSweep.SweepSparesHeldEntries` | internal/session/manager.go:291-302 | The expiry sweep takes an entry it has looked at exactly if the lock of that entry is free when it tries it; entries being created or leased are passed over, however old their last use looks. |
| `LeaseSweep.LookedAtStale` | internal/session/manager.go:292-295 | Whatever entry a sweep is about to try, in any run, was stale when the sweep loaded its last use. |
| `LeaseSweep.FreshIsReapedIff` | internal/session/manager.go:291-302 | In every run the sweep takes an entry exactly if its lock is free at the attempt, and it takes one that has been used within the idle period exactly if that entry was held when its last use was loaded and has been given back before the attempt. |
| `LeaseSweep.ReleasedThenReaped` | internal/session/manager.go:409-422 | Such a run: a session leased since time 0 is released at time 20, between the load and the attempt of a sweep, and is taken at time 20 although the idle period is 10. |
| `LeaseTheorems.CapacityHolds` | internal/session/manager.go:262-281 | In every reachable state the map respects the positive global limit and every namespace the positive limit per API key, counted over the keys scoped to that namespace. |
| `LeaseService.NewSessionAlone` | internal/session/manager.go:145-258 | From any state in which a thread can begin and nobody gets in its way, a request for a session that does not exist, while there is room, ends with the lease on a new entry at the key, ready, with its session and used from now, and changes nothing else. |
| `LeaseService.ReusedAlone` | internal/session/manager.go:120-143 | A request for a session with its settings that nobody holds ends with the lease on it, used from now, and changes nothing else. |
| `LeaseService.RefusedAlone` | internal/session/manager.go:120-148 | A request for other settings, or for one session more than the limits, counted over the map, leave room for, is over at once and changes nothing. |
| `LeaseService.RetriedAlone` | internal/session/manager.go:130-143 | A thread that has waited for an entry that has meanwhile been taken out of the map locks it, gives it back and looks for its session anew. |
| `LeaseService.GivenUpAlone` | internal/session/manager.go:169-228 | If the session cannot be made, its entry is out of the map again, its lock free and its ready channel closed. |
| `LeaseService.ReleasedAlone` | internal/session/manager.go:409-423 | A release leaves the session at its key, free and used from now. |
| `LeaseService.DiscardedAlone` | internal/session/manager.go:424-434 | A discard takes exactly its own entry out of the map, if it is still there, and frees its lock. |
| `LeaseService.ClosedAlone` | internal/session/manager.go:381-400 | A shutdown locks the next entry, if its lock is free, before it closes the session, gives it back and goes on with the others. |
| `LeaseService.LookedUpAlone` | internal/session/manager.go:514-526 | Looking a key up leads to the entry at the key, for whose ready channel the thread waits, or to nothing. |
| `LeaseInvariant.InvKept` | internal/session/manager.go:120-258 | One step of any thread keeps the invariant of the lease protocol. |
| `LeaseEffects.StepEffect` | internal/session/manager.go:120-435 | Every step of every operation moves one thread only, moves locks in and out of its hands only, and changes map, readiness and capacity as stated once for all steps. |
| `Prelude.TrimSpaceDrops` | internal/runtime/copilot.go:1154-1154 | Trimming takes spaces off both ends of an id, and nothing else. |
| `SessionKeys.ScopedKeyRoundTrip` | internal/session/manager.go:507-512 | The namespace of a scoped key is recovered by cutting at the first colon, and so is the public key, even if it contains colons. |
| `SessionKeys.ScopingIsInjective` | internal/httpapi/server.go:1914-1919 | Two scoped keys are equal only for the same namespace and the same public key. |
| `SessionKeys.HexEncodeInjective` | internal/auth/apikey.go:67-70 | Hexadecimal encoding of digest bytes loses nothing. |
| `SessionKeys.DigestsKeepSessionsApart` | internal/auth/apikey.go:67-70 | API keys whose digests differ in the first eight bytes never share a scoped session key. |
| `SessionSpec.StoredSpecAcceptsIff` | internal/session/manager.go:438-449 | A record accepts a request exactly if they agree on every setting but the provider credentials. |
| `SessionSpec.PermissionNeverEscalates` | internal/httpapi/server.go:1242-1268 | The mode granted never ranks above the server, the escalation error comes exactly when the named mode ranks above it, and otherwise the named mode, or the server mode if none is named, is granted. |
| `SessionSpec.NamedModes` | internal/httpapi/server.go:1242-1268 | Deny may always be named, bridge if the server bridges or allows, allow only if it allows; a request that names no mode gets the server mode, and a server that is not told otherwise denies. |
| `SessionSpec.LooserServerKeepsExplicitModes` | internal/httpapi/server.go:1242-1268 | A looser server policy gives a request that names its mode the same mode as a stricter one did. |
| `FileStore.StoreRefinesMap` | internal/session/store.go:34-75 | The rewritten file refines a map whose records have lost their credentials: Load reads it, Save inserts the erased record, Delete removes the key, and each either does so or fails; all succeed on a readable, writable, well-formed file and none on a malformed one. With an empty path nothing is kept and nothing fails. |
| `FileStore.SaveRefines` | internal/session/store.go:50-60 | A successful Save inserts the record without its credential fingerprint and leaves all other records as they were, unless the path is empty and nothing is kept. |
| `FileStore.DeleteRefines` | internal/session/store.go:62-75 | A successful Delete removes the record of its key and leaves all other records as they were. |
| `FileStore.ReadsRecords` | internal/session/store.go:77-101 | Reading the whole file yields the stored map, exactly if the path is empty, the file is missing, or it is readable and well-formed. |
| `FileStore.FileStore.LoadRecord` | internal/session/store.go:34-48 | The method reads the record of a key as the store function says. |
| `FileStore.FileStore.SaveRecord` | internal/session/store.go:50-60 | The method rewrites the file as the store function says, and leaves it alone if it fails. |
| `FileStore.FileStore.DeleteRecord` | internal/session/store.go:62-75 | The method rewrites the file as the store function says, and leaves it alone if it fails. |
| `SessionManager.Manager.CountNamespace` | internal/session/manager.go:270-276 | Counting over the map in any order yields the number of keys in the namespace. |
| `SessionManager.Manager.ValidateCapacity` | internal/session/manager.go:262-281 | A new key is refused for the global limit first, then for the limit of its namespace, and otherwise allowed. |
| `SessionManager.Manager.CleanupEntry` | internal/session/manager.go:169-176 | A failed creation takes its entry out of the map, gives back its lock and closes its ready channel. |
| `SessionManager.Manager.Finish` | internal/session/manager.go:229-258 | The new session is entered and recorded; either the entry ends mapped, locked and ready, or, if the record cannot be written, unmapped, unlocked and ready. |
| `SessionManager.Manager.ResumeStored` | internal/session/manager.go:206-228 | A recorded session is resumed under its id and creation time; only if the runtime does not know it is the record dropped and a new session created; any other failure gives everything back. |
| `SessionManager.Manager.AcquireStored` | internal/session/manager.go:182-204 | A record for other settings or one that has expired is deleted, and with it its upstream session, before the request is refused or a new session made: pool, answer and calls are those of the model, which SessionEffects.WithOtherSettings, WithLapsedRecord and WithFreshRecord tell case by case. |
| `SessionManager.Manager.AcquireMissing` | internal/session/manager.go:144-258 | Building a missing session ends with the model's pool and calls on each of its exits; the entry's lock stays taken exactly if the lease is granted. |
| `SessionManager.Manager.Acquire` | internal/session/manager.go:93-260 | As one step, Acquire yields the model's pool, answer and requests to the runtime, which the lemmas of SessionEffects tell case by case; a lease owns the lock of the entry mapped at its key, and an entry made on the way is ready, and locked only if it is leased. |
| `SessionManager.Manager.ReleaseEntry` | internal/session/manager.go:409-423 | Release refreshes the last use and, if the disk allows, the record, and always unlocks; an entry no longer mapped leaves the map alone. |
| `SessionManager.Manager.DiscardEntry` | internal/session/manager.go:424-434 | Discard unmaps the entry if it is still the mapped one, closes, forgets and deletes the session in this order whatever fails, reports the first failure, and unlocks. |
| `SessionManager.Manager.TakeStale` | internal/session/manager.go:291-302 | The sweep takes and locks exactly the stale entries whose lock is free, in whatever order the map is walked. |
| `SessionManager.Manager.CleanupExpired` | internal/session/manager.go:283-312 | Expiry yields the model's pool, asks for the deletion upstream of exactly the sessions it ends, reports an error it met if it met one, and leaves every lock as it was. |
| `SessionManager.Manager.CloseContext` | internal/session/manager.go:372-401 | Shutdown empties the map, closes the sessions whose lock is to be had, keeps or deletes their records as asked, asks for the deletion upstream of exactly those it closed unless the index is kept, reports an error it met if it met one, and leaves every lock as it was. |
| `SessionManager.Lease.Release` | internal/session/manager.go:600-608 | The first Release or Discard of a lease unlocks its entry, Release reporting the disk's failure; every further call changes nothing and repeats the first answer. |
| `SessionManager.Lease.Discard` | internal/session/manager.go:610-618 | The first Release or Discard of a lease unlocks its entry, Discard also leaving it unmapped, asking for the deletion of its session and reporting the first failure; every further call changes nothing and repeats the first answer. |
| `SessionModel.DeleteOneMore` | internal/session/manager.go:304-310 | Deleting the records of a sweep one by one, in any order, amounts to deleting them together, and no deletion changes whether another one fails. |
| `SessionEffects.WithoutKey` | internal/session/manager.go:101-118 | Without a key a session is asked for that is not kept: pool and index stay as they are. |
| `SessionEffects.AtLiveKey` | internal/session/manager.go:120-143 | At the key of a live session, a request is refused as a conflict exactly if its settings differ, whoever has the lease, and refused for its context exactly if they are equal and the context has ended or another request has the lease; otherwise the session is leased as it is and nothing but its last use changes. |
| `SessionEffects.AtLimit` | internal/session/manager.go:145-148 | At a key that is not live, a request is refused for want of room exactly if the live sessions, or then those of its namespace, are as many as the limit, and nothing changes. |
| `SessionEffects.Unreadable` | internal/session/manager.go:178-182 | An index that cannot be read refuses every key that is not live, with the disk's error, and stays as it is. |
| `SessionEffects.WithoutRecord` | internal/session/manager.go:224-258 | Without a record a new session is asked for, created now and recorded with this time; if runtime or disk refuse, that is the answer and the live sessions stay as they are. |
| `SessionEffects.WithOtherSettings` | internal/session/manager.go:182-191 | The record of a session with other settings is deleted, and that session upstream, and no other, and the request is refused as a conflict; if either deletion fails, that is the answer, and if it is the first, nothing has changed. |
| `SessionEffects.WithLapsedRecord` | internal/session/manager.go:192-200 | The record of a session whose idle period is over is deleted, and that session upstream; then a new one is asked for, whose creation time is now. |
| `SessionEffects.WithFreshRecord` | internal/session/manager.go:206-258 | A recorded session that is not too old is resumed under its id with its creation time and recorded as updated now; a gateway that cannot resume makes a new one with the old creation time; if the runtime has lost it, the record goes and a new one is created now; if resuming fails, nothing changes. |
| `SessionEffects.MismatchIsOfSettings` | internal/session/manager.go:182-191 | With the record readable and room for the session, a conflict is reported exactly if there is a record whose settings, credentials apart, differ from the request's, and both it and its session can be deleted. |
| `SessionEffects.RefusedThenGranted` | internal/session/manager.go:182-191 | A request refused as a conflict with a record is granted a new session with its own settings when it is made again, if disk and runtime do what they are asked then. |
| `SessionEffects.GivenBackIs` | internal/session/manager.go:409-423 | A release frees the session, marks it as used, and rewrites its record, with its creation time and the time of release, if the disk allows; after a shutdown it only does the last; the disk's error is reported. |
| `SessionEffects.DroppedIs` | internal/session/manager.go:424-469 | A discard takes the session out of the pool, deletes its record if the disk allows, and asks for its deletion upstream if it has an id; the first failure of closing, disk and runtime is reported. |
| `SessionEffects.SweepIs` | internal/session/manager.go:283-312 | A sweep ends exactly the sessions that are free and have not been used for the idle period, and deletes exactly their records, as far as the disk allows. |
| `SessionEffects.ShutdownIs` | internal/session/manager.go:372-401 | A shutdown empties the pool and deletes, unless the index is to be kept or the context has ended, exactly the records of the sessions nobody holds, as far as the disk allows. |
| `SessionRuns.RunKeepsAgreement` | internal/session/manager.go:234-255 | Over any run of whole operations, shutdowns with leases outstanding among them and with a disk that may fail at any access, each live session has a record with its id, its creation time and its settings without the credentials; provided every release or discard of a lease that a shutdown left behind meets the guard of the two rows below. |
| `SessionRuns.OpKeepsAgreement` | internal/session/manager.go:409-434 | One operation, a shutdown with leases outstanding or a guarded late finalisation included, keeps pool and index in agreement. |
| `SessionRuns.RunKeepsLimits` | internal/session/manager.go:262-281 | In every run of whole operations the live sessions respect the positive global limit and every namespace the positive limit per API key. |
| `SessionRuns.LateReleaseKeepsAgreementIff` | internal/session/manager.go:374-388 | A lease released after closeContext keeps the agreement if and only if its record is not written, because there is no index or the disk fails, or its key has not been taken again by a session with another id, creation time or settings. |
| `SessionRuns.LateDiscardKeepsAgreementIff` | internal/session/manager.go:424-434 | A lease discarded after closeContext keeps the agreement if and only if nothing is deleted from the index or its key has not been taken again. |
| `SessionLate.LateReleaseSpoils` | internal/session/manager.go:374-388 | A run from an empty gateway: a shutdown that does not get the lock of a leased session, a new session at its key, and the late release, which leaves the new one with the record of the old. |
| `SessionLate.LateDiscardSpoils` | internal/session/manager.go:424-434 | A run from an empty gateway in which the late discard of such a lease leaves the new session without a record. |
| `SessionRuns.AcquireIdentity` | internal/session/manager.go:206-239 | A grant that created no session leaves what every key stands for unchanged; a refusal can at most drop the record of the requested key. |
| `SessionRuns.OpKeepsIdentity` | internal/session/manager.go:206-239 | One operation leaves what a key stands for unchanged, or ends it, or is the Acquire that creates a new session there, or the late release of another session, whose record it brings back. |
| `SessionRuns.LeasesAgreeOnSpec` | internal/session/manager.go:206-239 | While a persisted session lives, across any number of resumes and of shutdowns, with or without leases outstanding, all leases on it agree on its id, its creation time and every setting but the credentials; provided late finalisations meet their guards. |
| `SessionLate.LeasedReleasedLeased` | internal/session/manager.go:120-143 | An ordinary run that meets these premises, for any key and settings: leased, released and leased again. |
| `SessionRuns.LeasesAgreeOnSecret` | internal/session/manager.go:124-128 | While its entry stays in the map of one process, leases agree on the credentials as well. |
| `SessionRuns.GrantWithinPolicy` | internal/httpapi/server.go:416-449 | The permission mode of a granted session is within the current server policy, whoever wrote its record under whichever policy. |
| `SessionLifetime.ReapedIff` | internal/session/manager.go:283-312 | In every run of whole operations a sweep ends a live session exactly if the session is not leased, an idle period is configured, and that period has gone by since the last operation that leased it or gave it back; otherwise the sweep leaves it unchanged. What a sweep can do between two operations is in `LeaseSweep`. |
| `SessionLifetime.RestartResumesIff` | internal/session/manager.go:198-239 | Released, shut down keeping the index, restarted and asked for again with the same settings but possibly other credentials, a session is resumed with its id and creation time exactly if the idle period has not gone by since its release; otherwise it is deleted upstream and a new one made. |
| `Prompt.BuildPrompt` | internal/compat/common.go:106-117 | The builder loop produces the introduction, every turn with its displayed role in order, and the closing cue. |
| `Prompt.SamePromptIff` | internal/compat/common.go:106-117 | Two conversations have the same prompt if and only if they are the same, turn by turn, once every message is divided wherever it imitates a turn, that is, at a blank line followed by a displayed role and a colon and a space. |
| `Prompt.FullPromptTellsApart` | internal/compat/common.go:106-117 | As long as no message imitates a turn, with any number of blank lines otherwise, two conversations with the same prompt have the same speakers and contents, turn by turn. |
| `Prompt.OtherReadingIff` | internal/compat/common.go:106-117 | The prompt of a conversation is also that of a different one, made of messages that imitate nothing, if and only if one of its own messages imitates a turn. |
| `Prompt.BlankLineImitatesTurns` | internal/compat/common.go:106-117 | An instance: a single message with two imitated turns in it yields the prompt of a conversation of three turns. |
| `Prompt.DisplayRole` | internal/compat/common.go:240-253 | A displayed role is one of the five speakers, none of which contains a colon. |
| `Prompt.SpeakerOf` | internal/compat/common.go:159-172 | A turn is the user's, and shown so, unless its role, in any case and between any spaces, is one of the other four, and is shown as that one then. |
| `Transcript.TranscriptComplete` | internal/httpapi/server.go:484-493 | After every success the upstream session has been told exactly the user turns of the transcript, once and in order, across reuse, expiry, failed sends, lost sessions and resumption; provided no created session with earlier turns is given back unused and no failed session survives both its deletions. |
| `Transcript.StepKeepsInv` | internal/httpapi/server.go:260-280 | Each step of a conversation, and each step of the rest of the gateway, keeps what the upstream session knows in line with the answered part of the transcript. |
| `Transcript.SendCompletes` | internal/compat/common.go:119-139 | What a success adds makes up the whole transcript if and only if the session knew nothing, if it is new, or exactly the answered turns, if it goes on. |
| `Transcript.AcquireTells` | internal/session/manager.go:174-258 | A grant that created the session leaves it empty upstream, any other leaves it untouched, and a refusal touches it only if the key then stands for nothing. |
| `TranscriptFailures.AbandonedLeaseIff` | internal/httpapi/server.go:495-520 | If a lease is given back without a send and the session is then reused, the next success is complete if and only if the lease was not freshly created or there was nothing earlier to tell. |
| `TranscriptFailures.EarlierTurnsMissed` | internal/httpapi/server.go:495-520 | Such a run from an empty gateway, for any conversation that brings earlier user turns along: the new session is given back unused, the next request reuses it and succeeds, and the session has only ever been told the last turn. |
| `TranscriptFailures.UndeletedSessionIff` | internal/session/manager.go:451-469 | In every run and from every lease, with or without a shutdown since it was granted: after a failed send, whether or not the prompt arrived, its discard and any later lease, the next success is complete in every case if and only if the discard deleted the record or the session upstream, or the key cannot be leased again for want of a record or of room; a session still mapped can. |
| `TranscriptFailures.DiscardSufficesIff` | internal/session/manager.go:424-434 | The same for any state of the conversation that meets the invariant: where both deletions are refused and the key can come back, there is a continuation that tells the last user turn twice. |
| `TranscriptFailures.TurnToldTwice` | internal/httpapi/server.go:260-280 | Such a run: the prompt arrives, the send is reported as failed, both deletions are refused, the next request resumes the session and succeeds, and the session has been told the only user turn twice. |
| `Requests.SpecFor` | internal/httpapi/server.go:414-449 | The granted mode never ranks above the server, a request without a session key is neither interactive nor bridged and has no tools, and the fingerprint of the settings is that of the request's tools; RequestEffects.CheckedIff tells the rest. |
| `RequestEffects.CheckedIff` | internal/httpapi/server.go:414-449 | The settings a request gets its session with are its own, field by field, with the mode it names, or the server's, and the fingerprint of its tools; it fails before any lease exactly for its mode, a missing session key, a feature, its provider or a tool, in this order. |
| `RequestEffects.RefusedFirst` | internal/httpapi/server.go:414-449 | A request that fails one of these checks is told of the first and changes nothing. |
| `RequestEffects.LiveConflictIff` | internal/httpapi/server.go:434-484 | A request that passes the checks is refused as a conflict with the live session at its key exactly if a setting, the mode or the fingerprint it asks for differs from the session's, and then nothing changes; if none does and the session is free, it goes on with that session. |
| `RequestEffects.ToolsConflictIff` | internal/httpapi/server.go:434-449 | If nothing but the tools may differ, it is refused as a conflict exactly if its tools are no reordering of the session's. |
| `RequestEffects.StoredConflictIff` | internal/httpapi/server.go:434-484 | The same for a session known from its record: the request is refused as a conflict exactly if what it asks for, credentials apart, differs and record and session can be deleted; then the record is gone, and the same request gets a new session when it comes again and disk and runtime play along. |
| `RequestEffects.ReadyIff` | internal/httpapi/server.go:484-538 | With its session granted, a request is ready exactly if its conversation ends with the user and its attachments can be written; each other end has its own error, that of the conversation first. |
| `Requests.PreparedMessage` | internal/httpapi/server.go:484-499 | A prepared request ends in a user turn and carries just that turn exactly if it has a session key and its lease created no session, else the whole conversation. |
| `Requests.PrepareLeases` | internal/httpapi/server.go:451-520 | A prepared request holds the lease of its key, which was free before, and nothing else; a refused one holds nothing, on every failing path. |
| `Requests.RequestLeavesNoLock` | internal/httpapi/server.go:248-280 | Whatever happens during a request, afterwards exactly those sessions are leased that were before. |
| `Requests.RequestOutcome` | internal/httpapi/server.go:248-280 | An answered request leaves its session live, unlocked and used at its end; after a failed send the session is gone, and its record too unless the disk refuses. |
| `Requests.Server.Materialize` | internal/httpapi/server.go:500-520 | Temporary attachment files stay exactly if all attachments are in order; on any failure those made so far are gone. |
| `Requests.Server.PrepareConversation` | internal/httpapi/server.go:414-538 | Preparing yields the model's pool, error or prompt; on every error the lease taken on the way is finalised, its entry unlocked and the temporary files gone. |
| `Requests.Server.HandleConversation` | internal/httpapi/server.go:248-280 | A whole request yields the model's pool and error, finalises its lease and leaves no temporary file. |
| `BridgeInvariant.ContentKeepsInv` | internal/runtime/copilot.go:1067-1095 | A step that changes only results and details of requests, not ids, kinds or queues, keeps the bridge invariant. |
| `BridgeInvariant.PopTakesHead` | internal/runtime/copilot.go:1252-1308 | Nothing queued is ever missing from the pending map, so popping takes the head of the queue and the "popped but missing" branch is never taken. |
| `BridgeInvariant.ForgetKeepsInv` | internal/runtime/copilot.go:1175-1208 | Forgetting a request removes it from map, index and its queue and keeps the queues duplicate-free, pending, of their kind and in registration order. |
| `BridgeInvariant.CancelAllKeepsInv` | internal/runtime/copilot.go:1210-1226 | Cancelling everything keeps the bridge invariant. |
| `BridgeInvariant.RegisterToolKeepsInv` | internal/runtime/copilot.go:1067-1095 | Registering or re-announcing a tool request keeps the bridge invariant. |
| `BridgeInvariant.RegisterUserInputKeepsInv` | internal/runtime/copilot.go:1097-1122 | Registering or re-announcing a user-input request keeps the bridge invariant. |
| `BridgeInvariant.RegisterPermissionKeepsInv` | internal/runtime/copilot.go:1124-1151 | Registering or re-announcing a permission request keeps the bridge invariant. |
| `BridgeRuns.RunKeepsInv` | internal/runtime/copilot.go:1067-1320 | Any order of registrations, responses, completions, waits and cancellation keeps the bridge invariant. |
| `BridgeRuns.SlotConservation` | internal/runtime/copilot.go:1153-1173 | For every request, in every run, results accepted minus results received is zero or one, and what a handler receives first is the first result accepted. |
| `BridgeRuns.AtMostOneUnrejected` | internal/runtime/copilot.go:1310-1320 | Of the pending permission requests, and of the pending user-input requests, at most one was not rejected on arrival, and all others of its kind came later. |
| `BridgeRuns.PermissionsPoppedInOrder` | internal/runtime/copilot.go:1281-1308 | A permission handler obtains the earliest registered request that is pending and not yet obtained, and nothing exactly if there is none. |
| `BridgeRuns.UserInputsPoppedInOrder` | internal/runtime/copilot.go:1252-1279 | A user-input handler obtains the earliest registered request that is pending and not yet obtained, and nothing exactly if there is none. |
| `BridgeRuns.NoStrandedHandler` | internal/runtime/copilot.go:1210-1226 | If requests complete only once answered, then after Send has ended every request any handler obtained has a result waiting or received, and map, index and queues are empty. |
| `BridgeWaiting.HandlersAreAccountedFor` | internal/runtime/copilot.go:1228-1308 | When request ids determine kind and call id, then in every run the handlers that obtained a request are those that received a result of it and those that wait for one, counted; a permission request or a question is obtained by at most one. |
| `BridgeWaiting.EveryAskerIsServed` | internal/runtime/copilot.go:1210-1226 | If requests also complete only once answered, then when Send ends every handler waiting for a permission or an answer has a result in its slot, and nobody else can take it. |
| `BridgeWaiting.LeftWaitingIff` | internal/runtime/copilot.go:1031-1036 | Under the same premise on ids, for a request that is no longer pending and has no response on its way, at every later time more handlers wait for it than its slot can serve if and only if more had obtained it than it was given results. |
| `BridgeWaiting.SecondToolHandlerIsLeft` | internal/runtime/copilot.go:1228-1240 | Such a run, for any tool call: two handlers of the call obtain its request before Send ends, the cancellation serves one, and the other waits for good. |
| `BridgeRuns.ForgottenUnansweredStaysSo` | internal/runtime/copilot.go:1186-1208 | A request forgotten before it is answered, with no response on its way, never gets a result in any continuation of the run. |
| `BridgeService.AnnouncedIsPending` | internal/runtime/copilot.go:1067-1151 | A request announced under a new id is pending as it was announced, with an empty slot; if it is a question or a permission request and another of its kind is pending, its slot holds the error of its kind. |
| `BridgeService.ReannouncedIsRevised` | internal/runtime/copilot.go:1083-1091 | A request announced again keeps its place, kind and slot and takes over the new call and details; a question has no call. |
| `BridgeService.PendingEndsIff` | internal/runtime/copilot.go:1175-1226 | A completion ends the pending of exactly the request it names and touches no slot; when Send ends, exactly the pending requests with empty slots are given the cancellation. |
| `BridgeService.LookupIff` | internal/runtime/copilot.go:1153-1166 | In every reachable bridge an answer finds request h exactly if h is pending under the trimmed id and of the answer's kind; it is refused as unknown exactly if nothing is pending under that id, and as of the wrong kind exactly if a request of another kind is. |
| `BridgeService.ContinueSetsOffIff` | internal/httpapi/interactive.go:28-81 | In every reachable world, posting a body sets its response on the way to a request exactly if the body is accepted and meant for the kind of the request pending under its id, and does nothing else. |
| `BridgeService.SentIsThereIff` | internal/runtime/copilot.go:1167-1172 | A response that is sent is in the slot afterwards exactly if the slot was empty; nothing else changes. |
| `BridgeService.AnswerIsServed` | internal/runtime/copilot.go:1153-1173 | From every reachable world in which a handler waits for a pending request with an empty slot, posting a body that answers it, sending it and letting the handler run makes the handler return what stands in the body. |
| `BridgeService.AskedAnsweredTold` | internal/runtime/copilot.go:1013-1065 | For any id, call and details: a question, a permission request or a tool call that is announced, asked for and answered, from the empty bridge, ends with its handler returning what the client posted. |
| `BridgeSources.DeliveredWasPosted` | internal/runtime/copilot.go:1153-1173 | When request ids determine kind and call id, every response a handler has received, in any run, was posted earlier in a body that names the handler's own request while it was pending, and the handler returns what stands in that body. |
| `BridgeSources.FailureHasCause` | internal/runtime/copilot.go:1110-1226 | Every error a handler has received, in any run, has its cause: Send ended while its request was pending and its slot empty, or the request was announced while another of its kind was pending; the handler returns that error. |
| `BridgeTools.ToolIsFoundIff` | internal/runtime/copilot.go:1187-1189 | In every run, a pending tool request is found by the call it was last announced for if and only if, since then, the call has not been announced for another request, no request that carries it has been forgotten, and Send has not ended. |
| `BridgeTools.PermissionHidesTool` | internal/runtime/copilot.go:1187-1189 | A run, for any ids, that of the permission request trimmed, in which completing a permission request of the same call hides a tool request that is still pending. |
| `BridgeTools.ForgetKeepsToolReachableIff` | internal/runtime/copilot.go:1187-1189 | For one step: forgetting one request leaves the tool request of another call reachable exactly if the forgotten one carried another call id. |
| `BridgeTools.RenamedCallMisleadsIff` | internal/runtime/copilot.go:1082-1094 | For any pending tool request announced again under any call id: a handler of another call obtains it if and only if that call led to it before. |
| `BridgePayload.NoMissingContinuation` | internal/runtime/copilot.go:747-763 | When request ids determine kind and call id, whatever response a handler receives is of its kind and is what it returns: none of the three "continuation missing" errors is ever returned. |
| `BridgePayload.ToolHandlerGetsItsCall` | internal/runtime/copilot.go:1228-1240 | When request ids determine kind and call id, a tool handler only ever waits for a request of its own call. |
| `BridgePayload.ResolvedFits` | internal/runtime/copilot.go:1153-1166 | An accepted response is passed on exactly if a request of its kind is pending under its id, and then to that request, with the payload of that kind. |
| `Continuation.ParseAcceptsExactlyWellShaped` | internal/httpapi/interactive.go:83-148 | The endpoint accepts exactly the responses with a trimmed id and the payload their kind calls for: every accepted one is of that shape, and every one of that shape is parsed back from a body a client can send. |
| `Continuation.AcceptedIff` | internal/httpapi/interactive.go:83-148 | A body is accepted exactly if its trimmed id is not empty, its kind, in any case and between any spaces, is one of four, a tool error says something, and a permission result is one of the supported ones; for every other body the error is determined. |
| `Continuation.BodyReachesHandler` | internal/runtime/copilot.go:747-763 | An accepted body is meant for the kind it is taken to answer; handed to the handler of that kind, it makes it return the result kind, trimmed, and the rules, or the answer and whether it is free form, or the tool result with all its fields, or the tool error. |
| `Continuation.SupportedKindsAreTrimmed` | internal/httpapi/interactive.go:150-162 | The supported permission results are recognised as they stand, without surrounding space. |
| `InteractiveBridge.IdQueue.Remove` | internal/runtime/copilot.go:1190-1206 | Compacting the queue in place yields the order-preserving filter. |
| `InteractiveBridge.IdQueue.PopFront` | internal/runtime/copilot.go:1260-1262 | Popping returns the oldest id and copies the rest to a buffer of its own. |
| `InteractiveBridge.PendingResolution.Send` | internal/runtime/copilot.go:1118-1120 | The plain channel send made under the bridge lock always finds room. |
| `InteractiveBridge.InteractiveBridge.RegisterTool` | internal/runtime/copilot.go:1067-1095 | The method does to map and index what the model says. |
| `InteractiveBridge.InteractiveBridge.RegisterUserInput` | internal/runtime/copilot.go:1097-1122 | The method does to map and queue what the model says, answering a second outstanding request with an error as it arrives. |
| `InteractiveBridge.InteractiveBridge.RegisterPermission` | internal/runtime/copilot.go:1124-1151 | The method does to map and queue what the model says, answering a second outstanding request with an error as it arrives. |
| `InteractiveBridge.InteractiveBridge.HasOutstandingKind` | internal/runtime/copilot.go:1310-1320 | Scanning the pending requests in any order finds another one of the kind exactly if there is one. |
| `InteractiveBridge.InteractiveBridge.FindForResolve` | internal/runtime/copilot.go:1153-1166 | The locked part of resolve finds the pending request of the trimmed id and checks its kind; BridgeService.LookupIff tells exactly when it succeeds and how it fails. |
| `InteractiveBridge.InteractiveBridge.Deliver` | internal/runtime/copilot.go:1167-1172 | The unlocked part of resolve fills the result slot if it is empty, and otherwise changes nothing. |
| `InteractiveBridge.InteractiveBridge.Forget` | internal/runtime/copilot.go:1175-1208 | The method removes the request from map, index and queue as the model says. |
| `InteractiveBridge.InteractiveBridge.CancelAll` | internal/runtime/copilot.go:1210-1226 | Offering the error to each pending request in any order, then clearing, is what the model says. |
| `InteractiveBridge.InteractiveBridge.FindTool` | internal/runtime/copilot.go:1228-1240 | The tool lookup goes from call id to request id to pending request. |
| `InteractiveBridge.InteractiveBridge.TakePermission` | internal/runtime/copilot.go:1281-1308 | Popping until a pending id turns up is what the model says. |
| `InteractiveBridge.InteractiveBridge.TakeUserInput` | internal/runtime/copilot.go:1252-1279 | Popping until a pending id turns up is what the model says. |
| `IdleWatchdog.NeverDeaf` | internal/httpapi/server.go:1936-1970 | In every run the goroutine never waits without a timer that is set or has fired. |
| `IdleWatchdog.CancelsOnlyWhenIdle` | internal/httpapi/server.go:1959-1967 | In every run it cancels only if, at the moment it looked at the clock, the idle period had gone by since the last activity recorded when it loaded it. |
| `IdleWatchdog.CancelsOnTime` | internal/httpapi/server.go:1929-1979 | If the goroutine runs as soon as it is woken, time never passes the last activity by more than the idle period without cancelling, and cancelling happens exactly one idle period after the last activity before that instant. |
| `IdleWatchdog.QuietWatchdogCancels` | internal/httpapi/server.go:1959-1967 | Without further activity such a watchdog does cancel, at the last activity plus the idle period. |
| `IdleWatchdog.ResetMeetsDeadlineIff` | internal/httpapi/server.go:1952-1961 | In every run, whatever the scheduling, after a touch as after the timer has fired: the timer is set to the deadline of the loaded activity, put off by the time between the look at the clock and the reset, if the deadline was ahead at the look, and to a whole idle period from the reset otherwise; it is set to the deadline if and only if that was ahead and no time passed between the two. |
| `IdleWatchdog.OverdueIff` | internal/httpapi/server.go:1945-1961 | In every run, whatever the scheduling and the order in which times are recorded: the timer stands beyond the last recorded activity plus the idle period if and only if that activity is earlier than the one the timer was set for, put off by the excess of that setting; where times are recorded in order this takes an excess, that is, a late look or a delayed reset. |
| `IdleWatchdog.LastGoesBack` | internal/httpapi/server.go:1972-1978 | Without that order no excess is needed: a run in which a touch is overtaken between reading the clock and storing what it read. |
| `IdleWatchdog.SleepyWatchdogIsLateIff` | internal/httpapi/server.go:1945-1967 | A goroutine that sleeps over any touch, for any time, and again before it resets the timer, and is then left alone cancels at the deadline of that touch if and only if it looked at the clock before the deadline and did not sleep a second time; otherwise it is late by the second sleep, or a whole idle period after its reset. |
| `ToolFingerprint.SortStrings` | internal/httpapi/server.go:1402-1402 | Sorting in place yields a sorted permutation. |
| `ToolFingerprint.ToolDefinitionsFingerprint` | internal/httpapi/server.go:1390-1409 | The digest is taken of the sorted encodings, of nothing for no tools, and an error is returned exactly if a definition cannot be encoded. |
| `ToolFingerprint.SortedIsUnique` | internal/httpapi/server.go:1402-1402 | Two sorted lists with the same elements are equal. |
| `ToolFingerprint.FingerprintIff` | internal/httpapi/server.go:1390-1409 | With an injective encoding, two lists of tools have the same fingerprint exactly if each is a reordering of the other. |
| `ToolFingerprint.ToolsConflictIff` | internal/session/manager.go:124-128 | A request that differs from the live session in its tools only is refused as a conflict exactly if they are not a reordering of the session's. |
| `ToolFingerprint.StoredToolsConflictIff` | internal/session/manager.go:182-192 | The same for a session known from its record only: the request is refused as a conflict exactly if its tools are no reordering of the recorded ones and record and session can be deleted, and both are then; reordered tools are never a conflict. |
| `Sse.OneFrame` | internal/httpapi/server.go:974-987 | A frame with a clean payload is read back as one event with its name and payload, whatever follows. |
| `Sse.CutFrame` | internal/httpapi/server.go:959-998 | A frame cut off anywhere before its end yields no event. |
| `Sse.ClientReadsFrames` | internal/httpapi/server.go:959-998 | Parsing as in section 9.2.6 of the WHATWG HTML standard gives back exactly the frames written, and nothing of a last one cut short. |
| `Stream.Writer.WriteEach` | internal/httpapi/server.go:569-580 | Chunks are written one by one until a write fails; what has arrived is what the connection could carry. |
| `Stream.Send` | internal/runtime/copilot.go:357-720 | Send makes up its mind when so many events have been taken in and so many handler calls are over; it succeeds exactly if it finds the session idle first and none of those calls has failed, with the answer of the events taken in, which AnswerContent.AnswerIsTold tells from the events alone. Calls under way or later do not matter to it. |
| `Stream.Callback.Conclude` | internal/httpapi/server.go:590-613 | The ending frames are written one by one until one fails, while handler calls go on; what has arrived is what the connection could carry of the two woven together. |
| `Stream.StreamOpenAI` | internal/httpapi/server.go:540-614 | Wherever the connection breaks and whichever handler calls overlap the ending, exactly that much of the whole stream has arrived; success is reported exactly if the session is found idle and every write up to the last but one ending frame succeeds, and a failed send exactly if the opening has arrived and the session is not found idle or what the handler has written by then has not. |
| `Stream.StreamClaude` | internal/httpapi/server.go:616-729 | Wherever the connection breaks and whichever handler calls overlap the ending, exactly that much of the whole stream has arrived; success is reported exactly if the session is found idle and every write up to the last ending frame succeeds, and a failed send exactly if the opening has arrived and the session is not found idle or what the handler has written by then has not. |
| `AnswerContent.AnswerIsTold` | internal/runtime/copilot.go:706-720 | The answer is, of the list of events, the last complete message that says something, or the deltas if there is none; the last complete piece of reasoning, or the reasoning deltas; the last usage reported; and all runtime events in order. |
| `AnswerContent.LastMessageIs` | internal/runtime/copilot.go:431-439 | The last complete message is the one that says something and that no other such message follows. |
| `AnswerContent.PartsAreShown` | internal/httpapi/server.go:553-580 | What is written for each event is the text of a delta, or the runtime event it reports if the request asked for such events. |
| `AnswerContent.FinalUsageIsTold` | internal/httpapi/server.go:599-602 | The usage a stream reports is the last one among the events the answer saw; in the OpenAI protocol, if that counts no tokens, the last one the handler had been told, if that counts some. |
| `StreamFrames.FramesOfWhole` | internal/httpapi/server.go:590-729 | The frames of a stream, whatever is written among them: an answer ends with its finish and its usage, in the OpenAI protocol only if the request asked for it, anything else with a failure and no usage; no frame is missing, doubled or out of order. |
| `StreamTheorems.WholeIsCompleteIff` | internal/httpapi/server.go:540-729 | The whole stream of either protocol, for any events, any overlap of handler calls with the ending and any outcome, is a complete sentence of the protocol's grammar if and only if no handler call that ends behind the first ending frame writes anything; otherwise nothing can repair it. |
| `StreamTheorems.TextAfterFailure` | internal/runtime/copilot.go:385-405 | Such a stream, for any text: a delta being handled when the context ends is written between the failure and the end mark. |
| `StreamTheorems.WholeApart` | internal/httpapi/server.go:540-729 | If every handler call is over before Send makes up its mind, the stream is its opening, what the handler wrote and its ending, and complete. |
| `StreamTheorems.ClientHoldsPrefixIff` | internal/httpapi/server.go:540-729 | Wherever the connection breaks, the client holds the beginning of a sentence of the grammar if and only if nothing that the handler wrote has arrived behind the first ending frame, and a complete one if and only if, besides, the last ending frame has arrived. |
| `StreamTheorems.BodiesOfWhole` | internal/httpapi/server.go:553-580 | Whichever handler calls overlap the ending, what the handler writes is in the whole stream once and in order. |
| `StreamTheorems.CanBeCompleted` | internal/httpapi/server.go:540-729 | Whatever the grammar does not reject can be completed to a sentence. |
| `StreamTheorems.StreamedIsAnswerIff` | internal/runtime/copilot.go:385-430 | The streamed text is the deltas put together; it equals a successful answer exactly if no complete message came before the answer was made up and no text after, or the last complete message that says something, found in the list of events, repeats all deltas, those after the answer included. |
| `StreamTheorems.ReasoningIsNotMirrored` | internal/httpapi/server.go:569-580 | No stream of either protocol ever contains a reasoning delta: the delta field the handler reads is empty for reasoning. |
| `StreamTheorems.ExtensionsAreRuntimeEvents` | internal/httpapi/server.go:776-788 | The extensions in a stream are the runtime events collected for the answer, all of those that the request asked for, once and in order, and after them those of the events that came after the answer was made up. |
| `StreamTheorems.ClientReadsReached` | internal/httpapi/server.go:959-998 | Parsing the bytes that arrived gives back the frames of the chunks that were written in full. |

## Left out

- Atomicity of whole operations: `SessionModel`, `SessionRuns` and `Transcript` take each manager operation as one step, although the code unmaps an entry first and touches the file later outside the manager lock; agreement of map and file between those two moments is not claimed, and a sweep looks at a session and takes it at one moment. The lease protocol itself, with the two moments of a sweep, is modelled step by step.
- SessionManager.Manager.Acquire: as one step, a held entry lock means that the context ends; the polling loop and its retries are in `LeaseProtocol`.
- SessionManager.Manager.CloseContext: whether a held lock is given back in time is left to the lease protocol; as one step it is not.
- Stream.Send: which of several ready waits Send takes is a parameter, so an error that races with the idle event may still end in success, as in the code; nothing more is claimed.
- IdleWatchdog.CancelsOnlyWhenIdle: activity recorded between the goroutine's load of the last activity and its cancelling is missed, as in the code.
- `SetActivityHook` and `TouchActivity` of the manager: callbacks around the same map lookup that `LeaseProtocol` models for `Lookup`.
- Sessions that a runtime finishes creating after the request's context has ended: they are closed in the background and never enter the map; the model sees a failed creation.
- Closing the session object when its record cannot be saved, and the errors of closing ephemeral sessions beyond their report.
- The manager without a delete function: the gateway always passes one. A missing resume function is modelled, but `Transcript` assumes the gateway's, which is always there.
- A resumed session is taken to keep the id under which it was resumed.
- Clock readings: one operation reads the clock once; the code reads it several times in a row.
- JSON decoding and encoding, request validation, attachment download and image checks, HTTP routing, headers and write deadlines, usage recording, configuration: each a parameter or outside the model.
- Frames that two goroutines write at the very same time: they are taken to be written one after the other, so the bytes of two frames never mix; and how many events a runtime hands to its callback after Send has ended is left open.
- Failure of encoding a frame that is about to be written: frames are taken to encode, so only a broken connection stops a stream.
- The copilot runtime client, its session options and the payloads of runtime events, which appear as opaque text.
- SHA-256: fingerprints and namespaces are compared by what is hashed.
- Unicode: spaces and letter case are those of ASCII, text is a sequence of characters.
- Time limits of the bridge's waits: a handler that gives up is one that never obtains a request.
- `PendingRequests` listings and the copying of results for the runtime: field-by-field copies.
