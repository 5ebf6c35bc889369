# Orbit SDK verification model

A Dafny 4.11 model of the hard core of the Orbit client SDKs: the access engine of the Go client with its generation
fence, the durable record of an installed client, its crash-fenced replacement on Linux, floating seats, offline files,
the shutdown of the C++ client, and the codecs and arithmetic both SDKs rest on. `dafny verify dfyconfig.toml` checks it.

| modules | what they model |
|---|---|
| Storage, Access, Client, Fence, Sessions | clients over shared storage: compare-and-save, snapshots, any number of clients interleaved, floating seats |
| Decisions, Owed | what each access operation answers as a function of what its sections find; what a success rests on, when it is owed, and what a refusal means |
| Replies, SeatReplies | what every kind of reply does to state and storage, alone and among many clients; lost seat replies and their retries |
| InstalledRecord, InstalledStorage, RecordRuns, InstalledFence | the installed record: what a reader accepts, every transition, whole lives with failed writes, crashes and restarts, and the fence of the client that owns it |
| Transitions, Retries, Resumption | when each transition of the record goes through and what it writes; retrying a lost activation; what a restart brings back |
| Clock, OfflineFiles, OfflineTime, CachedGrant | anchored clocks, signed offline files, cached grants, and what their clocks guarantee over whole lives |
| FileReplace | marker, temporary file, rename and syncs over a disk that may lose anything not yet synced |
| CloseProtocol | calls, closers and worker of the C++ client, with real condition-variable sleeping |
| StorageCodec, Utf8, Base64Url, Calendar, Timestamp, TickScale, Smbios, Text | exact codecs, parsers and arithmetic |

How the model is built:

- Objects that the source updates in place are classes (`MemoryStorage`, `ProtectedStorage`, `StorageDecoder`, `Client`,
  `InstalledStorage`, `InstalledClient`, `CachingClient`, `LinuxInstalledFiles`, `ClientState`); their methods are tied to
  functions of the old state, and the machines whose runs are studied are built from those same functions.
- A reply from the network is an arbitrary verified value or one of the ways a request can fail. Clock readings, storage
  faults, generated IDs and digests are arguments, so every statement holds for all of them.
- Where a client gives up its lock, everything other goroutines may do in between is arbitrary: in `Fence` as interleaved
  steps of all clients, in `Decisions` and `Client` as the state found when the lock is taken again.
- Runs are sequences of events of any length and in any order; an event that is not enabled changes nothing.
- Fixed-width integers are unbounded in the model with their limits written out (64-bit saturation, the 2^32 accumulator,
  the 2^64 products, the last generation); masks and shifts are written as remainders and quotients by powers of two.

Where the code falls short of what its names promise, the code is kept and the exact condition is proved:
`RecordRuns.WrittenIsReadableIff` (a commit with a grant subject that is not an opaque token, or with times or a licence
expiry outside the years 1970 to 9999, writes a record that is refused when it is next read) with the concrete case
`RecordRuns.OddSubjectIsUnreadable` and with `CachedGrant.VerifiedSubjectIsReadableIff` and
`CachedGrant.OddSubjectIsVerified` showing that grant verification lets such a subject through, and `RecordRuns.SaveIsExclusiveIffNothingPending` (the storage interface's own Save,
which the installed client never calls, leaves two modes side by side exactly when an activation is pending). A restart
forgets a good cached grant exactly when it was issued more than 30 seconds after the server time of its own reply
(`Resumption.GrantIsVerifiedAgainIff`, `Resumption.LateGrantIsForgotten`), because the check made on arrival uses a later
time. The C++ worker sleeps through a wake-up exactly when it comes between the worker's last look at the epoch and its
falling asleep, since neither the epoch nor the notification is under the lock (`CloseProtocol.WakeUpIsSeenIff`,
`CloseProtocol.WakeUpCanBeLost`); the next notification or its timeout makes up for it.

## Model

| member | source | states |
|---|---|---|
| Fence.RevokedAuthorityNeverReturns | sdk/go/access.go:178-247 | Any number of clients, any interleaving: after a successful invalidation no snapshot from a later critical section is usable by virtue of a request begun before it, no reply to such a request is saved, nor installed by such a section; usable snapshots show exactly what the reply to their request told |
| Fence.GoodReplyIsTakenIff | sdk/go/access.go:833-903 | A good reply is saved and installed if and only if its client is still in the request's generation, storage is still at the version the request was built at, and storage answers; otherwise nothing is saved, installed or shown |
| Fence.StepKeeps | sdk/go/access.go:431-520 | Every step of every client keeps the fence: a request in flight is of an earlier generation or of this generation and storage version, and all authority in memory stems from a reply at the present storage version |
| Replies.DeniedAuthorityNeverReturns | sdk/go/access.go:1003-1022 | After a denial, or a reply that cannot be trusted, in storage that takes the invalidation: over every interleaving before and after, no later section of any client shows, saves or installs what an earlier request was told, and storage holds no credential at a version one higher |
| Replies.RepliesDo | sdk/go/access.go:833-1023 | Every field of state and storage after each kind of reply: good, outage, unsupported version, cancelled, withheld, dead, unacceptable, with storage taking each operation or not |
| Replies.StepAccepts | sdk/go/access.go:833-1023 | A client among many others does the same, and nothing else changes any client |
| Storage.SaveIsFenced | sdk/go/storage_protected.go:57-76 | A save happens exactly at the version it names, if storage answers and writes; it never moves the version, and a failed one changes nothing stored |
| Storage.InvalidationAdvances | sdk/go/storage.go:65-74 | An invalidation succeeds exactly below the last version in storage that answers and writes; it raises the version by one and removes the credential, which memory forgets in any case |
| Storage.MemoryStorage.Save | sdk/go/storage.go:56-64 | The object's save is the fenced save |
| Storage.MemoryStorage.Invalidate | sdk/go/storage.go:65-74 | The object's invalidation, with the credential gone even at the last version |
| Storage.ProtectedStorage.Save | sdk/go/storage_protected.go:57-76 | A provider that failed once is never used again; otherwise the fenced save |
| Storage.ProtectedStorage.Invalidate | sdk/go/storage_protected.go:77-96 | The same for invalidation, including the version limit |
| Access.SnapshotsAreBacked | sdk/go/access.go:256-386 | Every snapshot that enables a feature is backed by authority that holds the feature and has not expired at that clock reading |
| Access.SeatSurvivesForItsOwnCredential | sdk/go/access.go:899-915 | A validation keeps a seat or a pending seat ID only for the same activation, licence and installation |
| Owed.AccessIsGivenIff | sdk/go/access.go:691-801 | RequireAccess succeeds if and only if live authority with the feature is found on its path: an authorised live file, a seat live at both looks, a seat request that gives one, a fresh grant, or, after a refresh that went through or failed for the moment, whatever lives then; and the answer is the report of that authority |
| Owed.NotActivatedMeans | sdk/go/access.go:803-815 | A caller is told that access is not activated only where the section that decides holds no live authority |
| Owed.FeatureUnavailableMeans | sdk/go/access.go:691-801 | A caller is told that a feature is unavailable only where live authority does not list it, or a seat request or refresh came back saying so |
| Owed.RefusedAtOnceMeans | sdk/go/access.go:720-775 | An authorised file that is not live is refused as expired exactly when its clock can be trusted; a client with nothing to refresh learns the exact reason |
| Owed.AccessIsEnsuredIff | sdk/go/access.go:658-689 | EnsureAccess succeeds if and only if RequireAccess does or, after it answered not activated, the activation with a given key does |
| Owed.ActivationGivesIff | sdk/go/access.go:431-520 | An activation gives a feature if and only if every section goes through in its generation, storage takes the invalidation, the reply is good and saved or an outage is bridged, and what is then held, or the seat acquired, lives and lists it |
| Owed.AcceptAnswersIff | sdk/go/access.go:833-1023 | A reply is answered with a snapshot if and only if it is good and saved, or an outage is bridged by a live file or an unexpired grant that allows offline use; the snapshot reports exactly what is then held |
| Owed.SessionGivesIff | sdk/go/sessions.go:172-214 | StartSession gives a feature if and only if a live seat, or live authority that needs none, is found, or its request is granted a live seat in its generation |
| Owed.RenewalAnswersIff | sdk/go/sessions.go:447-488 | The exact condition under which a renewal is answered with a seat |
| Owed.LookIsUsableIff | sdk/go/access.go:256-386 | A look is usable if and only if the authority in charge, file before seat before grant, lives at that clock reading, and then shows every field of it |
| Decisions.RequiredAccessIsBacked | sdk/go/access.go:691-801 | For every run of a RequireAccess that succeeds: the feature is enabled by a file, grant or seat that the state of its first section, its second look, its last section or its seat request held, unexpired at that very section's clock reading, with storage synchronised there |
| Decisions.EnsuredAccessIsBacked | sdk/go/access.go:658-689 | The same for EnsureAccess; when the key was asked for, by the accepted reply of that activation or the seat acquired after it |
| Decisions.SessionIsBacked | sdk/go/sessions.go:172-214 | The same for StartSession: the state found, or the seat that the reply to this request put into the last section's state in the same generation |
| Decisions.AcceptedIsBacked | sdk/go/access.go:833-1023 | A snapshot handed out by accept rests on the verified reply installed in the state found, or after an outage on the grant that state still held |
| Decisions.ActivatedIsBacked | sdk/go/access.go:431-520 | An activation's snapshot rests on the reply to its own request, begun in the generation it raised, or on the seat acquired after it |
| Client.Client.RequireAccess | sdk/go/access.go:691-801 | The step-by-step call succeeds if and only if its path finds live authority with the feature (RequireGives), answers what RequireAnswer says of its sections, and RequireGrants names the section, state and clock reading a success rests on |
| Client.Client.EnsureAccess | sdk/go/access.go:658-689 | The prompt is used if and only if RequireAccess answers that access was not activated and a prompt was given; it succeeds if and only if RequireAccess does, or the activation made with the key gives the feature |
| Client.Client.CheckedSnapshotLocked | sdk/go/access.go:256-296 | Answer, state and storage are exactly those of a look at the fields the section holds: synchronised with storage first, refused exactly when closed or storage does not answer |
| Client.Client.Accept | sdk/go/access.go:833-1023 | The imperative acceptance makes exactly the interleaved machine's steps, leaves state and storage as Does says for each kind of reply, answers a snapshot if and only if Accepts says, and AcceptGrants names the state it rests on |
| Client.Client.Withhold | sdk/go/access.go:202-216 | Both storage operations of a denial that keeps the credential equal the machine's two steps |
| Client.Client.SignOff | sdk/go/access.go:388-413 | Local access is gone even when storage fails; otherwise the machine's step |
| Client.Client.BeginActivating | sdk/go/access.go:452-508 | Before a key is sent the state is cleared, the generation raised and storage invalidated |
| Client.Client.StartSession | sdk/go/sessions.go:172-214 | It gives a feature if and only if SessionGives finds a live seat or its request is granted one, and every feature of a success is backed in the section SessionGrants names |
| Client.Client.FinishSeat | sdk/go/sessions.go:285-321 | A seat is shown only from a reply to this request, in the generation it was asked in; state, storage and snapshot are those of the machine's step |
| Client.Client.FinishRenewing | sdk/go/sessions.go:447-488 | The same for a renewal, which the seat must still be waiting for; the answer is RenewalAnswer |
| Client.Client.BeginRenewing | sdk/go/sessions.go:412-436 | The seat waits for the number that is sent, which a retry repeats |
| Client.Client.EndSession | sdk/go/sessions.go:380-404 | The local seat and pending ID are gone in a new generation before the release, which goes out exactly for a seat or pending ID with a credential |
| Sessions.NumbersAreConsecutive | sdk/go/sessions.go:216-321 | Over every run the numbers accepted for a seat are exactly 1, 2, 3 and so on, and none answers a request that an EndSession came after |
| Sessions.RequestsCarryTheNextNumber | sdk/go/sessions.go:407-488 | Every request carries one more than the last number accepted for its seat, so a retry repeats its number |
| Sessions.EndedRequestIsRefused | sdk/go/sessions.go:290-293 | A reply whose request predates an EndSession changes nothing |
| Sessions.EndedSeatNeedsAnExplicitStart | sdk/go/sessions.go:236-275 | After EndSession a seat is asked for again if and only if the start is explicit and a credential is there, under a new ID |
| SeatReplies.LostRenewalIsRepeated | sdk/go/sessions.go:412-488 | A renewal whose reply is lost changes nothing; the next one repeats its seat and number, and its reply is accepted |
| SeatReplies.AnsweredRenewal | sdk/go/sessions.go:475-488 | A reply that answers the renewal puts its seat in place if and only if the seat still waits for it |
| SeatReplies.UnansweredRenewal | sdk/go/sessions.go:454-474 | Every field after any other end: a lost reply changes nothing, an expired seat is dropped and may be started anew, every other refusal or a caller who gave up drops and disables it |
| SeatReplies.LostStartIsRepeated | sdk/go/sessions.go:236-321 | A start whose reply is lost changes nothing; the next explicit one asks with the same ID and its reply gives the seat |
| InstalledStorage.InstalledStorage.WriteLocked | sdk/go/installed_storage.go:27-53 | A record is replaced only after the files took it; a failed replacement poisons the object for good |
| InstalledStorage.InstalledStorage.Begin | sdk/go/installed_storage.go:153-203 | State, answer and failure are those of the begin transition, all refusals included; Retries says what that transition writes and when a retry goes through |
| InstalledStorage.InstalledStorage.Commit | sdk/go/installed_storage.go:204-245 | The transition function of commit |
| InstalledStorage.InstalledStorage.CommitCredential | sdk/go/installed_storage.go:246-258 | The transition function of commitCredential |
| InstalledStorage.InstalledStorage.Invalidate | sdk/go/installed_storage.go:102-119 | The transition function of the three invalidations |
| InstalledStorage.InstalledStorage.DropCache | sdk/go/installed_storage.go:120-129 | The transition function of dropCache |
| InstalledStorage.InstalledStorage.RebindIfChanged | sdk/go/installed_storage.go:130-152 | The transition function of rebindIfChanged; success means the record is bound to this machine |
| InstalledStorage.InstalledStorage.Checkpoint | sdk/go/installed_storage.go:259-274 | The transition function of checkpoint |
| InstalledStorage.InstalledStorage.SaveOffline | sdk/go/installed_storage.go:291-311 | The transition function of saveOffline |
| InstalledStorage.InstalledStorage.CheckpointOffline | sdk/go/installed_storage.go:312-322 | The transition function of checkpointOffline |
| InstalledStorage.InstalledStorage.Save | sdk/go/installed_storage.go:66-83 | The transition function of the interface's Save |
| RecordRuns.OneModeAtATime | sdk/go/installed_storage.go:95-322 | Over every life with failed writes, crashes and restarts at most one of credential, pending activation and offline token is on the medium, cached access only with a credential, and the generation never falls |
| RecordRuns.WrittenIsReadableIff | sdk/go/installed_codec.go:97-154 | From a readable record, what a transition writes is accepted by the reader if and only if its inputs are in range |
| RecordRuns.RecordStaysReadable | sdk/go/installed_codec.go:115-152 | With inputs in range, over every run, the medium can always be read again unless a replacement broke it |
| RecordRuns.OddSubjectIsUnreadable | sdk/go/installed_codec.go:115-129 | A licence ID of one space is committed and the record is then refused |
| RecordRuns.SaveIsExclusiveIffNothingPending | sdk/go/installed_storage.go:66-76 | The raw Save keeps the modes exclusive exactly when nothing is pending |
| RecordRuns.ClearingIsComplete | sdk/go/installed_storage.go:102-119 | What ends a mode ends all of it, nothing but a commit brings cached access, and offline sequence and marks outlive every clearing |
| RecordRuns.CommittedCredentialIsLoaded | sdk/go/installed_codec.go:155-165 | The credential that is committed is the credential that is loaded |
| RecordRuns.OfflineFilesNeverRollBack | sdk/go/installed_storage.go:291-311 | Authorised files of one binding never go back in sequence, and equal sequences are the same issue and claims, even after authority was cleared in between |
| RecordRuns.PendingStaysUntilCleared | sdk/go/installed_storage.go:178-203 | No step ever replaces the pending activation on the medium: it stays as it is, or is cleared, and exactly that begins the next epoch |
| RecordRuns.ActivationRequestsRepeat | sdk/go/access.go:461-515 | All requests sent between two clearings of the pending activation from the medium carry the same operation ID and input digest, over lost replies, retries, failed writes and restarts, and each left only after the medium held it |
| Retries.RetryLaw | sdk/go/installed_storage.go:178-203 | On what a first begin wrote, a later begin goes through if and only if it has the same principal and input, no other operation ID, and comes within a day; it sends the same operation ID, and is refused as expired or as another activation otherwise |
| Retries.FirstBegin | sdk/go/installed_storage.go:153-203 | With nothing pending a begin goes through if and only if its arguments are well-formed, the clock works and the generation is not the last; it sends the caller's operation ID or else the new one, and the record holds that with its principal, digest and time |
| Retries.LostActivationIsRetried | sdk/go/access.go:461-515 | The same law over every run after the first begin that does not clear it: lost replies, failed begins, failed writes, crashes and restarts |
| Retries.ActivationSurvivesRestart | sdk/go/access.go:461-515 | Begin, crash, restart, begin again: both requests leave with one operation ID |
| Retries.PendingSurvives | sdk/go/installed_storage.go:95-322 | A pending activation that is not cleared is on the medium exactly as it was |
| InstalledFence.RevokedAuthorityNeverReturns | sdk/go/access.go:833-1023 | Over every life of an installed client, with failed writes, crashes, restarts and replies in flight across every transition: once a section has left a higher generation on the medium, no reply to a request begun before is committed or installed, no usable snapshot rests on one, and none supplied the cached access on the medium |
| InstalledFence.ClearingsRaise | sdk/go/installed_storage.go:102-119 | A sign-off, a new activation or an import that storage takes raises the record's generation by one, and so does one reported as failed that yet arrived |
| InstalledFence.ReplyIsTakenIff | sdk/go/access.go:880-915 | With files that answer, a reply is taken if and only if its request is of this process and its present generation; its request was then built at the present generation of the record |
| InstalledFence.StepKeeps | sdk/go/access.go:178-247 | Every section of every life keeps the fence, and keeps whatever was begun before a raised generation out |
| OfflineFiles.FileIsTakenIff | sdk/go/installed.go:473-527 | An import plans a file if and only if the clocks can be trusted and the file is signed, issued for this installation at most 30 seconds ahead, unexpired, of at most 366 days, and later than the one saved last or the same issue; otherwise the exact refusal, and the exact record and clock of the plan |
| OfflineFiles.CompletesIff | sdk/go/installed.go:473-577 | The whole import as one condition on storage, clocks, file and caller |
| OfflineFiles.PlansNeverRewind | sdk/go/installed.go:473-540 | What an import saves is never behind what was saved, names exactly the verified file, and is what saveOffline accepts |
| OfflineFiles.VerifiedFileIsLive | sdk/go/offline.go:216-218 | A verified file belongs to this installation, is live, and has at most 366 days and 30 seconds left |
| OfflineFiles.InstalledClient.ImportOffline | sdk/go/installed.go:451-577 | It succeeds if and only if the file is due, storage answers and writes, the caller has not given up and the new clock runs (Completes); then planned, saved and only then authorised; after a failure nothing new is authorised, and a file that was saved is invalidated again |
| OfflineFiles.InstalledClient.DecideImport | sdk/go/installed.go:473-527 | The step-by-step decision equals the plan and leaves at most a doubt on the running file |
| OfflineFiles.InstalledClient.RestoreOffline | sdk/go/installed.go:261-289 | The step-by-step restoration equals the specification |
| OfflineFiles.InstalledClient.CheckpointOffline | sdk/go/installed.go:384-417 | The marks move forward or the file is no longer authorised |
| OfflineTime.ExpiredFilesNeverReturn | sdk/go/installed.go:384-417 | Once the medium has held a time mark, no later life of that installation reports Offline access from a file that expires at or before it, whatever is imported, whatever the wall clock says, reboots and rebinds included |
| OfflineTime.CheckpointRecordsItsTime | sdk/go/installed_storage.go:312-322 | A successful checkpoint records the time it was made at |
| Resumption.FileStays | sdk/go/installed.go:261-289 | Over every run of transitions that do not clear it, with failed writes, crashes and restarts, an imported file stays on the medium unless a replacement broke it |
| Resumption.HeldFileIsRestored | sdk/go/installed.go:261-289 | A restart restores it, authorised, at the later of wall clock and time mark |
| Resumption.RestoredFileIsReported | sdk/go/access.go:263-276 | A restored file is reported at once if and only if it has not expired and the wall clock is not behind its mark |
| Resumption.StartAuthorisesIff | sdk/go/installed.go:255-289 | In whole lives, a started process has an authorised file if and only if the record it bound holds one and keys and clock are there |
| Resumption.ImportAuthorisesIff | sdk/go/installed.go:451-577 | In whole lives, an import authorises its file, which the medium then holds, if and only if it is complete |
| Resumption.CheckpointIsAccepted | sdk/go/installed.go:384-417 | What a running file's checkpoint plans, the record it was saved in accepts |
| CachedGrant.WindowIsShort | sdk/go/grants.go:215-223 | A verified grant lives at most a day from its issue and, within 30 seconds, from the verification |
| CachedGrant.VerifiedSubjectIsReadableIff | sdk/go/grants.go:223-225 | What is committed after a grant was verified, the rest in range, can be read again if and only if the verified subject consists of token characters |
| CachedGrant.OddSubjectIsVerified | sdk/go/grants.go:223-225 | A grant whose subject is one space passes verification at any time |
| CachedGrant.RestoredClockIsNotBehind | sdk/go/installed.go:314-338 | A restored clock starts at or above the saved server mark and inside the grant, which ends at most a day after its issue |
| CachedGrant.CacheIsUsedIff | sdk/go/installed.go:290-339 | The exact condition under which cached authority is restored |
| Resumption.CommittedGrantComesBackIff | sdk/go/installed.go:290-340 | A committed grant is restored after a restart if and only if it was not issued more than 30 seconds after its reply's own time, the clocks kept step, the wall clock has not gone back, and the estimated time is within grant and credential; the exact clock it then runs by |
| Resumption.GrantIsVerifiedAgainIff | sdk/go/grants.go:215-223 | A grant verified on arrival is verified again by a restart if and only if it was not issued more than 30 seconds after the server time of its reply |
| Resumption.LateGrantIsForgotten | sdk/go/installed.go:290-300 | A grant that is good online and forgotten by a restart |
| Resumption.GrantCheckpointsIff | sdk/go/installed_storage.go:259-274 | A checkpoint by the clock the grant was received with is taken if and only if neither clock is behind its mark or past the year 9999 and both kept step, which one reading of both always has |
| CachedGrant.CachingClient.RestoreGrant | sdk/go/installed.go:290-340 | The step-by-step restoration equals the specification; what cannot be trusted is dropped |
| CachedGrant.CachingClient.CheckpointGrant | sdk/go/installed.go:353-382 | It succeeds if and only if the anchored clock can be read and the record takes the checkpoint, and then records the anchored time; any failure gives the authority in memory up |
| CachedGrant.MarksNeverFall | sdk/go/installed_storage.go:259-274 | Over every run the marks of one cached grant never fall and every checkpoint keeps drift within 30 seconds |
| CachedGrant.OfflineReportsAreLive | sdk/go/access.go:340-386 | Cached Offline access is reported only before the grant's expiry, at most a day after issue, only if allowed, and never behind the recorded server mark |
| FileReplace.CrashAtAnyStep | sdk/go/installed_linux.go:143-185 | Stopping after any step, any step failing with or without its effect: reopening reads exactly the old record, exactly the new one, or is refused, and from the moment the fence's sync has returned never the old one |
| FileReplace.SuccessIsDurable | sdk/go/installed_linux.go:177-184 | After success every later opening reads the new record, crash or not |
| FileReplace.ReplacementSucceedsIff | sdk/go/installed_linux.go:143-185 | A replacement succeeds if and only if each of its twelve file operations does; its own checks never stand in the way |
| FileReplace.OldRecordsNeverReturn | sdk/go/storage_secret_linux.go:173-188 | Over every run of replacements, deaths, power losses and openings no opening reads an earlier record than one before it, nor one from before the last fenced replacement |
| FileReplace.WrittenIsFound | sdk/go/installed_linux.go:116-185 | Write, exit, open: the next process reads exactly what was written |
| FileReplace.LockedStaysLocked | sdk/go/storage_secret_linux.go:180-187 | A refusal whose marker is on disk is permanent |
| FileReplace.LinuxInstalledFiles.Write | sdk/go/installed_linux.go:143-185 | The object's disk goes through exactly the states the crash results speak of, and nothing happens under a marker |
| FileReplace.LinuxInstalledFiles.Read | sdk/go/installed_linux.go:116-142 | Reading is opening in the present state |
| CloseProtocol.ReleaseIsLast | sdk/cpp/src/persistent_client.cpp:432-535 | In every interleaving storage is released only when the worker has exited and no call runs, and a close that has returned returned after the release |
| CloseProtocol.ClosingAdmitsNobody | sdk/cpp/src/persistent_client.cpp:266-271 | Once closing is set no step lets a call in |
| CloseProtocol.WakeUpIsSeenIff | sdk/cpp/src/persistent_client.cpp:288-300 | A wake-up makes the worker go round if and only if it does not come between its last look at the epoch and its falling asleep |
| CloseProtocol.WakeUpCanBeLost | sdk/cpp/src/persistent_client.cpp:419-428 | A run in which a wake-up is slept through |
| CloseProtocol.SomeoneCanMove | sdk/cpp/src/persistent_client.cpp:423-461 | No deadlock and no lost wakeup: while a close that was entered has not returned, some thread can take a step |
| CloseProtocol.EveryStepCounts | sdk/cpp/src/persistent_client.cpp:432-535 | Once a close has begun every effective step, in any order, decreases a well-founded measure |
| CloseProtocol.CloseFinishes | sdk/cpp/src/persistent_client.cpp:432-535 | So every close that was entered returns if the threads keep moving |
| CloseProtocol.ClientState.BeginCall | sdk/cpp/src/persistent_client.cpp:266-271 | The critical section is the machine's step, and admits exactly when that step does |
| CloseProtocol.ClientState.EndCall | sdk/cpp/src/persistent_client.cpp:273-279 | The critical section is the machine's step |
| CloseProtocol.ClientState.StartWorker | sdk/cpp/src/persistent_client.cpp:281-286 | The critical section is the machine's step |
| CloseProtocol.ClientState.EnterClose | sdk/cpp/src/persistent_client.cpp:432-447 | Exactly one closer owns the shutdown, the others await it or have nothing to do |
| StorageCodec.EncodeStorageRecord | sdk/go/storage_codec.go:48-82 | Encoding gives the one byte form of acceptable content and refuses the rest |
| StorageCodec.DecodeStorageRecord | sdk/go/storage_codec.go:141-170 | Decoding answers a content exactly when the bytes are its record; no alternative spelling or trailing data |
| StorageCodec.RepresentsOne | sdk/go/storage_codec.go:84-170 | No bytes are the record of two contents |
| StorageCodec.RoundTrips | sdk/go/storage_codec.go:48-170 | Encoding and decoding are inverse in both directions |
| StorageCodec.IssuedIsStorable | sdk/go/storage_codec.go:40-82 | Every well-formed credential of the scope can be stored when the issuer has at most 31907 bytes, and that bound is met with equality by the longest parts |
| Utf8.ValidUtf8 | sdk/cpp/src/json.cpp:11-48 | True exactly for concatenated encodings of Unicode scalar values (RFC 3629 sections 3 and 4) |
| Utf8.UniqueDecoding | sdk/cpp/src/json.cpp:11-48 | The sequence of scalar values is unique |
| Utf8.Utf8Characters | sdk/cpp/src/core.cpp:72-77 | The count is the number of scalar values, refused exactly for malformed text |
| Base64Url.Base64UrlWithoutPadding | sdk/cpp/src/platform.cpp:76-106 | The loop computes the unpadded encoding of RFC 4648 section 5 |
| Base64Url.DecodeAppKeyOrigin | sdk/cpp/src/core.cpp:2415-2458 | Decodes exactly the encodings of non-empty well-formed UTF-8 and refuses everything else, with the accumulator wrapping at 2^32 |
| Base64Url.SextetsCanonical | sdk/cpp/src/platform.cpp:76-106 | Encoding is canonical and decoding gives the bytes back |
| Base64Url.OctetsCanonical | sdk/cpp/src/core.cpp:2438-2458 | Canonical digits are the encoding of what they decode to (RFC 4648 section 3.5) |
| Base64Url.ShiftIn | sdk/cpp/src/core.cpp:2438-2458 | What the accumulator loses by wrapping never reaches an output byte |
| Calendar.NextDayIsOneMore | sdk/cpp/src/core.cpp:90-98 | Every calendar successor is exactly one day later |
| Calendar.DaysCountsFromEpoch | sdk/cpp/src/core.cpp:90-98 | The closed form equals counting days one by one from 1970-01-01 |
| Calendar.DaysIncrease | sdk/cpp/src/core.cpp:90-98 | Later dates have larger day numbers |
| Calendar.DaysInjective | sdk/cpp/src/core.cpp:90-98 | Distinct dates have distinct day numbers |
| Timestamp.Timestamp | sdk/cpp/src/core.cpp:100-139 | The reader answers for exactly the texts of the grammar, with the seconds of the one moment the text renders |
| Timestamp.RenderedIsRead | sdk/cpp/src/core.cpp:100-139 | Every valid text is read back as the moment it was written from |
| Timestamp.ReadIsRendered | sdk/cpp/src/core.cpp:100-139 | Whatever is read is the rendering of a valid moment; no other spelling is accepted |
| Timestamp.Number | sdk/cpp/src/core.cpp:79-88 | Digits read as their value, anything else refused |
| TickScale.ScaleIsExact | sdk/go/clock.go:9-22 | The 128-bit multiply and divide gives the exact floor, and fails exactly for a zero factor or a result over the signed 64-bit maximum |
| TickScale.SplitIsExact | sdk/cpp/src/platform.cpp:460-472 | The same for the split form, with every product and sum modulo 2^64 |
| TickScale.ScalersAgree | sdk/cpp/src/platform.cpp:460-472 | The two forms agree on every input |
| Clock.ReadingBounds | sdk/go/clock.go:48-63 | An accepted reading is at or past its anchor and within 30 seconds of wall progress |
| Clock.ReadingsMonotone | sdk/go/clock.go:48-63 | Readings of one anchor never go back |
| Clock.SaturationClamps | sdk/go/grants.go:245-253 | Saturating addition clamps the true sum |
| Smbios.SmbiosSystemUuid | sdk/go/device_smbios.go:16-62 | Answers exactly the UUID of the one system structure before the end of table, on every byte string |
| Smbios.ParseSmbiosUuid | sdk/cpp/src/platform.cpp:162-221 | The same for the C++ walker |
| Smbios.WalkersAgree | sdk/cpp/src/platform.cpp:162-221 | Both accept the same tables and, dashes aside, name the same machine |
| Smbios.WalkIsReading | sdk/go/device_smbios.go:27-55 | The walk is the declarative reading of a list of structures |
| Access.LiveGrantIsReported | sdk/go/access.go:340-386 | A grant enables a feature if and only if it lists it, has not expired, and is fresh or, after an outage, allows offline use |
| Access.LiveSeatIsReported | sdk/go/sessions.go:49-85 | The same exact condition for a floating seat, with the licence expiry, and the seat is dropped exactly when the clock fails |
| Access.LiveFileIsReported | sdk/go/access.go:263-276 | The same exact condition for an offline file, with the wall clock rule |
| Sessions.ReplyIsAcceptedIff | sdk/go/sessions.go:447-488 | The exact condition under which a seat reply is accepted |
| OfflineTime.LookReportsIff | sdk/go/access.go:263-276 | A look reports the file exactly when storage answers, the clocks can be trusted and the file has not expired |
| RecordRuns.RetryGoesThroughIff | sdk/go/installed_storage.go:178-203 | A begin on a pending record goes through exactly for the same input, principal and operation within a day; it then sends the pending operation ID and leaves the pending record as it is |
| Replies.RefusalsTell | sdk/go/access.go:833-1023 | Which failure the caller of each kind of reply is told |
| Replies.SynchronisingKeepsIff | sdk/go/access.go:178-191 | A client keeps what it has if and only if storage reports the version it knows; otherwise nothing is left |
| Replies.ActivationLeavesIff | sdk/go/access.go:452-508 | An activation's request leaves if and only if storage takes the invalidation, with everything cleared, in a new generation at the new version |
| Replies.StartLeavesIff | sdk/go/sessions.go:216-275 | A start's request leaves if and only if no live seat is found, a credential is, and the seat is not disabled or the start explicit; with the ID of the lost start unless that is too old |
| Replies.LooksAreShown | sdk/go/access.go:248-255 | A look is handed out as it is, usable if and only if authority lives, under the request that authority came from |
| Replies.SeatStepDoes | sdk/go/sessions.go:285-321 | Every field after each end of a start, among many clients |
| Replies.RenewalStepDoes | sdk/go/sessions.go:447-488 | Every field after each end of a renewal, among many clients |
| SeatReplies.RenewalLeavesIff | sdk/go/sessions.go:407-436 | A renewal leaves if and only if a seat and a credential are there and nothing is in flight, for the number after the seat's |
| SeatReplies.StartEnds | sdk/go/sessions.go:285-321 | Every field after each end of a start |
| Transitions.CommitsGoThroughIff | sdk/go/installed_storage.go:204-258 | A commit goes through if and only if it names the present generation, and every field it writes |
| Transitions.CommitAnswersBegin | sdk/go/installed_storage.go:204-258 | After a begin exactly the version it returned can be committed at |
| Transitions.InvalidationGoesThroughIff | sdk/go/installed_storage.go:102-119 | An invalidation goes through below the last generation, and every field it writes |
| Transitions.RebindingGoesThroughIff | sdk/go/installed_storage.go:130-152 | Another machine loses everything but scope and provider, the same one nothing |
| Transitions.CheckpointGoesThroughIff | sdk/go/installed_storage.go:259-274 | A checkpoint goes through if and only if its marks do not fall, stay before the year 10000 and keep step |
| Transitions.SavingGoesThroughIff | sdk/go/installed_storage.go:291-311 | A file is saved if and only if it is at the present version, not behind the one saved last, and below the last generation; everything else goes |
| Transitions.FileCheckpointGoesThroughIff | sdk/go/installed_storage.go:312-322 | A file's checkpoint goes through if and only if it is for the saved file and its marks do not fall |
| Transitions.WrittenIff | sdk/go/installed_storage.go:27-53 | A write succeeds if and only if the object is sound, the files answer, the record fits and the replacement succeeds; only a failed replacement spoils the object |
| InstalledFence.SectionsAskAndShow | sdk/go/access.go:178-247 | What each section of the installed client asks, takes and shows, exactly |
| InstalledFence.ProcessStartsIff | sdk/go/installed.go:174-235 | A process starts if and only if the record can be read and bound to this machine, and then knows its generation, credential and restored grant |
| Resumption.RestoresIff | sdk/go/installed.go:261-289 | A token is restored if and only if keys and clock are there and the record holds its file |
| CachedGrant.GrantIsAcceptedIff | sdk/go/grants.go:215-223 | A signed grant is accepted if and only if its subject, issue, expiry, refresh time and licence expiry are as the policy allows, in plain seconds |
| CachedGrant.LookReportsIff | sdk/go/access.go:340-386 | Cached Offline access is reported if and only if storage answers, the clock can be read, the grant lives and allows it, and an outage is bridged |
| CloseProtocol.OpenClientAdmits | sdk/cpp/src/persistent_client.cpp:266-279 | Until closing is set, and unless persistence failed, every call that gets the lock is admitted and counted, and counted out when it ends |
| CloseProtocol.WorkerStartsIff | sdk/cpp/src/persistent_client.cpp:281-286 | A worker starts exactly once, in an open persistent client |
| CloseProtocol.NextNoticeIsSeen | sdk/cpp/src/persistent_client.cpp:419-428 | The next notification of any kind, or the timeout, makes up for it |
| Clock.ReadingIff | sdk/go/clock.go:48-63 | A reading is accepted if and only if nothing leaves the 64-bit range and the wall clock kept step within 30 seconds; it is the anchor's time and the whole seconds passed |

## Left out

- HTTP, TLS, retries and DNS: a reply is an arbitrary value or failure.
- Signatures, digests, key sets and random IDs: signed tokens are a map from token to claims, digests and IDs are arguments; generated IDs are assumed not to repeat where a machine says so.
- JSON text: records are typed values, so exactInstalledShape, uniqueJSON and the encoding's length appear only as an argument saying whether the encoding fits; the cached key set and the SDK name are not part of the record.
- Pacing: retry deadlines, jitter, nextRetry, lastCheckpoint and the worker's wake-up times only decide when a step happens.
- Update hints, credential expiry display, resource counters, accounts and downloads: flat validation.
- Windows and macOS files, secret-service and keychain providers, directory pinning and file identity: only marker, record, temporary file, rename and syncs are modelled.
- The C++ access engine mirrors the Go one and is not modelled a second time.
- The uint64 wrap-around of the in-memory generation is not modelled; the limits of stored generations and versions are.
- Overflow of the 64-bit difference between two wall clock readings is not modelled; differences are exact.
- Fence.RevokedAuthorityNeverReturns: covers clients over shared memory or protected storage; an installed client owns its record alone under its lease, and its fence is InstalledFence.RevokedAuthorityNeverReturns.
- InstalledFence.RevokedAuthorityNeverReturns: speaks of what reached the medium; when an invalidation fails and leaves the old record, only this process's own access is gone. Access from an offline file is not traced here but in OfflineTime.
- Client.Client.RequireAccess: the refresh it makes on the ordinary path is left arbitrary, because the snapshot taken after it decides.
- Client.Client.EnsureAccess: the key is given with surrounding blanks already removed, and the operation's arguments are taken as valid.
- CloseProtocol.ReleaseIsLast: closing from the worker thread itself, where the worker is detached instead of joined, is not covered.
- OfflineTime.ExpiredFilesNeverReturn: assumes an elapsed clock that never goes back while one process lives, and new installation IDs at rebinding.
- OfflineFiles.InstalledClient.ImportOffline: the doubt a failed clock check leaves on the running file is kept, but the order of its two assignments with other goroutines is not, since both happen under the lock.
