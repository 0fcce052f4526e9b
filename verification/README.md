# Network service: reconciliation, runtime, listing and intents

A Dafny model of four parts of the network service, with proofs over every run, every schedule and
every request. `dafny verify dfyconfig.toml` checks the whole project.

**Attachment reconciliation** (`Evidence`, `Uuid`, `Attachments`, `Provider`, `Store`, `Outcomes`,
`Requests`, `Histories`, `Protocol`, `Theorems`, `Workers`). A worker claims a durable row under a lease epoch, asks the instance
owner for its submission state, observes the provider, decides and commits through a fenced finish.
`Attachments` holds the decision twice: as a declarative outcome and as the branch-by-branch rewriting of
the progress record. `Provider` holds the observation of Pods, network cards and addresses as written, with
its attribution by owner references, names and remembered relations, and proves that it answers as the
protocol's provider, which attributes by UID. `Store` holds the row and each transaction on it, `Outcomes`
says in the terms of row, answer and observation alone what a reconciliation concludes and a commit writes,
`Requests` does so for the requests of callers, `Histories` holds whole histories of one row, `Protocol` any number of workers interleaved with the owner, the cluster, the
background collections, caller requests, notifications and crashes. `Workers` holds repository and worker
as objects with the imperative Step.

The headline results. Whatever the surroundings do, once a row is released it stays released with the owner
closed, no Pod, and nothing left that the releasing Step could attribute. The cluster is then empty of the
attachment in all runs if and only if four things hold: the owner is asked before the provider is observed,
fresh relations are collected on demand, a closed owner names every Pod it started, and a card goes before
its addresses only once it has been witnessed. And every concurrent run is a serial history of atomic Steps.

**Worker runtime** (`Runtime`, `Lifecycle`, `Lanes`). Start, Stop and SetConcurrency calls from any number of
callers, the lanes, the database monitor, the results channel, the wait group and the deferred shutdown
as interleaved atomic steps.

**Listing** (`Base64`, `Cursors`, `Json`, `Listing`, `Walks`, `Queries`, `Sessions`). The cursor codec down
to base64url and an injective JSON printer, filter normalisation, the two page cutters, the VPC and load
balancer list operations, and whole client sessions over a table that changes between pages.

**Load balancer intents and views, governance actors** (`LoadBalancers`, `Intents`, `Views`,
`Governance`). Normalisation as a canonical form, the freshness view, and the canonical actor names.

`Text` holds string order and decimal numerals.

## What the model assumes

- An owner that answers "closed" for this attachment is closed. A closed owner starts no Pod.
- A card arises only from its live Pod or beside another card of that Pod, an address only from its live card
  or beside another address of that card. Card UIDs are not used twice, and a UID keeps its name.
- Pods carry the attachment's label, and each card and each address has one owner reference. Foreign objects
  that make the provider report a conflict are covered: it may fail at any moment.
- The database clock does not run backwards. The owner is asked and the provider observed by calls that
  take arbitrary time; every port answer is an input.
- A Step, and a readiness probe, called by a lane or the monitor returns eventually, in any way.
- The MAC and the filter digest are arbitrary functions. The JSON parser reads back what the printer wrote;
  `Json.CodecExists` shows that such parsers exist for every printing that tells printable times apart.
- The repository answers a list query with the first matching rows after the given key, as its SQL says.

## What turned out false, and exactly when

- A released attachment can leave objects behind: the card of a Pod the closing owner does not name and
  nobody saw (`Theorems.UnacknowledgedPodsAreUnsafe`), and the address of a card that went unwitnessed
  (`Theorems.UntracedCardsAreUnsafe`). What is left is exactly what could not be attributed
  (`Theorems.CleanExactlyIfAttributable`); with both habits ruled out nothing is (`Theorems.SafeExactly`).
- A worker whose owner UUID is not written in printed form commits nothing in any run, because the lease owner
  column returns the printed form (`Theorems.UnprintedOwnersNeverCommit`,
  `Workers.ShoutedWorkerNeverCommits`). In a layout the column refuses it cannot even claim.
- Repeating a Step on a released row with unchanged facts keeps it if and only if the owner writes its
  finalization identity in printed form; otherwise the repetition contests the row
  (`Histories.RepeatingReleaseIsStable`, `Histories.CleanReleaseThenContested`).
- After Stop has marked the server not alive it can become alive again exactly when a racing Start was
  admitted, has its dependencies and has not yet marked it (`Lifecycle.StopCanBeOvertaken`,
  `Lifecycle.RaceExists`). It cannot once Stop has returned without error.
- The cursor of a page is accepted back if and only if its last item was created before the year 10000;
  beyond, the printing error is dropped and an empty body signed (`Queries.IssuedCursorContinues`).
- The two page cutters agree exactly when the repository returns no more rows than asked for
  (`Listing.CuttersAgree`).
- The freshness window has a beginning exactly below the largest duration; there, evidence of any age is shown
  (`Views.WindowsBegin`, `Views.AncientStateShows`).

## Model

| member | source | states |
|---|---|---|
| Attachments.CheckConsumer | internal/biz/network/attachment_worker.go:171-196 | The early-exit loop accepts exactly the owner answers that name this attachment, hold at most one Pod and no empty one, carry a known state and a close time once closed, and keep a finalization identity the row has bound |
| Attachments.Reconcile | internal/biz/network/attachment_worker.go:85-161 | Rewriting the progress branch by branch yields the declarative outcome: when a fact contests the row, when it releases, and which state, identity, reason and proof result |
| Outcomes.FaultyIsInvalid | internal/biz/network/attachment_worker.go:171-196 | An owner's answer is unusable exactly if its protocol version, any part of the submission identity, its Pods, state, finalization identity or close time is at fault |
| Outcomes.ContestedExactly | internal/biz/network/attachment_worker.go:97-160 | A row is contested exactly by a provider conflict, a Pod that does not fit, anything left after release, an unusable answer, or a closed owner that does not name the recorded Pod, and stays contested, with the protocol violation as its reason |
| Outcomes.Attaches | internal/biz/network/attachment_worker.go:110-119 | A reserved attachment whose fitting Pod is seen becomes attached to that Pod unless its owner is ending |
| Outcomes.EndsExactly | internal/biz/network/attachment_worker.go:132-145 | An ending owner's finalization identity is bound, and the attachment is released exactly if the owner is closed and names the recorded Pod, nothing is left and nothing was contested, and is releasing otherwise |
| Outcomes.OtherwiseStays | internal/biz/network/attachment_worker.go:97-160 | In every other case state and finalization identity stay as they were |
| Outcomes.PodIsBound | internal/biz/network/attachment_worker.go:114-116 | Pod name and UID become those of a fitting seen Pod and stay otherwise |
| Outcomes.FailureReasons | internal/biz/network/worker.go:407-428 | Each kind of provider failure shows its own reason on an uncontested row |
| Outcomes.UnansweredReasons | internal/biz/network/attachment_worker.go:126-129 | With a silent owner the consumer is unavailable exactly while releasing or while reserved without a Pod; a seen Pod clears the reason |
| Outcomes.OpenReasons | internal/biz/network/attachment_worker.go:152-156 | With an open owner a releasing attachment waits for its closing, an attached one without its Pod misses it, and a seen Pod clears the reason |
| Outcomes.EndingReasons | internal/biz/network/attachment_worker.go:132-151 | With an ending owner what is left is being cleaned up, a closing owner is awaited, and a release has no reason |
| Outcomes.DemandsExactly | internal/biz/network/attachment_worker.go:90-93 | Fresh relations are demanded exactly for a usable closed answer on a row not released, and the provider is told exactly the Pods of a usable answer |
| Outcomes.EvidenceIsCarried | internal/biz/network/attachment_worker.go:103-108 | Evidence is reported exactly for a successful observation, as collected or else as of the claim, and back-off exactly when somebody did not answer |
| Outcomes.CommitWrites | internal/data/network/queries/attachments.sql:37-47 | A commit writes the outcome, moves the version on by one, gives the lease back and touches neither epoch nor identity |
| Outcomes.ObservedCommitWrites | internal/data/network/queries/attachments.sql:37-47 | A commit of an observation dates it with the commit, stores its content, time and relations, and answers the notifications the claim saw |
| Outcomes.UnobservedCommitWrites | internal/data/network/queries/attachments.sql:37-47 | A commit without an observation leaves evidence, relations and notifications as they were |
| Outcomes.SeenPodAttaches | internal/biz/network/attachment_worker.go:110-119 | A reserved row over which a Step commits having seen its Pod is attached to that Pod |
| Store.DecisionAdvances | internal/biz/network/attachment_worker.go:97-161 | Every decision respects what the row has bound: states only advance, a bound Pod and a confirmed Pod stay, and attached means a Pod is bound |
| Store.FinalizationStaysCanonical | internal/biz/network/attachment_worker.go:126-145 | A decided finalization identity is a valid UUID, a stored one never changes, and exactly the ending states carry one |
| Store.AtomicOutcome | internal/data/network/attachment_worker.go:62-101 | A finish on an unchanged row commits if and only if the lease is the worker's and current, the evidence covers, the identifier fits the column and Pod name and UID are set together: the state, Pod and finalization guards never stop it |
| Store.AtomicFailures | internal/data/network/attachment_worker.go:62-101 | A finish on an unchanged row is an error exactly if the database refuses the finalization layout or a nameless Pod, and a lost lease otherwise |
| Store.AdvancesIsRank | internal/data/network/attachment_worker.go:62-101 | States may change exactly along their rank |
| Store.WrittenChecks | migrations/0003_attachment.sql:2-30 | The row a finish writes meets the constraints on the modelled columns if and only if Pod name and Pod UID are set together |
| Store.ConfirmKeepsRow | internal/data/network/attachment.go:132-171 | An accepted confirm keeps the row invariant and only moves the row forward |
| Store.ReleaseKeepsRow | internal/data/network/attachment.go:172-203 | An accepted release request keeps the row invariant and only moves the row forward |
| Requests.ConfirmsExactly | internal/data/network/attachment.go:132-171 | A Pod is confirmed anew exactly if it is well named and placed, the row is reserved without any Pod and the version is current, and then only its identity is bound |
| Requests.ConfirmRefusals | internal/biz/network/attachment.go:123-133 | Which refusal answers which fault of a confirm request |
| Requests.ConfirmTwice | internal/data/network/attachment.go:145-149 | Confirming the same Pod again, with whatever version, changes nothing |
| Requests.ReleasesExactly | internal/data/network/attachment.go:172-203 | A release is recorded exactly for a finalization identity in printed form and the current version, and then the row is releasing |
| Requests.ReleaseAgain | internal/data/network/attachment.go:183-188 | A recorded identity is accepted again without effect and any other is a conflict |
| Requests.RequestsFenceClaims | internal/data/network/queries/attachments.sql:16-21 | A request that changes the row fences off every claim made before it |
| Store.TransactionKeepsRow | internal/data/network/queries/attachments.sql:16-47 | Every transaction on a row keeps the invariant (contested if and only if the reason is protocol violation, attached implies a Pod, ending if and only if finalized, confirmed Pod equals Pod) and moves it forward |
| Histories.HistoryMovesForward | internal/data/network/queries/attachments.sql:16-47 | Along every history state ranks never fall, bound Pod, confirm and finalization identities never change, a block is never lifted, and versions, epochs, generations and applied times only grow |
| Histories.ReleaseIsEarned | internal/biz/network/attachment_worker.go:126-160 | A row becomes released only by a reconciliation that demanded fresh relations, with a validly closed owner acknowledging the recorded Pod, nothing left, and no contest before or after |
| Histories.EvidenceNeverRollsBack | internal/biz/network/observation.go:20-25 | Along every history, content that differs from earlier content was collected no earlier than that content was applied |
| Histories.LaterContentIsNewer | internal/biz/network/observation.go:20-25 | Along every history, content that follows other content applied at some time was collected at that time or later |
| Histories.ContentComesFromEvidence | internal/data/network/queries/attachments.sql:37-47 | Content changes only by a committed observation, which it then dates and describes |
| Histories.TimedEvidenceCovers | internal/biz/network/observation.go:20-25 | Timed evidence covers exactly if it answers every notification and is no older than what was applied or the same content again |
| Histories.NotificationsAreCovered | internal/data/network/observation.go:16-21 | An observed reconciliation processes every notification pending when it was claimed, and never more than were requested |
| Histories.UntimedEvidenceCovers | internal/biz/network/attachment_worker.go:104-108 | Evidence without a time of its own covers its claim if and only if the claim's clock is set and not behind the applied time |
| Histories.OneStepReleases | internal/biz/network/attachment_worker.go:126-145 | From every uncontested row, with a validly closed owner and nothing left, one committed Step releases it with an empty reason |
| Histories.RepeatingReleaseIsStable | internal/biz/network/attachment_worker.go:171-196 | Repeating that Step keeps state, identities and reason if and only if the owner writes its finalization identity in printed form |
| Histories.CleanReleaseThenContested | internal/biz/network/attachment_worker.go:126-160 | A concrete identity in upper case: the release commits clean and every repetition contests it |
| Protocol.FinishIsAtomic | internal/data/network/attachment_worker.go:62-101 | Passing the fence means the claimed copy equals the row, so the interleaved Step has the outcome of an atomic one |
| Protocol.NewReleaseLeavesNothing | internal/biz/network/attachment_worker.go:87-96 | A Step that newly releases had demanded fresh relations, the owner is closed, and when it commits nothing is left that it could attribute |
| Protocol.NothingIsClean | internal/data/network/kc_attachment.go:135-222 | Nothing attributable is nothing at all where every started Pod is known to the Step and every address has a live or remembered card |
| Protocol.EnvironmentKeepsInv | internal/data/network/kc_attachment.go:135-222 | While a three-part collection is under way nothing the owner or the cluster does can bring back what it did not find and could attribute |
| Protocol.ObserveKeepsInv | internal/data/network/kc_observed_provider.go:57-138 | Answers from the last completed collection, failures, and each listing of a fresh collection attributed as the provider does keep the protocol invariant |
| Protocol.NextKeepsInv | internal/biz/network/attachment_worker.go:78-170 | Every step of every interleaving keeps the protocol invariant and is one transaction, or none, on the row |
| Protocol.BehaviourKeepsInv | internal/biz/network/attachment_worker.go:78-170 | The invariant holds at every moment of every run |
| Theorems.RunsAreSerial | internal/biz/network/attachment_worker.go:78-170 | Every concurrent run is a serial history: a Step that commits acted on the row as it stood, every other Step left it alone |
| Theorems.RowsMoveForward | internal/biz/network/attachment_worker.go:78-170 | Between any two moments of any run the row satisfies its invariant and only moved forward |
| Theorems.ReleasedLeavesNothing | internal/biz/network/attachment_worker.go:85-145 | Once released in any run, in any surroundings, for ever released with the owner closed, no Pod, no card of a Pod the releasing Step knew of, no card witnessed before, and no address of such a card |
| Theorems.CleanExactlyIfAttributable | internal/data/network/kc_attachment.go:144-184 | The cluster of a released row is clean if and only if every card left is of a known Pod or witnessed and every address left is of a witnessed card |
| Theorems.ReleasedStaysClean | internal/biz/network/attachment_worker.go:85-145 | Where closed owners name all their Pods and cards are traced, once released is for ever released with no Pod, card or address left |
| Theorems.OneWriterAtATime | internal/data/network/queries/attachments.sql:34-47 | At every moment of every run at most one worker can still pass the fence |
| Theorems.MayFail | internal/biz/network/attachment_worker.go:78-96 | A worker may crash anywhere, the owner may stay silent and the provider may fail |
| Theorems.MayClaim | internal/data/network/queries/attachments.sql:31-36 | Once a lease has run out any resting worker with an admissible owner can claim the row, in a new epoch and for its own lease |
| Theorems.StaleRelationsAreUnsafe | internal/data/network/kc_observed_provider.go:73-84 | Without fresh relations on demand some run answers truthfully from a collection completed before the last Pod started, and releases the row while that Pod exists |
| Theorems.AskingLastIsUnsafe | internal/biz/network/attachment_worker.go:87-96 | If the owner is asked after the observation some run releases a row while a Pod exists |
| Theorems.UnacknowledgedPodsAreUnsafe | internal/data/network/kc_attachment.go:144-157 | If a closed owner may leave out a Pod nobody saw, some run releases the row while the card of that Pod exists |
| Theorems.UntracedCardsAreUnsafe | internal/data/network/kc_attachment.go:175-184 | If a card may go unwitnessed before its address, some run releases the row while the address exists |
| Theorems.SafeExactly | internal/biz/network/attachment_worker.go:87-96 | All runs release only clean attachments if and only if the owner is asked first, fresh relations are collected on demand, closed owners name all their Pods and cards are traced |
| Theorems.UnprintedOwnersNeverCommit | internal/biz/network/attachment_worker.go:67-77 | In every run, whoever else works, a worker whose owner text is not in printed form leaves the row as it is when it finishes |
| Provider.FindPod | internal/data/network/kc_attachment.go:111-137 | The loop over Pods succeeds exactly when at most one could be the attachment's and it fits, and returns that one |
| Provider.FindCards | internal/data/network/kc_attachment.go:138-169 | The loop over cards succeeds exactly when no card that could be the attachment's contradicts it, and tracks the owned ones beside those remembered |
| Provider.FindAddresses | internal/data/network/kc_attachment.go:170-202 | The loop over addresses succeeds exactly when no address that could be the attachment's contradicts it or its card references, and tracks the owned ones beside those remembered |
| Provider.TracksExactly | internal/data/network/kc_attachment.go:164-168 | No remembered card UID is ever forgotten, every owned one is remembered, and nothing else is |
| Provider.ObserveAttachment | internal/data/network/kc_attachment.go:77-222 | An observation succeeds exactly on consistent listings and reports the Pod, whether anything is owned, and what is remembered from now on |
| Provider.FindingsAreReports | internal/data/network/kc_attachment.go:77-222 | What the observation by names and references finds is a report by UID as the protocol's provider gives it |
| Provider.LabelledPodIsFound | internal/data/network/kc_attachment.go:111-137 | The labelled Pod of consistent listings is reported, and a card it owns counts |
| Provider.OrphansCount | internal/data/network/kc_attachment.go:138-202 | Cards of the recorded and of acknowledged Pods and addresses of remembered cards count without any Pod |
| Provider.PodContradictions | internal/data/network/kc_attachment.go:116-128 | A Pod with the recorded or an acknowledged UID or the recorded name but no label, an unsound or second labelled one, or one with another UID than recorded, is a conflict |
| Provider.CardContradictions | internal/data/network/kc_attachment.go:142-162 | A card remembered or annotated for the Pod but not owned by it, replaced under its name, or unsound, is a conflict |
| Provider.AddressContradictions | internal/data/network/kc_attachment.go:176-189 | An address remembered, owned by a remembered card or naming one that is not owned by it, is replaced, unsound or refers elsewhere, is a conflict |
| Provider.DanglingReferences | internal/data/network/kc_attachment.go:203-211 | A card or address the Pod's annotations name and that is not there is a conflict |
| Provider.ForeignObjectsAreIgnored | internal/data/network/kc_attachment.go:117-119 | Objects without any relation to the attachment change nothing |
| Workers.Repository.ClaimAttachment | internal/data/network/attachment_worker.go:13-61 | A claim succeeds exactly when no lease is current and the owner column takes the owner text, and fails on a due row otherwise; it opens a new epoch and hands out the row as updated |
| Workers.Repository.FinishAttachment | internal/data/network/attachment_worker.go:62-101 | A commit happens only under the worker's own current lease on the version it claimed and with covering evidence, takes back no Pod, block or state, and leaves a row whose fence no claim on that or an earlier version passes; otherwise the row is unchanged |
| Workers.AttachmentWorker.New | internal/biz/network/attachment_worker.go:67-77 | A worker exists exactly for a non-nil UUID owner, at most one observer and a lease of at least three requests |
| Workers.LeaseHoldsThreeRequests | internal/biz/network/attachment_worker.go:67-71 | For a UUID owner the constructor takes exactly policies whose lease holds three requests, with at most one observer |
| Workers.AttachmentWorker.Step | internal/biz/network/attachment_worker.go:78-170 | A Step finds work exactly when the row is claimable and the owner text admissible, leaves the row of an atomic reconciliation or the claimed row, and reports a lost lease as no error |
| Workers.SoloStepCommits | internal/biz/network/attachment_worker.go:67-77 | A Step with nothing in between commits if and only if its owner text is in printed form, its lease lasts, its evidence covers and the written row is well formed |
| Workers.ShoutedWorkerNeverCommits | internal/biz/network/attachment_worker.go:67-77 | An owner text in upper case is taken by the constructor and the owner column, and its worker commits nothing in any run |
| Uuid.CanonicalIsFixed | migrations/0003_attachment.sql:2-30 | What a UUID column returns denotes the same value and is stable from then on |
| Uuid.LayoutsAgree | internal/biz/network/attachment_worker.go:67-69 | The same digits in any of the four layouts are the same UUID, and a column takes all but the URN and only real braces |
| Uuid.NilIsInvalid | internal/biz/network/attachment_worker.go:67-69 | The nil UUID is no identity in any layout and every other is |
| Runtime.WorkerServer.constructor | internal/server/worker.go:39-41 | A new server is neither started nor stopped, not alive, with a concurrency of one |
| Runtime.WorkerServer.SetConcurrency | internal/server/worker.go:90-98 | Accepted exactly before Start and within 1..4, changing nothing else |
| Runtime.WorkerServer.BeginStart | internal/server/worker.go:45-54 | Start is admitted exactly when neither started nor stopped |
| Runtime.WorkerServer.BeginStop | internal/server/worker.go:148-158 | Stop always bars Start, and takes away whether to cancel and whether to wait |
| Lifecycle.NextKeepsInv | internal/server/worker.go:45-167 | Every step of every caller, lane and the monitor keeps the runtime invariant, including the wait group and result counts |
| Lifecycle.StartsOnce | internal/server/worker.go:45-87 | In every schedule the body of Start runs at most once, done is closed at most once, and no lane begins two Steps after cancellation |
| Lifecycle.StopIsFinal | internal/server/worker.go:148-167 | From the moment any Stop returns without error, for ever, no lane or monitor runs and the server is not alive |
| Lifecycle.LanesNeverBlock | internal/server/worker.go:71-86 | In every schedule a lane about to send its result finds room in the channel |
| Lifecycle.StepDrains | internal/server/worker.go:99-130 | Once cancelled, every step of body, lanes and monitor uses up outstanding work; nothing else adds any but a clock tick |
| Lifecycle.CancellationIsBounded | internal/server/worker.go:71-147 | After cancellation every schedule, however unfair, holds at most the outstanding work plus three steps per clock tick of body, lanes and monitor |
| Lifecycle.ShutdownNeverSticks | internal/server/worker.go:55-87 | Once cancelled, some step of body, lanes or monitor is possible until the body has returned |
| Lifecycle.StopCanBeOvertaken | internal/server/worker.go:45-66 | After Stop cleared the alive mark it can be set again if and only if a racing Start was admitted, is configured and has not set it yet |
| Lifecycle.RaceExists | internal/server/worker.go:148-167 | A schedule of two calls reaches that race |
| Lanes.FailedLaneBeginsNoMore | internal/server/worker.go:99-130 | In every run a lane whose Step returned a fatal error or panicked begins no Step ever again |
| Lanes.FatalErrorEndsServer | internal/server/worker.go:71-87 | From every running state a fatal error in any lane leads to cancellation of the whole server |
| Lanes.ResultEndsServer | internal/server/worker.go:80-87 | A waiting body that finds a result takes it and cancels everything |
| Lanes.ServerStaysUp | internal/server/worker.go:80-87 | Uncancelled and without a result the body goes on waiting, whatever happens |
| Lanes.HealthyLaneComesRound | internal/server/worker.go:107-130 | A lane without a fatal error comes round to begin the next Step |
| Lanes.MonitorProbesAgain | internal/server/worker.go:132-147 | The monitor probes again at every tick |
| Lanes.AllLanesSpawned | internal/server/worker.go:71-79 | In every schedule a configured server that finished spawning has one lane per kind and unit of concurrency |
| Lanes.StartsExactly | internal/server/worker.go:45-54 | A Start is taken exactly if no Start or Stop came before it |
| Lanes.ConcurrencyExactly | internal/server/worker.go:90-98 | Concurrency is taken exactly within 1..4 before Start |
| Lanes.ConcurrencyIsFrozen | internal/server/worker.go:90-98 | Once started no step changes the concurrency |
| Lanes.StopInOrder | internal/server/worker.go:148-167 | A Stop bars later Starts, clears the alive mark, cancels a taken Start and then waits, in this order |
| Lanes.ReturnedBodyIsCancelled | internal/server/worker.go:55-61 | In every schedule a body that returned, for whatever reason, left its context cancelled, done closed and the server not alive |
| Lanes.MayHappen | internal/server/worker.go:99-167 | A Step may panic, one Step may still begin as cancellation comes, a Stop may lose patience, and the parent may cancel |
| Base64.DecodeEncode | internal/biz/network/list.go:79-109 | Decoding an encoding gives the bytes back |
| Base64.EncodeLength | internal/biz/network/list.go:79-84 | The unpadded encoding of n bytes has (4n+2)/3 symbols, rounded down |
| Base64.DecoderIsLenient | internal/biz/network/list.go:91-101 | The raw decoder accepts several texts for the same bytes, so the canonical-form check is needed |
| Base64.TestVectors | internal/biz/network/list.go:79-84 | Vectors of RFC 4648 and the two symbols of the URL-safe alphabet |
| Base64.OtherBytesAreRefused | internal/biz/network/list.go:91-101 | Any byte that is neither a symbol nor a line break makes a text undecodable |
| Cursors.AcceptedExactly | internal/biz/network/list.go:86-109 | A text is accepted if and only if it is at most 2048 long and is the signed form of a body that parses, and the result is what that body parses as |
| Cursors.SignedInjective | internal/biz/network/list.go:79-84 | Each accepted text stands for one body |
| Cursors.BodyThenSignature | internal/biz/network/list.go:79-84 | The signed text is the encoded body, a dot and the encoded MAC, in this order |
| Cursors.MarshalLength | internal/biz/network/list.go:79-84 | The JSON body of every cursor the service can issue is at most 1100 bytes, escapes included |
| Cursors.IssuedFits | internal/biz/network/list.go:79-90 | Every cursor the service can issue is at most 1520 long, below the decoder's limit |
| Cursors.JsonRoundTrips | internal/biz/network/list.go:79-109 | Every issued cursor is decoded to itself if its time has a printed form, and rejected otherwise |
| Json.EscapeRoundTrip | internal/biz/network/list.go:79-84 | Every character can be read back from its JSON escape, and no escape begins with the closing quote |
| Json.EscapesExactly | internal/biz/network/list.go:79-84 | Characters HTML could mistake, control characters and line separators are printed as code escapes, quotes with a backslash |
| Json.MarshalSpelled | internal/biz/network/list.go:79-84 | The keys of the body and their order, spelled out |
| Json.MarshalInjective | internal/biz/network/list.go:79-84 | Distinct cursors with printable times print as distinct bodies |
| Json.CodecExists | internal/biz/network/list.go:79-109 | For every MAC, digest and printing that tells printable times apart there is a codec that prints JSON, reads it back and rejects an empty body |
| Json.RoundTripsAreReal | internal/biz/network/list.go:79-109 | A concrete codec has the round trip the list operations rely on |
| Listing.NormalizeList | internal/biz/network/list.go:111-133 | The reassigned locals yield the specified filter or error |
| Listing.NormalizesExactly | internal/biz/network/list.go:111-133 | Filters are taken exactly with a page size of 1 to 100 or none for 20, a trimmed UTF-8 name of at most 128 characters without control characters, and a known state |
| Listing.TrimsExactly | internal/biz/network/list.go:118-120 | Trimming takes away exactly the spaces around a text |
| Listing.NormalizeIdempotent | internal/biz/network/list.go:111-133 | Accepted filters are accepted again unchanged |
| Listing.PrecedesIsStrictTotalOrder | internal/data/network/queries/vpcs.sql:43-50 | Creation time and identifier, both descending, order keys strictly and totally |
| Listing.ListingsExactly | internal/data/network/queries/vpcs.sql:43-50 | Listed rows are newest first with larger identifiers first among equals, carry the given name, are not deleted unless asked for by state, and come after the given key |
| Listing.CutByLoop | internal/biz/network/list.go:64-76 | The loop keeps the first rows and takes the cursor from the last kept row exactly when there is one more |
| Listing.CutBySlice | internal/biz/network/load_balancer.go:333-338 | There is a next key exactly when the limit was reached; then the page is all rows but the last and the key is that of the last row kept; otherwise the page is all rows |
| Listing.CuttersAgree | internal/biz/network/load_balancer.go:333-338 | The two cutters give the same page if and only if the repository returned no more rows than asked |
| Listing.ReceivedAscends | internal/biz/network/list.go:41-77 | Over a table that changes arbitrarily between pages the keys received strictly ascend |
| Listing.ReceivedIsComplete | internal/biz/network/list.go:41-77 | A key listed in every snapshot is received |
| Listing.TraversalIsExact | internal/biz/network/list.go:41-77 | A complete traversal returns no key twice and every key that matched throughout exactly once |
| Listing.StaticTraversalIsTheListing | internal/biz/network/list.go:64-76 | On an unchanging table the pages of a finished traversal join to exactly the matching rows in order |
| Walks.WalkIsBounded | internal/biz/network/list.go:41-77 | On an unchanging table no walk along cursors, finished or not, is longer than the pages the matching rows make, and it is finished exactly when it is that long |
| Walks.ListingExists | internal/data/network/queries/vpcs.sql:43-50 | Every table has a listing for every filter |
| Walks.WalkCanBeFinished | internal/biz/network/list.go:41-77 | Every walk along cursors goes on to a finished one |
| Queries.PreparedExactly | internal/biz/network/list.go:41-59 | A request is taken if and only if tenant, filters and scope are in order and it carries no cursor, or the short signed text of a cursor of this very query, and then continues after that cursor's key |
| Queries.CursorsAreNotShared | internal/biz/network/list.go:50-59 | One cursor text is never accepted for two tenants, two kinds of list, two names or two states |
| Queries.FrontExactly | internal/biz/network/load_balancer.go:309-319 | The front of a request is taken exactly if its tenant may be acted for and its filters and scope are in order |
| Queries.TenantsExactly | internal/biz/network/vpc.go:61-67 | Tenants are non-nil UUIDs of 36 characters, taken in printed form |
| Queries.CallersAreConfined | internal/biz/network/egress.go:58-78 | A caller acts for its own tenant, also unnamed, and for delegated ones, and for no other |
| Queries.IdentifiersExactly | internal/biz/network/network.go:172-182 | Identifiers are a prefix and thirty-two lower-case hexadecimal digits |
| Queries.AnswerIsFirstRows | internal/biz/network/list.go:60-77 | The answer holds the first matching rows in order, hands out a cursor if and only if some matching row is still to come, and whatever is still to come comes after the page |
| Queries.CursorsAreBound | internal/biz/network/list.go:50-59 | An issued cursor is accepted exactly by queries of its own tenant, kind, name and state, if its time has a printed form, and they continue right after it |
| Queries.IssuedCursorContinues | internal/biz/network/list.go:46-90 | The cursor of a page, sent back with the same filters, is accepted and continues right after that page if and only if its time has a printed form |
| Queries.CursorOfPage | internal/biz/network/list.go:64-72 | The cursor a page hands out is that of its last item with the query's own tenant, kind and filters |
| Queries.ScopesAreSeparate | internal/biz/network/load_balancer.go:318-327 | A cursor of one load balancer list is accepted by another only if the digests of their further filters are equal |
| Queries.NormalisedFiltersAreTheSame | internal/biz/network/list.go:111-133 | Sending the normalised filters instead of the raw ones is the same query |
| Sessions.ListIsLawful | internal/biz/network/load_balancer.go:309-343 | Both list operations hand out a cursor exactly when there is more, and a request with it, if accepted, asks for the rest |
| Sessions.SessionIsTraversal | internal/biz/network/list.go:41-77 | A client's session of signed cursors with a lawful service is a traversal by keys |
| Sessions.SessionIsExact | internal/biz/network/load_balancer.go:309-343 | A client following cursors while VPCs or load balancers come and go receives none twice and all that matched throughout |
| LoadBalancers.EndpointKeyInjective | internal/biz/network/load_balancer.go:165-169 | For valid subnets and addresses the endpoint text determines subnet, address and port |
| LoadBalancers.CompareIsTotalOrder | internal/biz/network/load_balancer.go:187-203 | The comparison is a total order whose ties agree on all four fields |
| LoadBalancers.ComparesExactly | internal/biz/network/load_balancer.go:187-203 | Subnet decides first, then address, then member identity, then port, texts byte by byte |
| LoadBalancers.PrivateExactly | internal/biz/network/load_balancer.go:154-157 | Of the dotted quadruples exactly those in 10/8, 172.16/12 and 192.168/16 are taken |
| LoadBalancers.SortFunc | internal/biz/network/load_balancer.go:181-184 | A sorted permutation of the input |
| Intents.CheckBackend | internal/biz/network/load_balancer.go:151-174 | One backend passes exactly when it is acceptable on its own and neither map knows it; an impossible subnet is reported as not found, anything else as invalid |
| Intents.MapsDetectClashes | internal/biz/network/load_balancer.go:149-170 | The two maps of seen texts reject a backend exactly when it shares an identity or an endpoint with an earlier one |
| Intents.CollectBackends | internal/biz/network/load_balancer.go:149-180 | The loop succeeds exactly on acceptable clash-free lists, appends them with defaults filled in, and reports not found exactly when an impossible subnet is the first fault |
| Intents.NormalizeMutable | internal/biz/network/load_balancer.go:129-186 | Normalisation succeeds exactly on acceptable requests and leaves name, description, health with defaults and a sorting of the backends |
| Intents.SortingIsUnique | internal/biz/network/load_balancer.go:181-184 | Without ties any two sortings of a collection are the same, so an unstable sort does no harm |
| Intents.OrderDoesNotMatter | internal/biz/network/load_balancer.go:150-203 | For any permutation of the backends both requests fail or both succeed with the identical list |
| Intents.IntentIsCanonical | internal/biz/network/load_balancer.go:150-203 | Under one health port, two backend lists are accepted together and stored identically if and only if they name the same backends up to order and omitted defaults |
| Intents.RequestIsCanonical | internal/biz/network/load_balancer.go:123-203 | Two requests are accepted together and stored identically, name, description, health and backends, if and only if they say the same up to backend order, omitted defaults and the one protocol |
| Intents.DefaultsAreBlind | internal/biz/network/load_balancer.go:123-186 | Writing out weight 1, interval 5, timeout 3 and thresholds 3 and 1 changes neither acceptance nor what is stored |
| Intents.StoredExactly | internal/biz/network/load_balancer.go:175-178 | Every backend of an accepted request is stored with its own weight or weight 1, and the health check with its own values or 5, 3, 3 and 1 |
| Intents.HealthExactly | internal/biz/network/load_balancer.go:136-146 | A health check is taken exactly if it is TCP on a valid port with a positive timeout below the interval and positive thresholds |
| Intents.BackendExactly | internal/biz/network/load_balancer.go:151-177 | A backend is taken exactly if subnet, private address, the health check port, identity and a weight of at most a million are in order |
| Intents.ClashesExactly | internal/biz/network/load_balancer.go:149-170 | Two backends exclude one another exactly if they share an identity or an endpoint, and none at all are refused |
| Intents.NormalisedIsFixed | internal/biz/network/load_balancer.go:123-186 | Sending back the stored health and backends with everything spelled out is accepted and stores the same again |
| Views.Observation | internal/biz/network/load_balancer.go:256-272 | The overwriting loop on the cloned slice yields the specified view and leaves the original slice as it was |
| Views.OnlySupportedStatesShow | internal/biz/network/load_balancer.go:256-272 | A data-plane or backend state other than unknown is shown only with evidence in the window ending now, which has no beginning at the largest freshness, and then as stored |
| Views.WindowsBegin | internal/biz/network/load_balancer.go:258 | Evidence older than the window is stale if and only if the freshness is below the largest duration |
| Views.SeenTwice | internal/biz/network/load_balancer.go:256-272 | Viewing a view at the same instant changes nothing |
| Governance.ValidActor | internal/server/governance.go:145-153 | Accepted exactly are the two prefixes followed by the printed form of a number in 1..4294967295 |
| Governance.NamesAreUnique | internal/server/governance.go:145-153 | An accepted name determines its prefix and its number |

## Left out

- Due times, retry delays and back-off of a row: a claim may happen whenever no lease is current, which allows every schedule the due times allow.
- Queueing across rows, parent locks and the history table: one row is modelled, and the transactions on it are taken as atomic.
- Address eligibility, current marks and owner UIDs inside the relations document, and the observer callback: the relations are the remembered UIDs.
- The watch that invalidates cached collections, and the checks of the provider on labels, annotations, kinds and subnets one by one: the former only makes answers fresher, the latter are one flag of an object.
- Preparing and inserting attachments: runs begin with a freshly prepared row.
- Errors of the database connection: a claim or finish that fails this way leaves the row as a crash does.
- Workers.Repository.ClaimAttachment: an owner that is no UUID cannot be passed, because a worker with such an owner does not exist.
- Panics of the database monitor, the poll interval of lanes, logging and `Ready`.
- The attribution check of tenant callers. Subnet lists have the shape of VPC lists.
- The views inside list items, and the subnet and connectivity columns joined to them.
- JSON parsing, HMAC, SHA-256 and the printing of timestamps: parameters of the codec.
- The shared name check of load balancer requests: a parameter. `Intents.NormalisedIsFixed` asks that a normal name stays as it is.
- Create, update and delete of load balancers around normalisation: exposure, listener and entry address checks.
- Governance identity beyond the actor name: certificates, metadata and the method allowlist.
