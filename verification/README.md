# ai-quota-frame in Dafny

A model of the parts of ai-quota-frame whose mistakes are visible on paper: an e-paper panel that
repaints physically, slowly, and only when told to. It covers the image transaction protocol (native
and browser), pairing with its crash-safe key store, the pipeline that decides whether a frame
changed, the concurrent workers around them, and the byte and pixel level they stand on.

Protocols are state machines: a `System`, an `Action`, when it is `Enabled`, its `Next` state, and
`Feasible` runs of any length. Replies, losses, crashes, statuses and scheduling are arguments of the
actions, so a statement over every feasible run is a statement over every interleaving. Objects the
source updates in place are classes; each of their methods is proved equal to a function on the
object's abstract value, and the statements are proved about that function.

| module | what it models |
|---|---|
| `AppImage` | BEGIN/CHUNK/COMMIT/QUERY transactions of the native sender, with jobs that outlive their caller |
| `WebSender` | the browser's write-ahead COMMIT with many tabs, one durable record and a page lock |
| `Upload`, `CoC` | chunk plans on every transport; record framing, short reads and writes, tags |
| `Repaint` | when one image is committed twice, over runs of `AppImage`: the exact guard |
| `Delivery` | what the panel's buffer holds, over runs of `AppImage`, when a COMMIT leaves |
| `BondStore`, `Pairing` | candidate and active key files as atomic steps; the ceremony against a device |
| `Quota`, `Layout`, `ViewModel` | snapshots, their two projections, and the frame as a function of the snapshot |
| `Refresh`, `Producer` | one refresh of the service, its fingerprint and data time; the frame cache |
| `Link`, `Pusher`, `Slots` | the session actor, the single-slot push queue, A/B slot selection |
| `Crc`, `Png`, `Dither`, `Paging` | CRC-32, PNG chunks and filters, error diffusion, signed paged reads |
| `Wrappers`, `Lists` | options and results; sequence functions that loops are proved against |

## What is taken as given

- HMAC, SHA-256, key agreement and JSON appear as injective or unforgeable: a digest is the value it
  is taken of, a valid tag is one its holder computed. Random request, client and binding identities
  are fresh.
- Deflate and inflate are functions with `inflate(deflate(x)) == x` for the scanlines at hand.
- The device follows its documented behaviour where its firmware is not in this repository: a BUSY
  reply means the command was not admitted; a pairing session that was cancelled or has expired never
  comes back; a new session starts only on an unowned device with none in progress.
- For what the panel's buffer holds at COMMIT alone: a receipt that says Receiving tells how many bytes
  the panel holds, and a CoC chunk that was written is taken.
- A `Send` that returns ends its job's context. A frame is logged at the context check before it, so no
  frame of a job is logged after its `Send` returned; a mark that passed its check, an answer being read
  or an error may still come late.
- Retention keys are pairs of strings: the separator does not occur inside them.
- Location offsets are whole minutes. Percentages, costs and light are real numbers.
- A shared lock file and the browser's exclusive page lock give mutual exclusion and are released
  when their holder dies.

## Where the code does less than its comments or documentation say

Each of these is a proved run or condition, not a guess.

- **Overlapping sends repaint.** Two `Send` calls for one PNG that overlap can put two COMMITs of that
  PNG on the wire with no completion between them (`OverlappingSendsRepaint`). `Send` calls that do not
  overlap cannot, however late their jobs end (`CommitsOfOneImageAreSeparated`). The exact condition,
  over every run: requests of one image send COMMITs only across the earlier one's completion, and a
  failed image's COMMIT is never sent again, if and only if each COMMIT leaves while the image is not
  blocked and every other request of it whose COMMIT left was displayed
  (`CommitsOkExactlyWhenGuarded`). `MarksOkExactlyWhenGuarded` says the same of the mark before COMMIT,
  where the region that sets `committed` could test it. At most one COMMIT per request holds in every run.
- **A late job misleads the next send.** After its `Send` returned a job sends nothing, but it can still mark
  its request when the next `Send` has started (`LateMarkIsNotSeparated`), and it can learn then that its
  request failed: the image is blocked, and the next `Send`, already let in, commits it all the same
  (`LateFailureIsCommittedAgain`). Without late jobs neither happens (`OrderlyImagesAreCommittedOnce`).
- **A load is not atomic.** `LoadBond` reads two files without the lock. A relationship it finds was the
  one in force at some instant between its reads (`LoadedBondWasThere`), but it can report none although
  there was one at every instant (`LoadCanMissEveryBond`). That takes a forgetting that removes the
  active record beside a candidate between the reads; otherwise there was an instant without any
  (`NothingWasThere`).
- **A late candidate hides the owner's key.** `savePendingBond` checks only that no candidate exists.
  A ceremony that stalls between negotiation and save, while its session expires and a second one is
  approved and confirmed, then publishes a candidate that shadows the key the device honours
  (`LateCandidateHidesTheOwner`). `JointExactlyWhenSavesAreSafe` gives the exact condition: client,
  device and disk agree throughout a run if and only if no candidate is published while the active
  record is still the device's owner, which authenticating with that record first would show.
  Negotiations that do not overlap are enough (`OneNegotiationAtATimeIsJoint`).
- **An exclusive call can meet an open session.** If a dial fails and its job starts between the dial's
  return and `Run`'s own attempt at the claim, the job opens a session beside whatever `Run` does next
  (`LateClaimOverlaps`). An open session's claim was late if and only if `Run` can get to exclusive work
  while it is open (`LateExactlyWhenExclusiveWorkCanOverlap`). The native dialer closes that window until
  shutdown, because its dial returns only after its job.
- **An exclusive call can be forgotten.** Two sessions, one of them with a late claim, can both leave an
  exclusive call in the one slot; the second overwrites the first, which is never answered
  (`TwoSessionsOverwriteTheSlot`). Over every run no accepted call is forgotten if and only if that never
  happens (`NothingForgottenExactlyWhenNeverOverwritten`).
- **The latest snapshot can be lost.** When `postCurrent`'s guard fires nothing is sent, yet the attempt
  reports a push, so the digest is recorded and the snapshot removed. The guard fires when the queue was
  paused meanwhile, so `SetPaused` does not preserve the latest snapshot
  (`PauseCanLoseTheLatestSnapshot`), and equally when a newer snapshot superseded this one: if the newer
  one renders to the same image it is then dropped as unchanged, with no pausing anywhere
  (`SupersedingCanLoseTheLatestSnapshot`). One image can also reach the panel twice in a row
  (`GuardRepeatsAnImage`); without the guard it cannot (`NeverTheSameImageTwiceInARow`), and after a guard
  it can if and only if that guard took another image for sent (`CanRepeatExactlyWhenAnotherWasSkipped`).
  The exact condition: every snapshot taken for pushed has its image on the panel if and only if the guard never
  fired (`RecordsAreTrueExactlyWhenNeverSkipped`).

## Model

| member | source | states |
|---|---|---|
| AppImage.DisplayedExactlyOnMatchingCompletion | internal/ble/app_image.go:243-260 | exactly one receipt shape counts as displayed (complete, no error, this request, this size received in full, this digest), exactly one leaves the request open (the same, still processing), the device's own failure of this image is reported with its code, and every other receipt leaves the outcome unknown |
| AppImage.AtMostOneAdmittedCommit | internal/ble/app_image.go:262-384 | in every run with overlapping sends, late jobs, lost and BUSY replies, a request has at most one admitted COMMIT, and after it, or once it is marked committed, only QUERY follows |
| Repaint.CommitsOfOneImageAreSeparated | internal/ble/app_image.go:262-410 | if sends of one PNG do not overlap, then however late their jobs end, two COMMITs of that PNG under different requests have the first one's authenticated completion between them |
| Repaint.OrderlyImagesAreCommittedOnce | internal/ble/app_image.go:262-410 | if also no job outlives its send, the same holds of the marks, and a PNG that ended failed or unknown is neither marked nor committed again |
| Repaint.MarksOkExactlyWhenGuarded | internal/ble/app_image.go:371-378 | over every run, overlapping sends and late jobs included: two requests of one image are marked for COMMIT only with the first one's authenticated completion in between, and a failed image is never marked again, if and only if every mark was made with the image not blocked and every other possibly committed request of it displayed |
| Repaint.CommitsOkExactlyWhenGuarded | internal/ble/app_image.go:371-384 | the same of the COMMIT frames: they are separated by completions and never follow a failure if and only if each left with the image not blocked and every other request whose COMMIT had left displayed |
| Repaint.GuardedMarksSeparateCommits | internal/ble/app_image.go:371-384 | a guard in the region that marks a request is enough to separate the COMMITs of one image on the wire |
| Delivery.CommittedBufferIsThePicture | internal/ble/app_image.go:336-384 | over every run with honest receipts, on either transport and however uploads broke and resumed: when a COMMIT leaves, the panel's buffer is the PNG if and only if what it reported at BEGIN was the PNG's own beginning |
| Repaint.OverlappingSendsRepaint | internal/ble/app_image.go:269-296 | a run of two overlapping sends commits one PNG twice with nothing shown in between |
| Repaint.LateMarkIsNotSeparated | internal/ble/app_image.go:369-378 | a run of sends that do not overlap in which the first one's job, past its last context check, marks its request after the second send started; no COMMIT of the first request ever leaves |
| Repaint.LateFailureIsCommittedAgain | internal/ble/app_image.go:328-335 | a run of sends that do not overlap in which the first one's job reads a failed answer to its BEGIN after the second send was let in, which then commits the blocked image |
| AppImage.SuccessNeedsMatchingCompletion | internal/ble/app_image.go:385-410 | every send that returned success was preceded by a completion receipt for its request, size and digest |
| AppImage.RefreshingNeverFails | internal/ble/app_image.go:250-252 | over every run, no receipt of a panel still refreshing, and none that it has refreshed, decides a request against its PNG |
| AppImage.RefreshingLeavesTheRequestOpen | internal/ble/app_image.go:385-410 | in every run, a COMMIT or QUERY answered by a panel still refreshing changes nothing the sender knows, frees the radio, and lets its Send report the request as pending and leave it open |
| AppImage.RefreshingIsResumed | internal/ble/app_image.go:269-296 | after such an answer to a COMMIT the next Send of the PNG goes on with that very request if and only if the PNG is not blocked; after one to a QUERY, if and only if it is not blocked and the request is the one the sender looks for |
| AppImage.UncertainIsQueried | internal/ble/app_image.go:302-335 | in every state of every run, the Send of a PNG whose request may have been committed leads to a QUERY of that request on the target and bond it was committed to, to an unknown outcome on any other, and never to a second upload |
| AppImage.DecidedExactlyByCause | internal/ble/app_image.go:219-410 | an undecided request is decided in a step exactly by a signed answer that does not say it is under way, by a signed status that its application or bond is gone, or by a final error its job ends with; never by a lost link, a timeout, a refreshing panel, a new Send or an explicit push |
| AppImage.AdmittedExactly | internal/ble/app_image.go:269-296 | over every run, a Send is refused exactly for a blocked PNG, answered at once exactly for the PNG its last request displayed, resumes exactly a committed, undecided request of it, and otherwise uploads under a new ID |
| AppImage.ExplicitPushSendsAgain | internal/ble/app_image.go:184-200 | over every run, an explicit push is refused exactly while a request is uncertain or the PNG is blocked; where it is allowed the next Send uploads the PNG again, unless its current request was committed and is undecided |
| AppImage.UploadProceedsExactly | internal/ble/app_image.go:336-368 | an upload goes on exactly after the receipt that receives this request up to the expected offset, or after any CoC chunk; only the codes for busy and for memory are retryable |
| AppImage.Reusable | internal/ble/app_image.go:274-283 | a request found for reuse is one for this PNG that may have been committed or is already decided |
| AppImage.Admit | internal/ble/app_image.go:269-296 | admission keeps the sender's bookkeeping consistent and answers at once only with the outcome of the transaction it made current |
| AppImage.Finish | internal/ble/app_image.go:219-228 | deciding a transaction keeps the bookkeeping consistent and forgets no transaction |
| AppImage.Conclude | internal/ble/app_image.go:385-410 | a send decides a transaction only while it is open, only as failed, and then reports that failure |
| AppImage.PrepareExplicitPush | internal/ble/app_image.go:184-200 | an explicit push never drops an uncertain request, a block or a transaction |
| AppImage.UploadStep | internal/ble/app_image.go:336-368 | an upload advances only to the end of the chunk just sent, and never past the image |
| AppImage.AppImageSender.BeginSend | internal/ble/app_image.go:269-296 | the locked region of Send moves the sender exactly as admission does |
| AppImage.AppImageSender.MarkCommitted | internal/ble/app_image.go:373-378 | the mark before COMMIT records target, binding and uncertainty, and nothing else |
| AppImage.AppImageSender.TakeReceipt | internal/ble/app_image.go:243-260 | a receipt leaves the sender as its verdict says; it returns pending exactly for the receipt of a panel still refreshing this image, and success exactly for the completion |
| AppImage.AppImageSender.EndSend | internal/ble/app_image.go:385-410 | the end of Send leaves the sender as the conclusion says and returns its result |
| AppImage.AppImageSender.FinishTx | internal/ble/app_image.go:219-228 | finish in place is the decision function |
| AppImage.AppImageSender.ExplicitPush | internal/ble/app_image.go:184-200 | PrepareExplicitPush in place is its function |
| Upload.SendChunks | internal/ble/app_image.go:349-368 | the loop sends the plan in order, stops at the first chunk not taken, and succeeds exactly when all were taken |
| Upload.PrefixAfterAnyChunks | internal/ble/app_image.go:349-368 | after any number of chunks the device holds a longer prefix of the image, and the rest of the plan continues it |
| Upload.BufferIsImageExactlyWhenPrefixWas | internal/ble/coc.go:171-186 | the device's buffer at COMMIT is the image if and only if the bytes it acknowledged were the image's own |
| Upload.ResumedUploadCompletes | internal/ble/protocol.go:359-381 | an upload broken after any chunk is completed by resuming from what the device holds, at any chunk size |
| Upload.ChunksFitAndFollow | web/src/photoframe/sender.ts:72-76 | chunks are never empty, fit the limit, follow one another and carry the image's bytes |
| Upload.FramesFit | internal/ble/coc.go:174-181 | chunk frames fit 128 bytes on GATT and the negotiated record on CoC |
| CoC.ReadFull | internal/ble/coc.go:31-45 | short reads are joined into exactly the bytes asked for; it gives up only on a failed or empty read |
| CoC.WriteFull | internal/ble/coc.go:47-61 | short writes are continued; what went out is a prefix of what was asked, all of it on success |
| CoC.Session.Write | internal/ble/coc.go:85-95 | a record in bounds uses up one number and puts exactly its encoding on the stream; one out of bounds moves nothing |
| CoC.Session.Read | internal/ble/coc.go:97-115 | a payload is returned exactly as the grammar parses the stream, and refused only for a broken stream or a bad record |
| CoC.NewSession | internal/ble/coc.go:63-83 | a session exists exactly when the greeting arrived and is good, with its bounds and keys |
| CoC.RecordOnTheWire | internal/ble/coc.go:85-95 | a record byte by byte: length and number least significant byte first, the payload, and the tag of number and payload |
| CoC.HelloOnTheWire | internal/ble/coc.go:63-83 | the greeting byte by byte: length, magic, generation, nonzero session, both limits in bounds, tag |
| CoC.UndamagedStreamIsAccepted | internal/ble/coc.go:85-115 | what one side writes the other accepts whole, in order and unchanged |
| CoC.AcceptedIsPrefixOfWritten | internal/ble/coc.go:97-115 | whatever arrives, without a forged tag the records accepted are a prefix of those written |
| CoC.DisorderIsRejectedWhereItStarts | internal/ble/coc.go:108-113 | the first dropped, repeated or reordered record is refused and nothing after it is accepted |
| BondStore.WholeOrNone | internal/ble/bond.go:144-157 | at every point of every run with crashes, LoadBond yields one whole relationship or none |
| BondStore.EveryStepKeepsTheRelationship | internal/ble/bond.go:203-282 | a step changes what LoadBond yields only by publishing a first candidate, discarding a candidate, or forgetting; a candidate never replaces a candidate |
| BondStore.ConfirmCompletesExactlyWhatIsLoaded | internal/ble/bond.go:217-251 | confirming succeeds if and only if LoadBond still yields that relationship, and then leaves it active, alone and selected |
| BondStore.CrashInsideConfirmKeepsTheSecret | internal/ble/bond.go:217-251 | a confirmation that dies after any number of steps leaves the secret loadable |
| BondStore.ForgottenStaysForgotten | internal/ble/bond.go:255-282 | after ForgetBond has returned nothing but a new candidate brings a relationship back |
| BondStore.LateConfirmIsRefused | internal/ble/bond.go:217-236 | a confirmation arriving after ForgetBond returned is refused |
| BondStore.BondFiles.Load | internal/ble/bond.go:144-157 | loading reads the candidate first, then the active record |
| BondStore.LoadedBondWasThere | internal/ble/bond.go:144-157 | a relationship found by a load whose two reads lie among other processes' steps is the one in force at some instant between them |
| BondStore.NothingWasThere | internal/ble/bond.go:144-157 | a load that finds nothing means an instant without any relationship between its reads, unless a forgetting in between removed the active record beside a candidate |
| BondStore.LoadCanMissEveryBond | internal/ble/bond.go:144-157 | a run with such a forgetting in which the load finds nothing although there was a relationship at every instant |
| BondStore.BondFiles.SavePending | internal/ble/bond.go:159-207 | saving leaves the files as its atomic steps do, wherever the process dies |
| BondStore.BondFiles.WriteActive | internal/ble/bond.go:159-201 | writing the active record leaves the files as its steps do, wherever the process dies |
| BondStore.BondFiles.Confirm | internal/ble/bond.go:217-251 | confirming leaves the files as its atomic steps do, wherever the process dies |
| BondStore.BondFiles.ForgetBond | internal/ble/bond.go:264-282 | forgetting leaves the files as its atomic steps do, wherever the process dies |
| BondStore.BondFiles.DiscardPending | internal/ble/pairing.go:193-206 | discarding leaves the files as its atomic steps do, wherever the process dies |
| BondStore.TransactionAgreesWithFiles | web/src/ble/bonds.ts:101-116 | on the same two records, with a candidate there the browser's transaction and the file steps run to their end both succeed and leave the same records or both leave everything alone, except that the browser accepts another secret under the same public identities; with none, only the files succeed, and only for the bond already active |
| BondStore.IndexedBondStore.PutCandidate | web/src/ble/bonds.ts:91-100 | a candidate is added exactly when valid, pending and the first |
| BondStore.IndexedBondStore.Confirm | web/src/ble/bonds.ts:101-116 | both stores change, or neither, exactly when the candidate is the expected one |
| BondStore.IndexedBondStore.DiscardCandidate | web/src/ble/bonds.ts:117-129 | only the expected candidate is removed |
| BondStore.IndexedBondStore.Forget | web/src/ble/bonds.ts:130-140 | both stores end empty |
| Pairing.JointExactlyWhenSavesAreSafe | internal/ble/pairing.go:215-342 | with any message lost, crashes, cancelling and forgetting anywhere, the device's owner negotiated here and not forgotten is what LoadBond yields throughout a run if and only if no candidate was published while the active record was still the device's owner |
| Pairing.OneNegotiationAtATimeIsJoint | internal/ble/pairing.go:243-267 | ceremonies whose negotiations do not overlap always keep client, device and disk in agreement |
| Pairing.LateCandidateHidesTheOwner | internal/ble/pairing.go:337-341 | a run of two overlapping native ceremonies, the first one's session expired, breaks that agreement |
| Pairing.DiscardedNeverOwns | internal/ble/pairing.go:155-207 | a candidate is discarded only on a signed, challenge-bound cancelled or expired state, and its bond was never approved |
| Pairing.DiscardedNeverOwnsLater | web/src/ble/pairing.ts:83-125 | however cancelling raced with approval, a discarded bond never owns the device later either |
| Pairing.CandidateLeavesOnlyOn | internal/ble/pairing.go:344-392 | a candidate leaves the disk only by becoming active, by being forgotten, or by such a discard |
| Pairing.DecidedExactly | internal/ble/pairing.go:344-392 | polling discards exactly on an authentic cancelled or expired state, whatever its error code, and goes on to prove ownership exactly on an authentic bound state without one, each after nothing but authentic replies that said to wait; any error code, other state or unauthentic reply leaves the candidate alone |
| Pairing.WaitForPairing | internal/ble/pairing.go:344-392 | the polling loop makes that decision |
| Pairing.WaitIsARun | internal/ble/pairing.go:344-392 | for whatever genuine replies, the loop is a run of the state machine, so the statements above hold of it |
| WebSender.CommitIsWrittenAhead | web/src/photoframe/sender.ts:77-91 | a COMMIT leaves only while the store holds exactly its record and the tab holds the lock |
| WebSender.AdmittedAtMostOnce | web/src/photoframe/sender.ts:77-115 | however tabs interleave, abort, close and die, no request is admitted twice |
| WebSender.CommitsAreSeparatedByResolution | web/src/photoframe/sender.ts:50-98 | between COMMITs of two requests the first record left the store on a matching completion or on acknowledgement |
| WebSender.RecordLeavesOnlyWithCause | web/src/photoframe/store.ts:52-66 | the record leaves only on a matching completion, on a matching cancel receipt of a request never committed, or on acknowledgement issued under the lock |
| WebSender.RepliesLeaveTheRecord | web/src/photoframe/sender.ts:119-137 | over every run, a reply never touches the store: the tab asks again exactly after the receipt that the panel is still displaying, drops the record exactly after the completion, and otherwise leaves it for recovery |
| WebSender.DoneExactlyOnMatchingCompletion | web/src/photoframe/sender.ts:119-137 | polling ends in success exactly when a matching completion follows only still-displaying receipts |
| WebSender.UnknownExactlyOnAnotherReceipt | web/src/photoframe/sender.ts:119-137 | polling ends as unknown exactly when a receipt that is neither completion nor still-displaying follows only still-displaying ones |
| WebSender.ReceiptsExactly | web/src/photoframe/sender.ts:35-40 | receiving, displaying, complete and canceled are each one receipt shape, by the numbers on the wire |
| WebSender.FinishOrPoll | web/src/photoframe/sender.ts:119-137 | the polling loop gives that verdict and clears the slot exactly on success |
| WebSender.PendingStore.Put | web/src/photoframe/store.ts:52-52 | a record is added exactly when valid and the slot is free |
| WebSender.PendingStore.Remove | web/src/photoframe/store.ts:53-66 | only the expected record is removed |
| Quota.CopyNormalised | internal/frame/producer.go:76-94 | the clearing loops leave the normal form of every account |
| Quota.TruncationKeepsTheMinute | internal/service/service.go:377-394 | cutting a time to the minute keeps its minute |
| Quota.FingerprintExactly | internal/service/service.go:369-411 | two snapshots have one fingerprint exactly when they differ in nothing but observation times, used shares, names and identities, sources other than the demo's and times inside a minute; one cache key exactly when data times and card expiries agree too |
| Layout.LowestIsShown | internal/dashboard/layout.go:118-140 | a window shows the lowest remaining share anyone reports, with the reset of the first who does |
| Layout.PreferredWindowsAreShown | internal/dashboard/layout.go:141-168 | a row shows every preferred window that exists, none twice, none unknown, within its limit |
| Layout.ShownInOrder | internal/dashboard/layout.go:141-168 | windows are shown in the order they first come up, preferred ones first, and one is left out only when the row is full |
| Layout.FixedWindowsLead | internal/dashboard/layout.go:141-158 | the groups with fixed windows lead with 5h and 7d, opencode with 1m after them, and show at most two, or three |
| Layout.AggregateWindows | internal/dashboard/layout.go:118-168 | the loops choose exactly those windows |
| Layout.StableSortSorts | internal/dashboard/layout.go:171-184 | the cards shown are the accounts' cards, soonest expiry first, cards without expiry last |
| Layout.CutCommutesWithSort | internal/dashboard/layout.go:171-184 | cutting expiries to the minute before or after sorting lists the same minutes |
| Layout.AggregateResetCards | internal/dashboard/layout.go:171-184 | the loop collects and sorts the cards of every account |
| Layout.WorstIsWorst | internal/dashboard/layout.go:66-76 | a row's status is the worst of its accounts, and some account has it unless it is ok |
| Layout.AggregateRow | internal/dashboard/layout.go:45-104 | one provider's row: the loops compute the row that the following statements are about |
| Layout.DisabledShowOnlyInTheTotal | internal/dashboard/layout.go:56-65 | while any account of the provider is enabled, leaving out its disabled accounts changes nothing in the row but the total |
| Layout.RowShowsWhatCounts | internal/dashboard/layout.go:45-104 | a row is missing exactly without accounts of the provider; otherwise its numbers, staleness, plan and cards are those of the accounts that count: the enabled ones, or all when none is enabled |
| Layout.StatusIsTheWorst | internal/dashboard/layout.go:66-72 | a row's status is the most severe that an account that counts has, in the order error, exhausted, low, disabled, unknown, and ok without any |
| Layout.WindowsAreReported | internal/dashboard/layout.go:118-168 | a row's windows belong to distinct identities that accounts that count report, preferred ones never missing, in order of first report, each with the lowest share those accounts report and a reset reported beside it |
| Layout.AggregateRows | internal/dashboard/layout.go:40-107 | one row per displayed provider, in order, with the defaults when none is configured |
| Layout.RowOfNormal | internal/frame/producer.go:76-94 | the row of normalised accounts is the row of the accounts with its times cut to the minute |
| ViewModel.BarShowsTheShare | internal/dashboard/viewmodel.go:288-314 | ten segments together show the clamped share rounded to a tenth of a percent |
| ViewModel.BuildBarSegments | internal/dashboard/viewmodel.go:288-314 | the loop fills exactly those segments |
| ViewModel.BuildResetCards | internal/dashboard/viewmodel.go:269-286 | at most three dates are shown and the rest are counted |
| ViewModel.PeakIsFirstMaximum | internal/dashboard/viewmodel.go:329-336 | the peak day is the first with the most tokens |
| ViewModel.BuildUsageData | internal/dashboard/viewmodel.go:316-369 | the last seven days, their bars, totals and peak |
| ViewModel.UsageShowsTheLastWeek | internal/dashboard/viewmodel.go:316-369 | usage is shown exactly when there are days: a bar for each of the last seven, today's own numbers, the totals of those days and the first of them with the most tokens, in dollars without a currency |
| ViewModel.TotalsAdd | internal/dashboard/viewmodel.go:395-409 | the totals of consecutive days add up, and the total of one day is that day's |
| ViewModel.DisplayedErrors | internal/dashboard/viewmodel.go:184-206 | exactly the errors of providers without accounts or with a row are kept, in order |
| ViewModel.BuildFrameData | internal/dashboard/viewmodel.go:80-141 | the loops build the frame of the snapshot, its rows being those of Layout.AggregateRows |
| ViewModel.FrameShows | internal/dashboard/viewmodel.go:80-141 | a frame is stale exactly when the snapshot is, otherwise a demo exactly when a window or the usage comes from one, and its footer is the first error not of a provider without a row |
| ViewModel.FrameOfNormal | internal/dashboard/viewmodel.go:80-314 | nothing that either projection clears or cuts reaches the frame, in any location |
| ViewModel.EqualFingerprintsLookEqual | internal/service/service.go:369-411 | equal fingerprints and data times give equal frames, also when cards within a minute sort differently |
| ViewModel.EqualKeysLookEqual | internal/frame/producer.go:75-119 | equal cache keys give equal frames |
| Refresh.ObservationsNeverGoBack | internal/service/service.go:253-307 | a failed or stale answer never makes the frame show an older observation |
| Refresh.SameAnswerSameAccount | internal/service/service.go:253-291 | retaining twice against the same answer shows the same account |
| Refresh.RetainBestKnownAccountWindows | internal/service/service.go:253-291 | the in-place loop retains, account by account, what the specification says |
| Refresh.NewestAccountObservation | internal/service/service.go:299-307 | the loop finds the latest observation |
| Refresh.Service.Refresh | internal/service/service.go:85-173 | a refresh, stopped, failed or successful, leaves the specified state and tells the observer of it |
| Refresh.RefreshShowsTheBestKnown | internal/service/service.go:120-163 | after every mix of refreshes, a successful one shows the answered accounts in order: a new one as answered; of a known one that failed without windows, or answered older ones, the windows, freshness and status known before, stale, with a warning in place of the error |
| Refresh.RefreshNeverGoesBack | internal/service/service.go:253-307 | so after every mix of refreshes a failed or stale answer leaves nothing older on show than before |
| Refresh.StaleExactlyWithoutFreshQuota | internal/service/service.go:85-163 | the snapshot is stale after a successful refresh exactly when no answered account is enabled, current, without error or warning and with a quota value, and the time of the last fresh data moves otherwise; a failed refresh keeps accounts and that time |
| Refresh.StatusIsByLowest | internal/quota/model.go:84-107 | the status of retained windows: unknown without a share, else exhausted, low or ok by the lowest |
| Refresh.NewestIsLatest | internal/service/service.go:293-307 | the newest observation is the latest of all the account holds |
| Refresh.Service.UpdateFingerprint | internal/service/service.go:175-181 | the data time moves only with the fingerprint |
| Refresh.DataTimeMovesExactlyWithFingerprint | internal/service/service.go:85-181 | over every mix of failed and successful refreshes with an advancing clock, the data time moves at a refresh exactly when the fingerprint does |
| Refresh.UnchangedFingerprintUnchangedFrame | internal/service/service.go:85-181 | two consecutive snapshots with one fingerprint are one frame |
| Refresh.SameAnswerNeverRepaints | internal/service/service.go:120-172 | a refresh that fetches what the one before fetched changes no fingerprint, data time or frame |
| Producer.FrameProducer.Produce | internal/frame/producer.go:42-66 | cached or not, the payload is what a fresh render gives; only a successful render fills the cache |
| Producer.RenamingHitsTheCache | internal/frame/producer.go:76-80 | renaming an account or noting its freshness never causes a render |
| Producer.UnchangedRefreshIsTheSameImage | internal/frame/producer.go:42-66 | a refresh that changes no fingerprint renders the same payload as the one before it |
| Link.WorkAndRepliesHappenOnce | internal/aqf/link.go:138-236 | however dials fail and jobs start late, no work runs twice and no call is answered twice |
| Link.BrokenSessionRunsNothingMore | internal/aqf/link.go:182-193 | after an error that is not a device's refusal no further work starts on that connection |
| Link.NothingForgottenExactlyWhenNeverOverwritten | internal/aqf/link.go:138-236 | over every run, late claims included: every accepted call is answered or still held if and only if no session left an exclusive call in the slot while another was waiting there |
| Link.AllAnsweredOnceExactlyWhenNeverOverwritten | internal/aqf/link.go:138-236 | when Run and the sessions are at rest, every accepted call has exactly one reply if and only if the slot was never overwritten |
| Link.EveryAcceptedCallIsAnswered | internal/aqf/link.go:138-236 | without a late claim the slot is never overwritten, so every accepted call has exactly one reply whenever Run is idle |
| Link.TwoSessionsOverwriteTheSlot | internal/aqf/link.go:221-227 | a run in which two sessions each leave an exclusive call, and the first is forgotten |
| Link.LateExactlyWhenExclusiveWorkCanOverlap | internal/aqf/link.go:138-180 | in every run, an open session's claim was late if and only if the run can go on to exclusive work while that session is open |
| Link.ExclusiveRunsAloneUnlessAClaimIsLate | internal/aqf/link.go:138-180 | exclusive work beside an open session means that session's job claimed after its dial returned and before Run did |
| Link.Serve | internal/aqf/link.go:182-236 | the session loop does what its specification gives for what the select picks up |
| Link.ServeIsARun | internal/aqf/link.go:182-236 | everything that loop does is a run of the state machine, so the statements above hold of it |
| Link.ServedUntilTheFirstEnding | internal/aqf/link.go:182-236 | a session serves every call up to the first stop, failed keepalive, exclusive call or broken work, refused calls included, each once and in order, and nothing after it |
| Link.LateClaimOverlaps | internal/aqf/link.go:161-176 | a run in which exclusive work overlaps an open session |
| Pusher.OnlyTheNewestIsAdmitted | internal/push/pusher.go:180-216 | nothing older than a failed refresh or than a newer snapshot is admitted afterwards |
| Pusher.AdmittedIsPendingAndUnpaused | internal/push/pusher.go:415-427 | a send is admitted only for the newest snapshot, pending and unpaused at that instant |
| Pusher.NewerSnapshotsSurviveTheWorker | internal/push/pusher.go:343-370 | finishing, discarding or rejecting a snapshot never removes a newer one |
| Pusher.NoWakeUpIsLost | internal/push/pusher.go:226-335 | an idle worker with pending, unpaused work is about to be woken |
| Pusher.NeverTheSameImageTwiceInARow | internal/push/pusher.go:372-438 | where the guard never fires, the same image is never sent successfully twice in a row |
| Pusher.EconomicalHolds | internal/push/pusher.go:372-438 | in every run, the same image sent twice in a row has a guard event in between, the last of which took another image for sent |
| Pusher.CanRepeatExactlyWhenAnotherWasSkipped | internal/push/pusher.go:372-438 | in every run, right after a guard fired the image on the panel can be the next one sent, without a further guard, if and only if the guard took another image for sent |
| Pusher.RecordsAreTrueExactlyWhenNeverSkipped | internal/push/pusher.go:393-427 | over every run: a snapshot is recorded and removed as pushed only while its image is on the panel, if and only if postCurrent never found its snapshot superseded or the queue paused |
| Pusher.RecordedImageIsShown | internal/push/pusher.go:372-427 | where the guard never fires, the recorded image is the panel's whenever no send is being recorded |
| Pusher.PauseCanLoseTheLatestSnapshot | internal/push/pusher.go:69-75 | a run in which pausing makes the guard fire and loses the latest snapshot unsent |
| Pusher.SupersedingCanLoseTheLatestSnapshot | internal/push/pusher.go:393-422 | a run without any pausing in which a newer snapshot of the same image makes the guard fire and is then dropped as unchanged, unsent |
| Pusher.GuardRepeatsAnImage | internal/push/pusher.go:393-422 | a run in which the guard lets one image reach the panel twice in a row |
| Pusher.RejectedFailedForGood | internal/push/pusher.go:272-311 | over every run, a digest is remembered as rejected only after an attempt with it failed for good: refused by the receiver, too large, or not rendered |
| Pusher.AnswerIsSettled | internal/push/pusher.go:263-317 | what an answered request leaves: success is recorded, a permanent failure of the pending snapshot is remembered and discards it, a deferred one only discards it, any other waits for the timer; of a superseded snapshot only success is remembered |
| Pusher.RejectedIsNotSent | internal/push/pusher.go:386-388 | a rendered image already rejected is not sent: its snapshot is discarded and nothing else changes |
| Pusher.PushQueue.Enqueue | internal/push/pusher.go:180-186 | a refresh draws the next number and replaces whatever was pending; nothing else changes |
| Pusher.PushQueue.DiscardAll | internal/push/pusher.go:206-216 | a failed refresh draws a number, empties the slot and cancels the request in flight |
| Pusher.PushQueue.Complete | internal/push/pusher.go:343-352 | completing records the digest, forgets the rejection and empties the slot only of its own snapshot |
| Pusher.PushQueue.Reject | internal/push/pusher.go:362-370 | rejecting records the digest and empties the slot if its snapshot is still pending, and otherwise changes nothing |
| Pusher.PushQueue.EnterPost | internal/push/pusher.go:415-427 | entry is refused exactly when the snapshot is not the pending one or the queue is paused |
| Pusher.PushQueue.LeavePost | internal/push/pusher.go:431-437 | leaving clears only its own activity and reports whether it was superseded |
| Slots.PlanSlot | cmd/ai-quota-frame/console_slots.go:41-90 | a plan is for the app asked for, a real slot holding the version asked for, and never during a trial |
| Slots.PlannedExactly | cmd/ai-quota-frame/console_slots.go:41-90 | a plan exists exactly for the slot the action asks for, waiting, previous, named or active, holding the version asked for with no trial running; which slot it is decides between switching, activating, rolling back and installing again |
| Slots.SentIsAPrefixOfOneSequence | cmd/ai-quota-frame/console_slots.go:142-214 | against any statuses what is sent is a prefix of Switch, Activate, Install then Activate, or Rollback then Switch |
| Slots.SecondMutationFollowsProof | cmd/ai-quota-frame/console_slots.go:161-200 | a second mutation follows a fresh status that shows the first took effect and the goal not yet reached |
| Slots.SuccessMeansReached | cmd/ai-quota-frame/console_slots.go:92-103 | success means the last status read shows the planned version loaded from the planned slot of that app, confirmed and active unless the device is of the first interface |
| Slots.SuccessExactlyWhenSeen | cmd/ai-quota-frame/console_slots.go:142-214 | success is reported if and only if a plan could be made, the install or rollback it starts with was seen to take effect, and the last status shows the selection reached |
| Slots.ConsoleBridge.SelectSlot | cmd/ai-quota-frame/console_slots.go:142-214 | the method does and reports exactly what the specification gives |
| Slots.ConsoleBridge.ManageOnce | cmd/ai-quota-frame/console_slots.go:105-113 | a mutation is sent once and its outcome only read |
| Crc.BurstChangesChecksum | web/src/png.ts:6-10 | equal-length strings that differ only inside four consecutive bytes, in particular in one byte, have different checksums |
| Crc.TurnInjective | web/src/png.ts:8-8 | one turn of the bit loop can be undone |
| Crc.RegisterOfWindow | web/src/png.ts:8-8 | absorbing up to four bytes one by one is absorbing them as one word |
| Crc.TurnIsDivision | web/src/png.ts:8-8 | one turn multiplies the register by x and takes the remainder by the polynomial with the standard's exponents |
| Crc.FixedChecksums | web/src/png.ts:6-10 | nothing sums to 0 and four bytes of ones to all ones, as the complements before and after make it |
| Crc.Crc32 | web/src/png.ts:6-10 | the nested loops compute the checksum function |
| Png.RebuiltOfFiltered | web/src/png.ts:63-71 | reconstruction inverts each of the standard's five filters |
| Png.RebuiltByTheStandard | web/src/png.ts:66-71 | byte by byte of the rebuilt row: filter 0 leaves the byte, 1 adds the one to the left, 2 the one above, 3 half of both, 4 whichever of left, above and upper left is nearest to left + above - upper left, all mod 256 |
| Png.FilteredOfRebuilt | web/src/png.ts:63-71 | filtering a rebuilt row gives the file's bytes back, so no other bytes decode to that row |
| Png.DecodedOfRaw | web/src/png.ts:60-79 | for every image and every per-row choice of filter the decoded rows are the image's |
| Png.Rebuild | web/src/png.ts:66-71 | the in-place loop rebuilds the row |
| Png.ParseOfPngChunk | web/src/png.ts:12-12 | reading a chunk undoes writing it, whatever follows |
| Png.WalkChunks | web/src/png.ts:32-57 | the chunk walk accepts and rejects exactly as the grammar with its order rules does |
| Png.CheckPixels | web/src/png.ts:72-75 | the pixel loop accepts exactly rows of opaque inks |
| Png.PixelsExactly | web/src/png.ts:72-75 | a row passes exactly when each of its pixels, by its channels or its palette entry, is black, white, yellow, red, blue or green, and opaque |
| Png.CheckRows | web/src/png.ts:60-79 | the row loop rejects at the first bad filter or pixel |
| Png.ValidatePng | web/src/png.ts:32-81 | the validator as a whole is its specification |
| Png.EveryStandardEncodingIsJudgedByItsPixels | web/src/png.ts:32-81 | any conforming file, with any filters, its data in any number of chunks, an optional palette and ancillary chunks before, between and after, is accepted if and only if it fits the size limit and its pixels are opaque inks |
| Png.AcceptedExactlyInkEncodings | web/src/png.ts:32-81 | a file is accepted if and only if it fits the size limit and is a standard encoding of a picture of opaque inks: one header, at most one palette before the data, the data in one run, the end marker last, ancillary chunks around them, every checksum right |
| Png.PngChunkOfParse | web/src/png.ts:36-43 | writing a chunk undoes reading it |
| Png.FillRows | web/src/png.ts:27-28 | the row loop lays out each row behind a zero filter byte |
| Png.EncodePng | web/src/png.ts:25-31 | the encoder writes the specified file exactly for six-colour pictures of the right size |
| Png.EncodedIsAccepted | web/src/png.ts:25-81 | what the encoder writes is accepted exactly when it fits the size limit, and decodes to the picture's own rows |
| Png.DamageIsRejected | web/src/png.ts:36-43 | an accepted file changed inside four consecutive bytes of a chunk's type and data, or of its checksum, is rejected |
| Png.OneByteDamageIsRejected | web/src/png.ts:32-43 | any one-byte change of an accepted file outside the chunks' length fields is rejected |
| Dither.LightIsConserved | internal/dashboard/palette.go:123-186 | the light of the active source pixels is the light of their inks plus the error dropped at edges and locked pixels |
| Dither.ScanStep | internal/dashboard/palette.go:148-186 | one step of the serpentine scan: an exact ink changes nothing; any other pixel gets the first nearest ink and hands 7 sixteenths of its error ahead, 3 behind below, 5 below and 1 ahead below, and nothing else changes |
| Dither.VisitProgress | internal/dashboard/palette.go:148-186 | the serpentine scan gives each active pixel its ink exactly once, in order |
| Dither.GiveConserves | internal/dashboard/palette.go:171-180 | a share of error goes to an unvisited active pixel or is counted as dropped |
| Dither.PickNearest | internal/dashboard/palette.go:158-169 | the loop picks the first ink at the least distance from the clamped value |
| Dither.DitherPixel | internal/dashboard/palette.go:150-185 | one step in place is one step of the specification, and paints at most one pixel |
| Dither.Scan | internal/dashboard/palette.go:148-186 | the scan in place is the whole specification |
| Dither.DitherRegion | internal/dashboard/palette.go:123-186 | exactly the active pixels of the region are painted, with their inks |
| Dither.Over | internal/dashboard/palette.go:201-209 | a composited channel lies between foreground and background, and is either of them at full or no opacity |
| Dither.OverRounds | internal/dashboard/palette.go:201-209 | it is the integer nearest to the exact mixture |
| Dither.ExactInkStays | internal/dashboard/palette.go:211-223 | an exact ink is its own nearest ink |
| Dither.NearestPaletteColor | internal/dashboard/palette.go:211-223 | the loop returns the first nearest ink |
| Dither.QuantizeWithDitherRegions | internal/dashboard/palette.go:83-121 | every output pixel is an ink: exact inks stay, pixels outside the regions are quantised crisply, and any other pixel is what dithering the last region that holds it, cut from the picture by itself, shows there |
| Dither.OutputConservesLight | internal/dashboard/palette.go:83-186 | in the finished picture, the light of a region no later one overlaps is its source's, less the error dropped at edges and exact inks |
| Paging.Client.Command | internal/ble/protocol.go:180-199 | one signed exchange: what is sent, when the session dies, and what is returned |
| Paging.Client.Verify | internal/ble/protocol.go:168-178 | a reply that fails any check kills the session |
| Paging.CommandKeepsNumbers | internal/ble/protocol.go:180-199 | frames are numbered without gaps or repeats, and a dead session sends nothing |
| Paging.CommandAnswersExactly | internal/ble/protocol.go:168-199 | a command gives data, or the device's refusal, exactly for a genuine reply to its own frame; a session that got anything else is dead for good |
| Paging.Client.Status | internal/ble/protocol.go:214-243 | against any device at most 4095 pages and bytes; against fixed content exactly that content, for any page sizes |
| Paging.StatusPageExactly | internal/ble/protocol.go:214-243 | a status page is taken exactly when it brings something, names the same length from 1 to 4095, continues where the pages before ended and does not run over it |
| Paging.Client.Shell | internal/ble/shell.go:52-91 | against any device at most 4095 frames and bytes and the command sent once; against one capture exactly that capture |
| Paging.ShellPageExactly | internal/ble/shell.go:52-91 | a shell page is taken exactly when it continues where the output ended, brings something unless all of it is empty, fits its length, and keeps length and exit code |

## Left out

- `Link.Run`, the pairing ceremony around its polling loop, and the browser's `send` and `recover` are state machines on values, since their source is goroutines and promises: aliasing, `select`'s choice among ready cases and the reported link state are not captured.
- The radio, operating system and transport code, HTTP, configuration, provider clients, templates, browser raster and user interface: foreign calls and plumbing.
- internal/ble/image.go, the older image sender: it remembers one transaction only, so the statements about several images do not apply to it.
- The message exchange inside `pairOnLink` (commit, reveal, transcript, comparison code): negotiation is one step that may lose its reply; only what it leaves on the device and in the client is modelled.
- The unsigned pairing state a client reads first: every decision it could lead to is allowed, so the statements hold whatever it says.
- Power failure: the files' `fsync` calls are not modelled; a process may die between any two file steps, the machine may not.
- Windows file publication and locking: only the Unix forms are modelled.
- Timers, deadlines and idle limits: any wait may end, at any moment, with any of its outcomes.
- `cancelTrial`, `installPackage` and package inspection: checks that add no interplay beyond `selectSlot`.
- Dithering without rounding error: floating point is replaced by real numbers, the gamma curve is a parameter, and the palette's own duplicate check is not modelled.
- Texts of dates, numbers, plans, token counts and costs, and the truncation of labels: functions given as parameters.
- Token sums that overflow 64 bits: integers are unbounded here.
- Decompression that exceeds its limit part way, is damaged, or comes out too short is one rejection here; the source distinguishes their messages.
- A change to a chunk's length field is outside the damage results: the checksum does not cover it.
- internal/ble/app_image.go's GATT and CoC uploads share one step system; the CoC record layer is verified separately, and `Delivery` takes from it that a chunk that was written is taken.
- BondStore.TransactionAgreesWithFiles: stated for an expected bond without a pairing time, as every candidate is saved; with one, the files keep it and the browser replaces it.
