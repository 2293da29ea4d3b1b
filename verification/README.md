# ohmail protocols, verified

A Dafny model of the parts of ohmail that are protocols rather than screens: how long a serverless
instance stays awake, how late answers are kept from describing something that has gone, how bytes
cross the desktop bridge, how a burst is capped, and which host may use a cookie. `dafny verify
dfyconfig.toml` checks all of it.

Each protocol is a transition function `Step` over a state and an event, where the events are
everything that can happen in any order: a timer that fires late, a read answered long after it was
asked, a registration that completes after its effect was cleaned up. `Run` folds a sequence of
events, and the main results hold for every sequence. The code that updates state in place is also
written as it runs, in a class or a loop, and proved to take exactly the step the theorems are about.

| module | what it models |
|---|---|
| `QuietHold` | the hold each API invocation hands the platform, and the one slot that lingers |
| `HeldBody` | the stream wrapper that decides when a hold ends |
| `DesktopGate` | the window's pure decisions: lifecycle mark, gate, mail mount, client engine, screen |
| `HostedSession` | the engine's reading of its hosted session: stamped, told, torn down, kept for the next launch |
| `AuthFence` | the epoch that fences `/health` answers, and the mail that is drawn behind it |
| `SessionWait` | the loop that keeps one question open with the engine |
| `UpdateFeed` | the update pane, opened and closed any number of times: listen, ask, count pushes, press and re-read |
| `ManageOffer` | the subscription offer: one read per account door, and the withdrawal |
| `Utf8`, `Base64`, `BridgeFrame`, `DoorLatch` | the bridge's request bodies, its answers, its gesture latch |
| `BurstLimiter` | the fixed-window burst cap in its bounded map |
| `CookieHosts` | the cookie-host configuration and decision |

## What turned out not to hold

Four statements in the sources' comments are stronger than the code. In each case the code is
modelled as it is, a lemma names an input that shows the difference, and another says exactly how
far the statement does hold.

- `quiet-hold.ts` says an instance stays awake until just past the pool's idle close after its last
  answer. The slot goes to the hold that ends last, even when its invocation is near its ceiling and
  the hold it releases is not: `LaterEndCutsALongerHold`. Released on time, the quiet is whole exactly
  when the last hold to end had `QUIET_HOLD_MS` left before its own deadline: `WholeQuietIffCeilingFar`.
- `DesktopSubscription.tsx` says a withdrawal holds for the session; the code clears it whenever the
  account door changes, which every re-keyed session causes. A pane is withdrawn if and only if a
  withdrawal came after the last door (`WithdrawnIffNoDoorSince`), and it can come back, through a
  door and no other way (`WithdrawnComesBackOnlyThroughADoor`).
- `config.ts` lists `::1` among the hosts `TF_COOKIE_HOSTS` may name; the port removal takes its last
  group, so naming it is refused: `OneCompiledHostCannotBeSelected`. An entry written with a port is
  accepted and inert; an entry is of use if and only if it has none: `EntryMatchesIffNoPort`.
- `DesktopUpdate.tsx` says the re-read after a press cannot go stale. Where the shell refused the
  registration it can: the button's re-read and the switch's cross, and the one snapshotted before the
  shell moved is answered last (`ReReadsCross`). Whether the shell took the registration is the whole
  of it: it took it if and only if a quiescent pane's report is always the shell's, and it refused it
  if and only if a re-read can yet go stale (`RegistrationDecides`).

`sameHostedAuth` does not compare a refusal's cause. That loses nothing: the engine stamps a state and
its cause together, so no two of its answers differ in the cause alone (`KeptAnswerIsExact`), unless
two sign-ins are refused in one millisecond (`OneMillisecondTwoCauses`).

## Model

| member | source | states |
|---|---|---|
| QuietHold.Coverage | apps/api-vercel/src/quiet-hold.ts:13-69 | in every run, once nothing holds the instance awake, the hold that ended last ended after every use of every pooled connection, and unless its own ceiling cut it every connection has been unused longer than its idle timeout |
| QuietHold.QuietCoversEveryUse | apps/api-vercel/src/quiet-hold.ts:6-69 | over the events themselves: once nothing holds the instance awake, every hold opened has had its end, no use of a pooled connection came after the last of them, and unless its ceiling cut it every use lies a whole quiet hold back |
| QuietHold.CanAlwaysSleep | apps/api-vercel/src/quiet-hold.ts:24-57 | from wherever a run has come, ends and punctual timers bring it to where nothing holds the instance awake |
| QuietHold.OneLingerer | apps/api-vercel/src/quiet-hold.ts:18-30 | of the holds that have ended, only the one in the slot is still outstanding, on a timer set for exactly its due instant |
| QuietHold.FiredReleaserIsInert | apps/api-vercel/src/quiet-hold.ts:25-30 | once its timer has fired, running the slot's releaser again changes nothing |
| QuietHold.ReleasedInTime | apps/api-vercel/src/quiet-hold.ts:24-30 | every ended hold is released by the earlier of its end plus QUIET_HOLD_MS and its deadline, never before its end |
| QuietHold.HeldWithinItsInvocation | apps/api-vercel/src/quiet-hold.ts:32-69 | every hold traces back through its hand-offs to the one event that began its invocation, and is released by the later of its end and that instant plus 295 s for `/events`, 55 s for anything else |
| QuietHold.WholeQuietIffCeilingFar | apps/api-vercel/src/quiet-hold.ts:6-16 | released on time, the last hold to end kept the instance awake a whole quiet hold if and only if its deadline was at least that far away |
| QuietHold.LaterEndCutsALongerHold | apps/api-vercel/src/quiet-hold.ts:24-39 | a run in which a request near its ceiling releases a stream's hold that had minutes left, 200 ms after a connection was used |
| QuietHold.IdleAwakeBound | apps/api-vercel/src/quiet-hold.ts:6-13 | the time an instance is kept awake with no invocation at work is at most QUIET_HOLD_MS per answer, however the answers overlap |
| QuietHold.Instance.LingerOn | apps/api-vercel/src/quiet-hold.ts:24-30 | the slot changes hands: predecessor's timer cleared and hold released, the new hold timed, ended and named |
| QuietHold.Instance.EndHold | apps/api-vercel/src/quiet-hold.ts:50-55 | only the first end lingers |
| QuietHold.Instance.WithQuietHold | apps/api-vercel/src/quiet-hold.ts:32-57 | a new outstanding hold under the ceiling of its path's route |
| QuietHold.Instance.HandOffWork | apps/api-vercel/src/quiet-hold.ts:59-69 | handed-off work holds under the deadline of the invocation it came from, or 55 s from now outside any |
| HeldBody.HeldBodyIsTheBody | apps/api-vercel/src/handler.ts:25-51 | in every interleaving of pulls, takes, inner answers and cancels the consumer receives the inner chunks in order, the same close after all of them, the same error after all of them, and nothing else |
| HeldBody.HoldEndsExactlyAtTheLast | apps/api-vercel/src/handler.ts:25-51 | the hold has ended if and only if the body closed, failed or was cancelled, and then lingered exactly once |
| HeldBody.CancelMidReadCallsEndThrice | apps/api-vercel/src/handler.ts:33-48 | a cancel during a read calls `end` three times, so its guard is needed |
| HeldBody.CancelEnds | apps/api-vercel/src/handler.ts:45-48 | after a cancel, whatever was queued or on its way, the body is over, the hold ended, the inner body told, and nothing more received |
| HeldBody.EveryExitEndsOnce | apps/api-vercel/src/handler.ts:26-63 | no exchange ends its hold twice, and a throwing answer, an answer with no body, and any body that does not stall, once nothing more is owed, end it exactly once |
| HeldBody.NothingOwedMeansEnded | apps/api-vercel/src/handler.ts:33-44 | once nothing more is owed, every chunk of an uncancelled body has been received, and a body that does not stall has ended its hold |
| HeldBody.Wrapper.AfterRead | apps/api-vercel/src/handler.ts:33-44 | the rest of `pull` after its read, with what `enqueue` and `close` throw caught |
| HeldBody.Wrapper.CancelBody | apps/api-vercel/src/handler.ts:45-48 | cancel ends the hold and cancels the inner reader |
| DesktopGate.PassSettles | apps/desktop/src/DesktopGate.tsx:828-891 | the client engine's render-time adjustment reaches its fixed point in one further render |
| DesktopGate.RestartsKeepTheClient | apps/desktop/src/doors.ts:152-180 | across any number of restarts of the process behind it the very same client engine stays mounted |
| DesktopGate.ClientIsTheLastServed | apps/desktop/src/doors.ts:152-180 | over any sequence of readings the engine on screen is the mailbox served last, never an earlier one |
| DesktopGate.MailIsDrawnOnlyOver | apps/desktop/src/DesktopGate.tsx:893-1338 | the mail is reached through the ordered returns only over a chosen door, its own engine, and on a cloud door a believed answer that is not erased, waiting for a relaunch, signed out before any expiry, or revoked |
| DesktopGate.ScreenOfAnswer | apps/desktop/src/DesktopGate.tsx:893-1338 | a cloud door's answer is drawn as its own fields say, from erased and relaunch to sign-in, removed copy, and the mail with or without a card and its cause |
| DesktopGate.ScreenBeforeTheSession | apps/desktop/src/DesktopGate.tsx:893-1055 | what is drawn where a lock, a missing answer, a notice or a chooser stands before the session's screens |
| DesktopGate.SameMarkIff | apps/desktop/src/DesktopGate.tsx:248-262 | two statuses have one mark if and only if they agree on every field that makes a run what it is |
| DesktopGate.ClientsAreBuiltOnce | apps/desktop/src/DesktopGate.tsx:837-891 | a client for another mailbox, or sending another way, is a new one, and any other stays |
| DesktopGate.SameButForTheCause | apps/desktop/src/DesktopGate.tsx:210-216 | of any two answers, the held one is kept if and only if the two agree on everything but a refusal's cause |
| DesktopGate.KeptAnswerDrawsTheSame | apps/desktop/src/DesktopGate.tsx:210-216 | of any two answers, a kept one draws the same screen as the newer in every window, but for revoked against reused on a sign-in card |
| HostedSession.KeptAnswerIsExact | apps/desktop/src/DesktopGate.tsx:210-216 | of any two answers this engine gives, over any run of sign-ins, renewals, faults, refusals, sign-outs and relaunches and on any clock that stamps no two refusals under one code in one millisecond, the held one is kept if and only if the two are equal, cause included |
| HostedSession.AlikeIsTheSame | apps/sidecar/src/cloud-auth.ts:719-729 | with refusals so stamped, two readings that agree on state, code and instant are one reading, across sessions, refusals kept on disk and relaunches |
| HostedSession.HealthFollows | apps/sidecar/src/cloud-engine.ts:1433-1449 | wherever a run has come, what `/health` says of the session after a sign-in, a renewal, a fault, a refusal, a sign-out and each kind of launch |
| HostedSession.KeptRefusalIsTold | apps/sidecar/src/cloud-engine.ts:725-743 | a refusal kept on disk is told, with its code, instant and cause, at every later launch that has no session |
| HostedSession.LateAnswersSayNothing | apps/sidecar/src/cloud-auth.ts:731-753 | a session refused or signed out of changes neither the answer nor what is kept, whatever it still hears |
| HostedSession.FaultKeepsItsStart | apps/sidecar/src/cloud-auth.ts:719-729 | a fault that goes on keeps the instant it began, a new one is stamped now |
| HostedSession.MintIsTold | apps/sidecar/src/cloud-auth.ts:731-740 | a renewal after a fault is told as a live session |
| HostedSession.OneMillisecondTwoCauses | apps/sidecar/src/cloud-auth.ts:719-729 | two sign-ins refused in one millisecond for two causes are taken for the same, so the stamps have to differ |
| HostedSession.RunKeepsInv | apps/sidecar/src/cloud-engine.ts:1040-1143 | with refusals so stamped, every reading an engine holds or keeps is one of those stamped, no two of which differ in the cause alone |
| AuthFence.BelievedIsFresh | apps/desktop/src/DesktopGate.tsx:515-537 | over all interleavings a believed answer came from a probe issued after the move that made the epoch on screen, and with nothing queued after the latest move of all |
| AuthFence.AnswerIsBelieved | apps/desktop/src/DesktopGate.tsx:633-708 | in every run, the answer to a probe of a live effect run under the epoch to be painted is believed at the next commit, saying the same in every field but a refusal's cause, and its screen is drawn |
| AuthFence.WhoAsks | apps/desktop/src/DesktopGate.tsx:629-708 | on a cloud door the steady probe asks, with the quick one while nothing is known and the held question once something is, each with one run under the epoch on screen; behind any other door nobody does |
| AuthFence.CloudDoorIsAnswered | apps/desktop/src/DesktopGate.tsx:629-655 | from wherever a run has come, a commit, a steady probe, its answer and a commit bring that answer to a cloud door's screen |
| AuthFence.DegradingAsksAnew | apps/desktop/src/DesktopGate.tsx:627-655 | a session that stops or starts being live is asked after at once by a steady run of its own |
| AuthFence.QuickAnswerIsTaken | apps/desktop/src/DesktopGate.tsx:660-675 | the quick probe's answer is taken as it is, cause included |
| AuthFence.CancelledAnswerIsDropped | apps/desktop/src/DesktopGate.tsx:633-644 | the answer of a cancelled run, or none at all, sets nothing |
| AuthFence.PaintIsTheLastDelivered | apps/desktop/src/DesktopGate.tsx:300-318 | what is painted is the status delivered last, by a poll or a door |
| AuthFence.EveryMoveIsUnknownAgain | apps/desktop/src/DesktopGate.tsx:298-318 | after any lifecycle move, whatever is asked and answered late before the next paint, that paint believes nothing and draws no mail on a cloud door |
| AuthFence.MailOnScreen | apps/desktop/src/DesktopGate.tsx:862-891 | whenever mail is on screen its key, the storage owner and the live engine name one mailbox, the last one served, and a cloud session was answered for under the epoch on screen |
| AuthFence.EndedAccountLeavesNoClient | apps/desktop/src/DesktopGate.tsx:549-567 | a removed copy or an erased account leaves no client engine and no mail |
| AuthFence.RelaunchIsNeverASignIn | apps/desktop/src/DesktopGate.tsx:538-546 | in every interleaving, a believed answer that asks for a relaunch is never drawn as a sign-in, a lost pairing or mail, although its other fields read as signed out |
| AuthFence.UnseenRestartKeepsTheAnswer | apps/desktop/src/DesktopGate.tsx:248-262 | any number of polls that read the same run move nothing, so an engine replaced unseen keeps its predecessor's answer |
| AuthFence.Gate.Refresh | apps/desktop/src/DesktopGate.tsx:300-318 | a poll settles on the restored door at a launch that finds a pairing unanswered, records, sets, and re-keys exactly when the mark it replaces differs |
| AuthFence.Gate.DeliverStatus | apps/desktop/src/DesktopGate.tsx:440-466 | a delivered status is recorded and always re-keys |
| AuthFence.Gate.CancelOverlay | apps/desktop/src/DesktopGate.tsx:1055-1071 | an overlay cancel re-keys with no status delivered |
| AuthFence.Gate.ProbeAnswered | apps/desktop/src/DesktopGate.tsx:633-675 | an answer is kept under its run's key, dropped from a cancelled run, and a same one keeps the held |
| SessionWait.WaitLoop | apps/desktop/src/DesktopGate.tsx:683-708 | for any replies, and whatever other probes write meanwhile, the loop asks at the specified instants and names, each time, the reading written last |
| SessionWait.QuestionIsTheLastWritten | apps/desktop/src/DesktopGate.tsx:687-703 | each question names the reading written last before it, by the reply, by the `/health` read behind it or by another probe, or the one held at the start |
| SessionWait.PausesAfterThreeUnheld | apps/desktop/src/DesktopGate.tsx:153-159 | the loop pauses exactly after three replies in a row that were not held |
| SessionWait.ThreeTurnsTakeASecond | apps/desktop/src/DesktopGate.tsx:686-703 | any three turns in a row take at least SESSION_WAIT_UNHELD_MS |
| SessionWait.AsksAreBounded | apps/desktop/src/DesktopGate.tsx:153-159 | the questions in any stretch of ms number at most 3 * (ms / 1000) + 3, even if every answer is immediate |
| SessionWait.BoundIsMet | apps/desktop/src/DesktopGate.tsx:686-703 | an engine that makes the loop meet that bound |
| UpdateFeed.QuiescentAgreement | apps/desktop/src/DesktopUpdate.tsx:37-147 | however often the pane is opened, closed and replayed, and however shell moves, pushes, reads and presses interleave, once nothing is in flight it shows the shell's current report and nothing is left busy; it is blank only where the read of the run on screen came back empty, and a control busy only where a re-read of its own in this opening did |
| UpdateFeed.PaneShowsUnlessStuck | apps/desktop/src/DesktopUpdate.tsx:72-147 | from every state with a pane up, and for either verdict of a shell still to answer, some course without a new pane, a move or a failure ends quiescent on the shell's report, if and only if nothing is left to bring one; and only reads of its own that came back empty leave nothing |
| UpdateFeed.RegistrationIsAsked | apps/desktop/src/update.ts:369-379 | where a pane has been opened the registration has been asked for |
| UpdateFeed.EveryMoveIsSaid | apps/desktop/src/update.ts:340-361 | once it is listened to, every move of the shell arrives or is on its way, in order |
| UpdateFeed.PressAsks | apps/desktop/src/DesktopUpdate.tsx:124-147 | a press of a control not busy marks it busy and has its re-read out behind it |
| UpdateFeed.NothingPushedMeansCurrent | apps/desktop/src/DesktopUpdate.tsx:56-104 | with reads still out, a pane that shows a report shows the shell's current one unless a push is on its way |
| UpdateFeed.NoLeakedSubscriber | apps/desktop/src/DesktopUpdate.tsx:72-106 | after any setups, cleanups and replays with late registrations, the subscribers left are exactly the run on screen |
| UpdateFeed.RefusedShowsTheLastAnswer | apps/desktop/src/update.ts:334-361 | where the shell refused the registration, the pane shows what the shell said when the read painted last was snapshotted, and nothing has been painted since |
| UpdateFeed.RegistrationDecides | apps/desktop/src/DesktopUpdate.tsx:107-123 | the shell took the registration if and only if every quiescent pane will ever agree, and refused it if and only if a press's re-read can yet go stale |
| UpdateFeed.ReReadsCross | apps/desktop/src/DesktopUpdate.tsx:124-147 | the button's and the switch's re-reads cross and leave a quiescent pane on a report the shell has left |
| UpdateFeed.ShowToAll | apps/desktop/src/update.ts:343-348 | a push counts and paints once for each subscriber whose run is not cancelled |
| UpdateFeed.Pane.OpenPane | apps/desktop/src/DesktopUpdate.tsx:50-90 | each opening has its own count, report and busy flags, over the one registration and set of subscribers |
| UpdateFeed.Pane.AfterListening | apps/desktop/src/DesktopUpdate.tsx:83-100 | a run cancelled while registering releases itself; another keeps its release and asks under the pushes so far |
| UpdateFeed.Pane.ReadAnswered | apps/desktop/src/DesktopUpdate.tsx:99-122 | an answer is painted only if its asker is still there and no push landed meanwhile |
| ManageOffer.ShownIsThisDoors | apps/desktop/src/DesktopSubscription.tsx:72-124 | an offer, a storage block or a lifecycle on screen came from a read asked under the account door on screen |
| ManageOffer.AnswerSettles | apps/desktop/src/DesktopSubscription.tsx:87-104 | an answer for the door on screen offers the pane to a metered or refused account unless it was withdrawn, to no other, with that answer's storage and lifecycle; a failed read leaves everything |
| ManageOffer.DoorAsks | apps/desktop/src/DesktopSubscription.tsx:108-124 | an account's door asks at once over an empty pane; any other asks nothing and offers nothing |
| ManageOffer.ReturnAsksAgain | apps/desktop/src/DesktopSubscription.tsx:83-107 | where every read for the account door is over, a return asks anew |
| ManageOffer.StaleAnswerIsDropped | apps/desktop/src/DesktopSubscription.tsx:83-107 | an answer for an earlier door changes no cell and frees no later flight |
| ManageOffer.OneReadPerDoor | apps/desktop/src/DesktopSubscription.tsx:83-107 | at most one read per door is out, and a return while the current one is out asks nothing |
| ManageOffer.WithdrawalHoldsForTheDoor | apps/desktop/src/DesktopSubscription.tsx:98-100 | until the door changes, no answer offers a withdrawn pane again |
| ManageOffer.WithdrawnIffNoDoorSince | apps/desktop/src/DesktopSubscription.tsx:98-135 | in every run the latch is down if and only if a withdrawal came after the last door, and then nothing is offered |
| ManageOffer.WithdrawnComesBackOnlyThroughADoor | apps/desktop/src/DesktopSubscription.tsx:108-135 | a withdrawn pane can come back, and every run that brings it back changes the door |
| ManageOffer.Hook.OnDoor | apps/desktop/src/DesktopSubscription.tsx:108-124 | a door change clears what an earlier door earned and asks only where there is an account |
| ManageOffer.Hook.Answered | apps/desktop/src/DesktopSubscription.tsx:87-104 | an answer settles the offer only for the door it was asked under |
| Base64.Base64Of | apps/desktop/src/bridge-fetch.ts:410-421 | slice by slice is the whole encoding of section 4 of RFC 4648, for every byte array |
| Base64.DecodeEncode | apps/desktop/src/bridge-fetch.ts:410-421 | every encoding decodes to the bytes it was made of |
| Base64.GroupsKeepTheBits | apps/desktop/src/bridge-fetch.ts:410-421 | every group of letters is its octets' bits in order, zeros and padding filling up the last |
| Base64.LettersAreTheTable | apps/desktop/src/bridge-fetch.ts:410-421 | the letters are Table 1 of RFC 4648, in its order |
| Base64.EncodeDecode | apps/desktop/src/bridge-fetch.ts:410-421 | a string decodes only if it is the encoding of what it decodes to |
| Base64.EncodeJoins | apps/desktop/src/bridge-fetch.ts:410-421 | the encoding of a multiple of three bytes joins on to the rest |
| Base64.PadsOnlyAtTheEnd | apps/desktop/src/bridge-fetch.ts:410-421 | padding stands at the very end, as much as the length leaves over, and nowhere else |
| Base64.BodyField | apps/desktop/src/bridge-fetch.ts:309-323 | which field a body crosses in at the 64 KiB threshold, and that the shell reads the body's octets back from any, but for a large text with a lone surrogate |
| Utf8.TextCrosses | apps/desktop/src/bridge-fetch.ts:310-313 | a text's octets read back as its scalars, and as the very text if and only if no surrogate in it stands alone |
| Utf8.Examples | apps/desktop/src/bridge-fetch.ts:310-313 | examples of section 7 of RFC 3629, with a surrogate pair and its halves alone |
| BridgeFrame.FrameRoundTrip | apps/desktop/src/bridge-fetch.ts:363-405 | what the shell framed is what the window reads, metadata and body, with no body under a null-body status and every header pair the platform accepts |
| BridgeFrame.AcceptedIffFramed | apps/desktop/src/bridge-fetch.ts:364-404 | bytes are an answer if and only if they are the frame of readable metadata with a status in 200..599 and a status text a `Response` takes, and are refused as too short or over-declared if and only if they are no frame at all |
| BridgeFrame.ToHeaders | apps/desktop/src/bridge-fetch.ts:342-355 | the loop keeps, in order, the pairs the platform accepts |
| BridgeFrame.KeptExactly | apps/desktop/src/bridge-fetch.ts:342-355 | an acceptable pair is never lost to a malformed one, and no other is kept |
| BridgeFrame.FrameInjective | apps/desktop/src/bridge-fetch.ts:12-15 | the same bytes are never two frames |
| BridgeFrame.LengthIsBigEndian | apps/desktop/src/bridge-fetch.ts:368-371 | the length is the first four octets, the most significant first |
| BridgeFrame.AcceptableExact | apps/desktop/src/bridge-fetch.ts:342-355 | a pair is accepted if and only if its name is a token and its value, blanks at the ends apart, is octets without NUL, LF or CR |
| DoorLatch.OneGestureAtATime | apps/desktop/src/bridge-fetch.ts:681-717 | in every interleaving at most one gesture's own work is unfinished, the latch names it, and the latch is free exactly when there is none |
| DoorLatch.SignOutMeetsItsOwnDoor | apps/desktop/src/bridge-fetch.ts:681-690 | a sign-out still out acts on the door read when it began, whatever deadlines and starts come between |
| DoorLatch.OnlyReleaseFrees | apps/desktop/src/bridge-fetch.ts:692-717 | while the latch is held, no run of deadlines, refused starts and settlements frees it, starts anything or ends what is unfinished, before the work's own reaction does |
| DoorLatch.TakenAndFreed | apps/desktop/src/bridge-fetch.ts:697-717 | in every run a free latch can be taken, with the door read for the work, and a taken one comes free |
| DoorLatch.ToldByWhicheverIsFirst | apps/desktop/src/bridge-fetch.ts:681-717 | a caller hears whichever of the deadline and the work comes first, and nothing before either |
| DoorLatch.Window.Alone | apps/desktop/src/bridge-fetch.ts:697-717 | a gesture starts if and only if none is out and its run does not throw, and is then the busy work; one that does not start leaves the latch and every work as they were |
| BurstLimiter.RefusalIsOneWindow | apps/webapp/middleware.ts:166-177 | whatever the clock does and whatever was evicted, from one of its own calls on a refused key made more than BURST_MAX, none reading the clock as late as the end of that call's window |
| BurstLimiter.RefusalIsEarned | apps/webapp/middleware.ts:166-177 | on a clock that does not run backwards, a refused key made more than BURST_MAX calls in less than BURST_WINDOW_MS, whatever was evicted |
| BurstLimiter.TableIsBounded | apps/webapp/middleware.ts:162-173 | the map never exceeds BURST_MAX_KEYS entries |
| BurstLimiter.EvictionsAreApart | apps/webapp/middleware.ts:169-172 | between two evictions at least BURST_MAX_KEYS - 1 windows are opened |
| BurstLimiter.AdmissionBound | apps/webapp/middleware.ts:160-177 | on a clock that does not run backwards, one key's calls let through in any span of BURST_WINDOW_MS are fewer than BURST_MAX * (2 + evictions in the span) |
| BurstLimiter.FewClientsExact | apps/webapp/middleware.ts:166-177 | while fewer than BURST_MAX_KEYS clients call, a call is refused if and only if it is past BURST_MAX in its key's own fixed window |
| BurstLimiter.ThirtyInTenSeconds | apps/webapp/middleware.ts:156-177 | of calls made in one instant the thirty-first is the first refused, and none ten seconds on |
| BurstLimiter.Limiter.OverBurst | apps/webapp/middleware.ts:166-177 | one call's verdict and its whole effect on the map, which stays bounded |
| CookieHosts.AssertCookieHosts | apps/api-vercel/src/config.ts:57-81 | the list comes back unchanged if every entry is compiled in, and is refused otherwise |
| CookieHosts.AllowIffEverySource | apps/api-vercel/src/config.ts:597-628 | a request is accepted if and only if some host it carries is one, in its URL, its Host header or any stretch of its forwarded hosts between commas, and every such host is listed |
| CookieHosts.SplitExact | apps/api-vercel/src/config.ts:604-608 | splitting at commas gives exactly the stretches between them |
| CookieHosts.SplitJoins | apps/api-vercel/src/config.ts:604-608 | joined by commas, the parts are the text |
| CookieHosts.CookieSafety | apps/api-vercel/src/config.ts:46-81 | for every environment and request, an accepted cookie means at least one host carried, each of them, every comma-free stretch of the forwarded ones included, compiled in once its port groups are removed three times |
| CookieHosts.LoadExact | apps/api-vercel/src/config.ts:912-917 | the configuration is refused if and only if the variable names a host not permitted, and otherwise is exactly the trimmed, non-empty stretches it names, or the default where it names none |
| CookieHosts.PermittedExact | apps/api-vercel/src/config.ts:57-81 | a host may be named if and only if, read once, it is compiled in |
| CookieHosts.NameExact | apps/api-vercel/src/config.ts:583-584 | white space at the ends goes, each capital becomes its small letter, the rest stays |
| CookieHosts.StripExact | apps/api-vercel/src/config.ts:583 | one port group comes off where there is one, and nothing where there is none |
| CookieHosts.TwoPortGroupsAreRemoved | apps/api-vercel/src/config.ts:581-585 | the removal is not idempotent, and a host with two port groups is accepted |
| CookieHosts.WellFormedExact | apps/api-vercel/src/config.ts:571-628 | a request whose sources are hosts with at most one port is accepted if and only if it has one and each names a configured host |
| CookieHosts.EntryMatchesIffNoPort | apps/api-vercel/src/config.ts:581-585 | some well-formed request host is taken for a configured entry if and only if the entry does not end in a port |
| CookieHosts.OneCompiledHostCannotBeSelected | apps/api-vercel/src/config.ts:48-55 | every compiled host can be named by the variable except `::1` |
| CookieHosts.ForwardedOnlySubtracts | apps/api-vercel/src/config.ts:587-612 | where the URL or Host asserts a host, no X-Forwarded-Host value turns a refusal into an acceptance |
| CookieHosts.ForgedIffNothingElseAsserts | apps/api-vercel/src/config.ts:614-628 | under any configuration with a usable entry, a forwarded host can turn a refusal into an acceptance if and only if nothing else asserts one |

## Left out

- Time in `QuietHold` is one clock for `Date.now` and the timers, and it never runs backwards; a pooled connection is used only while a hold of the using invocation has not ended, which is what `handOff` is there for.
- `waitUntil` outside a request context, where it does nothing, and the platform's own kill at `maxDuration`.
- The stream rules under `HeldBody` are written from the Streams standard's default controller; a `Response` constructor that throws is the throwing answer.
- `answer` in `handler.ts`: request normalization, the router and the error envelopes are not part of this model.
- The two chooser holds are inputs of the screen.
- Session readings: `Date.parse` and the notice's grace arrive as one flag of an answer.
- `useHostedSession`: the same fence as the offer's, with one cell and no joined flight.
- Under `UpdateFeed` one pane is on screen at a time, and React runs a replay's cleanup and setup back to back; the editors flushed before a press that installs are part of the press.
- HostedSession.KeptAnswerIsExact: for a clock that stamps no two refusals under one code in one millisecond; a sign-in and its own requests lie between any two.
- A pushed payload that does not parse is dropped by `update.ts`; the shell's reports are taken to parse.
- A large text crosses as JSON, which carries no lone surrogate; that channel is not part of this model beyond this.
- JSON is a reader parameter, with a writer it undoes where a round trip is stated; a status is a whole number.
- What the platform does to a header it accepts: trimming its value, joining repeats, dropping a cookie of the response.
- The requests inside a sign-out (`engineLogout`) and which server confirmed it; the latch holds around all of them.
- The middleware around `overBurst`: surfaces, rewrites and cache headers.
- BurstLimiter.RefusalIsEarned: for a clock that does not run backwards.
- BurstLimiter.AdmissionBound: for a clock that does not run backwards.
- `toLowerCase` is modelled on ASCII letters; other letters are compared as they are.
- Reading `TF_COOKIE_HOSTS` is the only environment variable of `loadHostConfig` modelled.
