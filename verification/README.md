# SIPgram: call control, SIP user agent, wire formats and audio

SIPgram connects Telegram calls to a PBX. It brings its own SIP stack, and its logic is in hand-written state machines,
codecs and timed audio plumbing. This project models four parts of it in Dafny and proves what they are there for.

**Calls of a user** (`sipgram/manager.py`). A user has at most one Telegram call; SIP legs are attached to it as
active, held or waiting, moved into a voice chat, or joined to each other. `CallControl` says what each handler does
to one user, `CallWorld` to the whole gateway, as a transition system over the events of people and far ends.
`LegConservation` proves the inductive invariant, `LegTheorems` what follows from it over every run, and `LegMoves`
which legs a step may end and where it takes the others; `StateAfter` says of every user, leg, voice chat and bridge
what a step makes of it, from the event and the fields before it and not from the handlers; `LostLocks` follows up the
one branch that waits for a lock it holds. `CallManagers` has the objects (`UserState`, `CallManager`) whose methods
change them in place, each proved to do exactly what the specification says. `RingAll` is the arbitration between
several ringing telephones, with the loops of the source.

**SIP user agent** (`sipgram/sip/account.py`). `UserAgents` specifies the server side: transactions with a response
cache, the incoming call from INVITE to BYE, the timers. `Dialogs`, `Duplicates`, `SingleFinal` and `LateRepeats`
prove properties of every run over received requests, timers and decisions of the gateway; `CallsAfter` says what each
event makes of every call and which responses it sends, and `Upcalls` what the gateway is told of; `Retransmission`
the doubling timers, and `Unacknowledged` what they come to in any run. `UserAgentObjects` has the objects (`SipCall`,
`SipAccount`), proved against the specification.

**Wire formats.** `SipMessages`, `ListHeaders`, `HeaderParams`, `HeaderNames` and `SipMessageObjects` (the SIP
message, `message.py`), `Transport` (framing on TCP), `SdpText`, `SdpRoundTrip` and `SdpOffers` (session descriptions,
offer and answer), `Rtp` and `RtpSessions` (packets and telephone events), `Ogg` and `Crc` (the recording container
and its checksum). The readers for Ogg pages and the long division are independent of the code that writes them. What
others send is not what this code prints: `SipForeign` reads messages with compact names, folded lines and no
Content-Length, `SdpForeign` descriptions with other media and addresses at either level, `RtpPackets` packets with
sources, extension and padding. `Text`, `Bytes`, `Sequences` and `Options` hold what they share.

**Audio and guards.** `PcmSamples`, `PcmBuffers`, `CallBridges`, `Playout`, `GroupMixing` and `GroupPlayout` (samples,
buffering, pacing, what the far end hears, mixing), `RateLimits` (the sliding window of the HTTP interface) and
`FlapSuppression` (alerts on lost registrations).

Where the source changes objects step by step, the model is a class whose methods are proved equal to a function of the
old state; the properties are then lemmas about that function. Where a promise does not hold of the code, the code is
modelled as it is, and a lemma says for all inputs exactly when the promise holds:

- `LegTheorems.EveryLegOnce`: two kinds of step make a leg that nobody owns, and no others do. One is a number dialled
  into a voice chat that has meanwhile ended (`DialInPlacedIffPrompt`), the other a ringing call answered by a user
  whose lock is lost (`AnsweredRingPlacedIffFree`).
- `LostLocks`: answering a reconnecting call after its leg has gone loses the user's lock, and with it a held leg
  (`LegCanBeAbandoned`) and the next call that rings (`LegCanBeStranded`).
- `LateRepeats.OneFinalIffUndisturbed`: an INVITE repeated more than 32 s after its last response, while the call
  still rings, is taken for a re-INVITE, answered 491 and later with the call's own final response. A request whose
  CSeq header names another method is never answered from the cache and overwrites what it holds: it puts a second
  final response on a transaction that has had one (`FinalOverwritten`), or whose call has yet to send one.
- `FlapSuppression.DeliveredIffSmooth`: a registration that returns while the report of its loss is being delivered
  cancels that report, and the administrator is told of the return alone.
- `SdpOffers.ChannelsAgreeIffUnambiguous`: the caller finds the answered codec by name and rate only, and may have its
  channels wrong if it offered two that differ in nothing else.
- `HeaderParams.ParamsRoundTrip`: quotes are honoured when parameters are read but not printed again, so a value with
  a semicolon is lost.
- `Rtp.DtmfExact`: a repeated key is lost if its duration is a multiple of 2^32 ticks.

Assumptions on the steps of `CallWorld`: a handler runs from one wait for a person or a far end to the next without
another handler of the same user in between, which is the intent of the lock (README.md:588-591 of the repository).
Sending an INVITE or re-INVITE, sending messages to the user, and joining a voice chat belong to the step. Cancelling
an attempt includes the failure branch of whoever waits for it.

`dafny verify dfyconfig.toml` checks the project.

## Model

| member | source | states |
|---|---|---|
| `LegTheorems.EveryLegOnce` | sipgram/manager.py:426-1277 | In every run: in every one of its states every live leg sits in exactly one place (one slot of one user, one voice chat, or one SIP-to-SIP bridge), if and only if no number dialled into a voice chat answers after that chat has ended and no ringing call is answered by a user whose lock is lost |
| `LegTheorems.AtMostOneSpot` | sipgram/manager.py:1163-1167 | In any state a run can reach, whatever has been stranded in it, no leg is in two places: two spots of the same leg are the same spot |
| `LegTheorems.DialInPlacedIffPrompt` | sipgram/manager.py:1261-1277 | A number that answers a `/group` call has a place if and only if the voice chat it was dialled for still runs; otherwise the leg is live and nobody owns it |
| `LegTheorems.AnsweredRingPlacedIffFree` | sipgram/manager.py:471-483 | The leg of a ringing call that a user answers gets a place, and its caller an answer, if and only if the user's lock is free; otherwise the leg is live, unanswered and owned by nobody |
| `LegTheorems.SlotsFit` | sipgram/manager.py:487-496 | In every reachable state: held and waiting are never both taken, a bridge exists exactly when there are an active leg and a Telegram call and joins those two, a Telegram call has an active leg, and a leg without a Telegram call means a reconnect in progress or a lost lock |
| `LegConservation.StepInv` | sipgram/manager.py:704-773 | Every handler keeps the conservation invariant: slots, chats and bridges are disjoint, every live leg is recorded where it is, and every user is sound |
| `LegConservation.RunInv` | sipgram/manager.py:536-862 | The conservation invariant holds at the end of every run: slots, chats and bridges are disjoint, every live leg is recorded where it is, and every user is sound |
| `LegMoves.OnlyVictimsEnd` | sipgram/manager.py:704-1236 | In every step exactly those live legs end that the event is there to end (listed event by event): no switch, consultation call, transfer, reconnect, waiting call or end of another leg costs a leg its life |
| `LegMoves.SurvivesIffSpared` | sipgram/manager.py:704-1236 | Over any run a leg lives on if and only if none of its events was there to end that leg |
| `StateAfter.UserAfter` | sipgram/manager.py:426-1236 | All events from the side of one user: exactly when the Telegram call begins and ends, what attempt to reach the user is under way, and which legs are active, held and waiting after a step, whoever the event is for; stated by the events and the fields before, not by the handlers |
| `StateAfter.LegsAfter` | sipgram/manager.py:426-1277 | A leg is born in exactly these events and one at a time, ends in exactly the events that are there to end it, and becomes connected exactly when its far end is connected, it is dialled into a chat, its ringing is answered, or it is picked up from waiting |
| `StateAfter.ChatsAfter` | sipgram/manager.py:1197-1287 | A voice chat begins when a user goes there, and ends when it is left or its last leg has gone; a leg comes in when its user moves there or when it was dialled for this very chat, and goes out only with its call or with the chat |
| `StateAfter.BridgesAfter` | sipgram/manager.py:1058-1089 | A bridge begins with a transfer, joins the two far ends, and ends when a call of it has ended |
| `StateAfter.OfferWaits` | sipgram/manager.py:486-499 | A second call waits, alive and unanswered, with the conversation and everything else as before, if and only if the user talks, nothing is on hold, nobody waits and no reconnect is in progress; otherwise nothing changes |
| `StateAfter.DeclineEnds` | sipgram/manager.py:1032-1042 | Declining ends the waiting leg and no other, and once it has gone users, legs, chats and bridges are as before the offer |
| `StateAfter.SwitchAccepts` | sipgram/manager.py:1003-1018 | Switching to a waiting call answers it and makes it active, and puts the conversation before it on hold |
| `StateAfter.OnePickup` | sipgram/manager.py:429-483 | However many telephones ring for a call, in any run at most one of them takes it: the first answer, and the end of the caller, silence all others |
| `LegMoves.SwitchExchanges` | sipgram/manager.py:1003-1030 | Corollary on one or two steps. `/switch`: the waiting leg is answered and active and the active one held, or active and held change places; no leg ends |
| `LegMoves.SwitchTwice` | sipgram/manager.py:1019-1027 | Corollary on one or two steps. Switching twice between two legs changes nothing |
| `LegMoves.TransferJoins` | sipgram/manager.py:1058-1089 | Corollary on one or two steps. A transfer joins exactly the two far ends in one new bridge, ends neither, and leaves the user without legs and Telegram call |
| `LegMoves.MoveJoinsChat` | sipgram/manager.py:1215-1236 | Corollary on one or two steps. The move into a voice chat takes every live leg of active and held along, and nothing of the Telegram call is left |
| `LegMoves.ConsultHolds` | sipgram/manager.py:543-576 | Corollary on one or two steps. A consultation call holds the active leg and the new leg is active; if the INVITE cannot be sent, the user is as before |
| `LegMoves.NextLegTakesOver` | sipgram/manager.py:745-772 | Corollary on one or two steps. When the active leg has ended the held one takes over, else the waiting one, which is answered, else the Telegram call ends |
| `LegMoves.ReconnectRestores` | sipgram/manager.py:790-830 | Corollary on one or two steps. A dropped Telegram call followed by a successful reconnect leaves every leg in its slot and alive; only the Telegram call is another |
| `CallControl.SwitchSound` | sipgram/manager.py:1003-1030 | After `_switch` the slots fit together and hold the same legs: held is free whenever it is overwritten |
| `LostLocks.LockLostIffLateReturn` | sipgram/manager.py:818-824 | A user's lock is lost in a step if and only if the user answers the reconnecting call after the leg it was for has gone (`_end_everything` waits for the lock its caller holds) |
| `LostLocks.HeldLegAbandoned` | sipgram/manager.py:821-834 | Once the lock is lost, nothing that the user or the gateway does reaches a held leg: it stays on hold until its far end hangs up, in every continuation |
| `LostLocks.LegCanBeAbandoned` | sipgram/manager.py:821-834 | A concrete run from the start that ends there: a call, a consultation call, a dropped Telegram call, the consulted leg hanging up, and the user answering again |
| `LostLocks.LegCanBeStranded` | sipgram/manager.py:471-483 | The same run, and then a new call rings that user, who answers: the leg is live and in no slot, chat or bridge |
| `CallManagers.UserState.Legs` | sipgram/manager.py:134-135 | Lists exactly the legs in the slots |
| `CallManagers.UserState.AttachLeg` | sipgram/manager.py:656-669 | The leg becomes active and bridged to the Telegram call |
| `CallManagers.UserState.Resume` | sipgram/manager.py:781-788 | The held leg becomes active again if there is a Telegram call |
| `CallManagers.UserState.Clear` | sipgram/manager.py:832-847 | All slots are empty afterwards and the legs returned are exactly those that were in them |
| `CallManagers.UserState.Ended` | sipgram/manager.py:727-772 | The state after a leg has ended is the one of the specification, and the leg returned is the waiting one that took over |
| `CallManagers.UserState.SwitchOver` | sipgram/manager.py:1003-1030 | In-place `_switch` refines the specification for which conservation is proved |
| `CallManagers.UserState.MoveOut` | sipgram/manager.py:1215-1236 | The legs moved are exactly the live ones of held and active, and the others are exactly those left to hang up |
| `CallManagers.CallManager.RingAnswered` | sipgram/manager.py:471-483 | The whole gateway after a Telegram user has answered: the other telephones stop ringing; the leg is attached and its caller answered; or, when the user's lock is lost, the leg is made but placed nowhere and never answered; or nothing more happens if the caller has gone |
| `CallManagers.CallManager.OfferToWait` | sipgram/manager.py:486-499 | Call waiting: a second call waits or is refused with 486 |
| `CallManagers.CallManager.DialDuringCall` | sipgram/manager.py:536-576 | A consultation call, its INVITE going out or failing |
| `CallManagers.CallManager.OutgoingReached` | sipgram/manager.py:607-628 | The continuation of an answered callback or accepted call, with the INVITE it sends |
| `CallManagers.CallManager.LegEnds` | sipgram/manager.py:704-773 | Refines the step for an ended leg: in a voice chat the last leg to leave closes it, elsewhere the user's slots change |
| `CallManagers.CallManager.TelegramEnded` | sipgram/manager.py:790-801 | Refines the step for the end of a Telegram call |
| `CallManagers.CallManager.ReconnectAnswered` | sipgram/manager.py:818-828 | Refines the step for an answered reconnect, including the branch that loses the lock |
| `CallManagers.CallManager.EndAll` | sipgram/manager.py:832-860 | Every leg of the user is hung up and no other user changes |
| `CallManagers.CallManager.Hangup` | sipgram/manager.py:987-1001 | `/hangup`: the active leg, or everything, or the user's legs in the voice chat |
| `CallManagers.CallManager.SwitchLegs` | sipgram/manager.py:1003-1030 | Refines the step for `/switch`, and answers a waiting leg |
| `CallManagers.CallManager.TransferCall` | sipgram/manager.py:1058-1089 | Refines the step for an attended transfer |
| `CallManagers.CallManager.ToVoiceChat` | sipgram/manager.py:1197-1236 | Refines the step that moves a user into the voice chat |
| `CallManagers.CallManager.JoinDialled` | sipgram/manager.py:1266-1276 | Refines the step in which a dialled number joins the chat |
| `CallManagers.CallManager.CloseGroup` | sipgram/manager.py:1279-1287 | Refines the end of a voice chat |
| `CallManagers.CallManager.CloseBridge` | sipgram/manager.py:1076-1083 | Refines the end of a SIP-to-SIP bridge |
| `RingAll.RingUsers` | sipgram/manager.py:417-484 | The two nested loops come, for every order of answers and failures, to the verdict of the specification; afterwards no pending flag is set, and every rung user but the one who answered has failed or was cancelled |
| `RingAll.AnsweredIffFirst` | sipgram/manager.py:429-483 | The SIP call is answered if and only if it is still there and the first user to answer has a free lock, and then for that user; it is left unanswered and unrejected if and only if that user's lock is lost; an answer is too late, or a call missed, if and only if the caller has gone, and somebody or nobody has answered |
| `RingAll.RejectedByAgreement` | sipgram/manager.py:458-461 | With a caller still waiting and nobody answering, the rejection is 486 (or 603) if and only if every rung user came out with 486 (or 603); every other case is 480 |
| `Duplicates.ExactlyOnce` | sipgram/sip/account.py:762-818 | For every run, dropping all requests other than ACK that repeat a transaction within 32 s of its last response leaves calls, dialogs and upcalls the same and the responses the same but for those given from the cache; the caches agree up to stale entries |
| `Duplicates.DuplicatesGetTheLatest` | sipgram/sip/account.py:762-775 | In every run such a repeat is answered with the latest response of its transaction, and nothing else about the account changes |
| `Duplicates.AbsorbedIffRepeats` | sipgram/sip/account.py:762-775 | The cache answers a request if and only if the history of responses says it is a repeat within 32 s |
| `Duplicates.TakenEven` | sipgram/sip/account.py:776-818 | A request that is taken up does the same to two accounts that differ only in cached answers and stale entries |
| `SingleFinal.OneFinalPerTransaction` | sipgram/sip/account.py:305-366 | In every run in which no request disturbs a transaction, whatever the order of ringing, answer, reject, redirect, hangup, CANCEL, BYE, re-INVITE and timers: on every server transaction, that of an INVITE or of any other request, the caller receives provisionals and then copies of one final response, all requests filed under the transaction and all answers from the cache included, from the request that begins it until one comes more than 32 s after its last response |
| `LateRepeats.OneFinalIffUndisturbed` | sipgram/sip/account.py:762-932 | From any state of a well-timed run and for any request, whatever its CSeq names: all transactions keep to one final response in every undisturbed continuation if and only if the request did not disturb one. A request disturbs if the cache does not answer it and either the cache still has a final response of its transaction other than the one it is about to get, or a call on that transaction still rings, unless the request is the BYE that ends the call |
| `LateRepeats.DisturbanceBreaks` | sipgram/sip/account.py:762-932 | After any request that disturbs a transaction there is an undisturbed continuation after which the caller has received two different finals on one transaction |
| `LateRepeats.LateRepeatBreaks` | sipgram/sip/account.py:895-911 | An INVITE repeated more than 32 s after its last response, while its call still rings, is followed by two different finals when the call is rejected, in any state |
| `LateRepeats.TwoFinals` | sipgram/sip/account.py:895-911 | A call that rings for 40 s, an INVITE repeated then, and an answer: the caller is sent 491 and then 200 |
| `LateRepeats.FinalOverwritten` | sipgram/sip/account.py:630-636 | An INVITE rejected with 486, an OPTIONS of the same branch whose CSeq names INVITE, and the INVITE repeated, all within 3 s: the caller is sent 486 and then, from the cache, the 200 of the OPTIONS |
| `Dialogs.EndedCallsLetGo` | sipgram/sip/account.py:158-180 | At the end of any run a call has ended if and only if it is out of `_calls`; an ended one holds no RTP and no timer and both its futures are resolved, `answered` with 200 if an outgoing call had been connected and otherwise with the code it ended with, or 487 if that is no failure; a live one has its media |
| `Dialogs.FuturesResolveOnce` | sipgram/sip/account.py:158-180 | However a run goes on, a resolved future keeps its value and an ended call stays ended |
| `Dialogs.StepKeeps` | sipgram/sip/account.py:762-932 | Every event keeps the register of calls exact, and every call only develops |
| `CallsAfter.CallAfter` | sipgram/sip/account.py:158-386 | All events from the side of one call: exactly when it ends and with which code, its state, whether a hold of ours is pending, and its session version, which grows by one with every accepted offer and every hold |
| `CallsAfter.StepSays` | sipgram/sip/account.py:762-932 | Exactly which responses every event sends, in their order, or which one it repeats from the cache |
| `Upcalls.EveryCallAnnounced` | sipgram/sip/account.py:874-882 | In every run: with a hook it has been told of all incoming calls, of each once and in the order they came; without one it has been told of none and each has ended with 480 |
| `Upcalls.ToldExactly` | sipgram/sip/account.py:762-882 | In every run the gateway is told exactly of the calls, digits, texts and transfer reports whose requests were taken up, in this order, each with the live call of that Call-ID, and of nothing else; what was taken up is decided by the history of responses |
| `Retransmission.RetransmissionBound` | sipgram/sip/account.py:663-695 | For any T1, T2 and timeout: a message is sent again at most Count times, in closed form, no earlier than the doubling schedule and never after the deadline; a timer that is on time sends exactly that often and gives up no later than T2 (T1, if longer) past the deadline |
| `Retransmission.SendGaps` | sipgram/sip/account.py:687-695 | Consecutive sends are at least min(T1 * 2^k, T2) apart, and exactly that if the timer is on time |
| `Retransmission.DefaultSchedule` | sipgram/sip/account.py:663-695 | With the defaults 0.5 s, 4 s and 32 s: eleven sends in all, and the end 35.5 s after the first |
| `Retransmission.FinalRetransmissions` | sipgram/sip/account.py:353-366 | An answered call without an ACK sends its 200 on that schedule and nothing else, and is hung up by the first timer past the deadline |
| `Retransmission.AnswerGivenUp` | sipgram/sip/account.py:311-366 | The same from the answer on, for the call by itself: at most eleven sends, and the hang-up by the first timer past the deadline and no other |
| `Retransmission.ReinviteGivenUp` | sipgram/sip/account.py:895-911 | The same for an accepted re-INVITE, for the call by itself |
| `Unacknowledged.AnswerRunsOut` | sipgram/sip/account.py:311-366 | An answered call, in any continuation of any run in which it gets no ACK, BYE or re-INVITE and is not hung up from here, whatever happens to all other calls and requests: its 200 goes out at most eleven times, on the doubling schedule and not after the deadline, and the call ends when its timer fires past the deadline and at no other time; with the timer on time it sends exactly eleven, ends 35.5 s after the first, and has ended once the run has gone more than T2 past the deadline |
| `Unacknowledged.ReinviteRunsOut` | sipgram/sip/account.py:895-911 | The same, in any run, for the 200 of an accepted re-INVITE |
| `Unacknowledged.RunSends` | sipgram/sip/account.py:353-366 | From any state in which a call waits for the ACK: over any such run its response is sent when its own timer fires and at no other time |
| `Retransmission.NothingAfterAck` | sipgram/sip/account.py:913-921 | After the ACK nothing is sent again, whenever the timer fires |
| `Retransmission.ClientTxn.Retransmit` | sipgram/sip/account.py:687-695 | Sends once and doubles the interval up to T2, or stops for good after the deadline or a final response |
| `Retransmission.ClientTxn.HandleResponse` | sipgram/sip/account.py:697-719 | A provisional response stops the timer and is passed to a listener; the first final response completes the transaction; every refusal of an INVITE within a dialog is acknowledged, repeated ones too |
| `UserAgentObjects.SipAccount.HandleRequest` | sipgram/sip/account.py:762-818 | The account with its tables and call objects, changed in place, does exactly what the specification of one received request says |
| `UserAgentObjects.SipAccount.HandleNewInvite` | sipgram/sip/account.py:820-882 | A new INVITE: 488 without an offer, else 100 and then 503 without a port, 488 without a common codec, or a registered call that is offered to the hook or refused with 480 |
| `UserAgentObjects.SipAccount.HandleReinvite` | sipgram/sip/account.py:895-911 | 491 unless the call is connected with no re-INVITE of our own under way, else a 200 that is repeated until the ACK |
| `UserAgentObjects.SipAccount.CancelCall` | sipgram/sip/account.py:923-932 | 200 for the CANCEL, 487 for the INVITE, and the call has left `_calls` |
| `UserAgentObjects.SipAccount.Sweep` | sipgram/sip/account.py:762-770 | Only entries older than 32 s leave the response cache |
| `UserAgentObjects.SipCall.End` | sipgram/sip/account.py:158-180 | Ends the call once: timer, RTP and futures are settled and the account lets go of it; a second call changes nothing |
| `UserAgentObjects.SipCall.Accept` | sipgram/sip/account.py:311-319 | Answers a ringing call with 200, once |
| `UserAgentObjects.SipCall.Refuse` | sipgram/sip/account.py:321-336 | Rejects or redirects a ringing call with one final response and ends it |
| `UserAgentObjects.SipCall.HangUp` | sipgram/sip/account.py:368-386 | Ends the call in any state; a call still ringing is rejected |
| `UserAgentObjects.SipCall.RetransmitFinal` | sipgram/sip/account.py:353-366 | One timer firing: a copy of the final response, or the hang-up after the deadline |
| `SipMessages.SerializeParses` | sipgram/sip/message.py:285-331 | Printing and parsing any well-formed message gives the same start line, headers and body, with one true Content-Length at the end |
| `SipMessages.SerializedLength` | sipgram/sip/message.py:355-368 | A receiver cuts exactly one printed message off a stream, whatever follows it |
| `SipMessages.BlankLineAfterHead` | sipgram/sip/message.py:285-291 | The blank line is found right after the head and never inside it |
| `SipForeign.ForeignParses` | sipgram/sip/message.py:297-331 | Messages as others print them, names in any spelling, blanks around values, values folded over any number of lines: the start line, one header per row under its canonical name with its value unfolded, and the body as far as the first Content-Length says or there is |
| `SipForeign.NoLengthNoCut` | sipgram/sip/message.py:326-330 | Without a Content-Length the body is everything after the blank line |
| `HeaderParams.ParamsRoundTrip` | sipgram/sip/message.py:35-67 | Parameters with distinct keys, printed after a value and read again, are the same in the same order if and only if: keys are stripped, in lower case and without an equals sign, no flag has an empty key, values have no space or quote at either end, no semicolon stands outside quotes in the value or any parameter, and quotes are closed in everything but the last parameter |
| `HeaderParams.ValueSurvivesIffPlain` | sipgram/sip/message.py:35-67 | For every value: it comes back as it was if and only if every semicolon in it has an odd number of its quotes before it and it has no space or quote at either end |
| `HeaderParams.QuotedValueSurvives` | sipgram/sip/message.py:35-67 | A quoted value is read whatever stands between the quotes, but is printed without them: it survives if and only if it has no semicolon and no space at either end |
| `HeaderParams.CutText` | sipgram/sip/message.py:37-48 | The character loop cuts at exactly the semicolons outside quotes |
| `HeaderParams.SplitText` | sipgram/sip/message.py:49-59 | The loop over the pieces fills the dictionary of the specification |
| `HeaderParams.Format` | sipgram/sip/message.py:62-66 | The loop over the dictionary prints what the round trip is about |
| `ListHeaders.OneRowOrMany` | sipgram/sip/message.py:226-235 | A list header reads the same through `get_all` whether its values are one comma-joined row or several rows, anywhere among the other headers, quotes and angle brackets honoured |
| `ListHeaders.OthersWhole` | sipgram/sip/message.py:223-235 | Under any other name the values come as they stand, one per row, and are not cut at commas |
| `ListHeaders.CommaSeparatesIffBalanced` | sipgram/sip/message.py:334-352 | A comma separates, whatever follows it, if and only if the text before it closes its quotes and brackets |
| `ListHeaders.SplitCommas` | sipgram/sip/message.py:334-352 | The character loop computes the non-blank pieces of the specification |
| `ListHeaders.CollectAll` | sipgram/sip/message.py:226-235 | The loop over the rows computes `get_all` |
| `HeaderNames.CanonicalIdempotent` | sipgram/sip/message.py:26-32 | For every text, the canonical form of a header name is a fixed point |
| `HeaderNames.CanonicalLength` | sipgram/sip/message.py:26-32 | Only "l" and "content-length", in any case and with any surrounding spaces, mean Content-Length |
| `SipForeign.SameHeaderIff` | sipgram/sip/message.py:26-32 | Two names are one header if and only if they are the same but for case and surrounding spaces, a compact form standing for its long name |
| `SipForeign.CompactMeans` | sipgram/sip/message.py:8-13 | Every compact form means its long name, in either case |
| `SipMessageObjects.SetReadsBack` | sipgram/sip/message.py:240-250 | After `set` the header has that one value and every other header reads as before |
| `SipMessageObjects.SipMessage.Set` | sipgram/sip/message.py:240-243 | In place: the header has this one value, every other header is as before, and all names stay canonical |
| `SipMessageObjects.SipMessage.Lookup` | sipgram/sip/message.py:219-224 | Returns the value of the first row under the canonical name, or none |
| `SipMessageObjects.SipMessage.Add` | sipgram/sip/message.py:245-246 | In place: one more row under the canonical name |
| `SipMessageObjects.SipMessage.Remove` | sipgram/sip/message.py:248-250 | In place: exactly the rows of that name go |
| `SipMessageObjects.SipMessage.Print` | sipgram/sip/message.py:285-291 | Returns the text that parses back, and leaves the Content-Length it printed in the list |
| `SipMessageObjects.ParseMessage` | sipgram/sip/message.py:297-331 | The loops of `parse`, folding included, compute the parser of the round trip; malformed text is an error |
| `SipMessageObjects.FindMessageLength` | sipgram/sip/message.py:355-368 | The loop over the header lines computes the length used by the framing |
| `Transport.ChunkIndependent` | sipgram/sip/transport.py:128-144 | The packets dispatched and the bytes left over depend only on the concatenation of what was read |
| `Transport.StreamRoundTrip` | sipgram/sip/transport.py:128-144 | Well-formed messages with CR/LF keepalives between and after them arrive as exactly those messages in order, however the reads cut the stream, and nothing is left over |
| `Transport.DrainExtends` | sipgram/sip/transport.py:133-144 | Draining the buffer before or after more bytes arrive comes to the same packets |
| `Transport.TcpTransport.CutPackets` | sipgram/sip/transport.py:135-144 | The inner loop terminates, having cut all complete packets off the buffer |
| `Transport.TcpTransport.ReadLoop` | sipgram/sip/transport.py:128-144 | The read loop dispatches the packets of the whole stream |
| `Ogg.PacketsRoundTrip` | sipgram/audio/ogg.py:34-92 | A reader of section 6 of RFC 3533 recovers the two headers and every written packet, in order, from the finished file |
| `Ogg.PageRules` | sipgram/audio/ogg.py:49-92 | The pages it finds: consecutive numbers of one stream, begin flag on the first only, end flag on the last only and exactly when a packet was written, granules that never decrease and end at the pre-skip plus all samples |
| `Ogg.FileReads` | sipgram/audio/ogg.py:49-92 | Every page of the finished file is accepted, its checksum valid, and nothing else is found |
| `Ogg.PageReadsBack` | sipgram/audio/ogg.py:49-60 | One written page is read back, checksum included, whatever bytes follow |
| `Ogg.HeaderFields` | sipgram/audio/ogg.py:62-68 | The two headers as section 5 of RFC 7845 reads them: version 1, the channels and the rate of the stream, 312 samples of pre-skip, no gain, mapping family 0; vendor "sipgram" and no comments |
| `Ogg.OggOpusWriter.Write` | sipgram/audio/ogg.py:77-82 | Accepts one packet after those already accepted; fails exactly when the packet held back does not fit on a page, and then what is on pages stays and that packet is lost |
| `Ogg.OggOpusWriter.FlushPending` | sipgram/audio/ogg.py:69-75 | Puts the packet held back on a page of its own, or loses it when struct.pack would raise |
| `Ogg.OggOpusWriter.Finish` | sipgram/audio/ogg.py:84-88 | The bytes are the file of everything accepted |
| `Ogg.OggOpusWriter.BuildPage` | sipgram/audio/ogg.py:49-60 | Builds the page whose checksum field holds the checksum over the page, failing exactly when a field does not fit |
| `Crc.TableCrc32` | sipgram/audio/ogg.py:25-31 | The table-driven loop returns the remainder of the message times x^32 by the polynomial 0x04C11DB7, for every byte string |
| `Crc.CrcIsRemainder` | sipgram/audio/ogg.py:15-31 | The byte-wise checksum equals bit-by-bit long division |
| `Crc.TableStep` | sipgram/audio/ogg.py:25-31 | One table lookup equals eight one-bit steps |
| `Crc.StepLinear` | sipgram/audio/ogg.py:15-22 | The one-bit step is linear over exclusive or |
| `Crc.BuildTable` | sipgram/audio/ogg.py:15-22 | Every entry of the table is its byte's own eight steps |
| `Rtp.DtmfExact` | sipgram/sip/rtp.py:110-154 | For any digit string, any order-preserving channel that loses or repeats packets but delivers one end packet per key, and anything else mixed in: the receiver reports exactly the valid digits in upper case if and only if no key press carries the timestamp and event of the one before it |
| `Rtp.DtmfSurvives` | sipgram/sip/rtp.py:187-211 | With the 100 ms per key of the source, for any receiver and any clock rate: every digit is reported, repeated digits and timestamp wrap-around included, if and only if the receiver has not just heard the first key at that very timestamp and, should 100 ms be a multiple of 2^32 ticks, no two neighbouring digits are the same; from 10 Hz up to 2^32 Hz they are not |
| `Rtp.RepeatedKeyLost` | sipgram/sip/rtp.py:149-154 | Corollary of the exact condition. A key held for a multiple of 2^32 ticks and pressed twice is reported once |
| `Rtp.ChannelIsTransparent` | sipgram/sip/rtp.py:144-154 | What such a channel does to the packets makes no difference to the receiver |
| `RtpPackets.AnyPacketDecodes` | sipgram/sip/rtp.py:110-136 | Any packet of section 5.1 of RFC 3550, with up to 15 contributing sources, an extension of any number of words and padding: marker, type, number, timestamp and source are read as meant and the payload is exactly what stands between |
| `RtpPackets.DtmfDressed` | sipgram/sip/rtp.py:110-154 | The exact condition for the digits to arrive holds for packets with any sources, extensions and padding |
| `RtpPackets.KeyPressReads` | sipgram/sip/rtp.py:187-222 | What a receiver reads from each packet of a key press: the key, the time held so far in steps of 20 ms up to the total and at most 65535, the end bit in the last three packets only, the marker on the first |
| `Rtp.OnlyEventsCount` | sipgram/sip/rtp.py:110-142 | Audio, malformed datagrams and anything else on the port leave the digits alone |
| `Rtp.NumbersConsecutive` | sipgram/sip/rtp.py:213-222 | Over all key presses the sequence numbers are consecutive modulo 2^16 |
| `RtpSessions.RtpSession.Send` | sipgram/sip/rtp.py:156-173 | One packet with the current number and timestamp; both advance modulo their width, and nothing moves when there is nowhere to send |
| `RtpSessions.RtpSession.Advance` | sipgram/sip/rtp.py:175-178 | Refinement step. The clock moves without a packet and the next packet is marked |
| `RtpSessions.RtpSession.HoldKey` | sipgram/sip/rtp.py:202-206 | The progress packets of one key, in steps of 20 ms up to the total |
| `RtpSessions.RtpSession.PressKey` | sipgram/sip/rtp.py:196-210 | One key press is the progress packets and three end packets of the specification, and the clock ends one key later |
| `RtpSessions.RtpSession.SendDigits` | sipgram/sip/rtp.py:187-211 | The worker sends exactly the packets of the specification for the valid digits, with consecutive numbers, and skips everything else |
| `RtpSessions.RtpSession.DatagramReceived` | sipgram/sip/rtp.py:110-154 | Digits, symmetric source and audio are what the specification of a received datagram says |
| `SdpOffers.OfferAnswerAgree` | sipgram/sip/sdp.py:158-204 | Offer, answer and read-back, each through text: both ends have the same codec name, clock rate, payload type and event type, and the choice is the first offered codec that is supported; there is no answer if and only if none is; the answerer sends exactly if the offerer receives and receives exactly if the offerer sends; address and port are the answerer's |
| `SdpOffers.DirectionsMeet` | sipgram/sip/sdp.py:191 | The answerer sends exactly if the offerer receives and receives exactly if the offerer sends |
| `SdpOffers.AnswerReadBack` | sipgram/sip/sdp.py:175-204 | The answer reads back from its text, and the caller takes the first codec it offered under the chosen name and rate, with that codec's channels and parameters and the answered payload type |
| `SdpOffers.ChannelsAgreeIffUnambiguous` | sipgram/sip/sdp.py:196-204 | The two ends agree on the channels whatever the answerer supports, if and only if no two audio codecs of the offer share a name (ignoring case) and a clock rate and differ in channels |
| `SdpOffers.AmbiguousConfuses` | sipgram/sip/sdp.py:196-204 | Of two such codecs one, supported alone, is taken for the other: the list that breaks the exchange, for every ambiguous offer |
| `SdpOffers.ChannelsConfused` | sipgram/sip/sdp.py:196-204 | A concrete exchange of this kind: offered in stereo and mono, answered in mono, taken for stereo |
| `SdpOffers.OfferShape` | sipgram/sip/sdp.py:158-172 | An offer keeps the codecs, uses every payload type once and has one telephone-event per clock rate, unless the codecs given bring more |
| `SdpOffers.OfferWellFormed` | sipgram/sip/sdp.py:158-172 | Every offer made of well-formed codecs can be sent and read back |
| `SdpOffers.OfferReadsBack` | sipgram/sip/sdp.py:158-172 | What the called end reads of an offer: the address and port of the caller, that both may send, the codecs as given, and after them telephone events of one channel, each under the least payload type from the given one on that is still free |
| `SdpOffers.AddEventsCounts` | sipgram/sip/sdp.py:162-171 | Adding events brings the count of every listed rate to one and changes no other rate |
| `SdpOffers.FirstSupported` | sipgram/sip/sdp.py:175-187 | The answerer takes the first offered codec it supports, and none only if it supports none |
| `SdpOffers.WhatIsChosen` | sipgram/sip/sdp.py:175-187 | What is settled on: the first offered codec that a supported one answers to (same name up to case, rate and channels), with the first that does, under the offered type and with its own parameters or else the offered ones; nothing exactly if none answers to any |
| `SdpOffers.EventsFor` | sipgram/sip/sdp.py:51-61 | The telephone events of a description at a clock rate are those first listed for that rate, else those first listed at all |
| `SdpOffers.FindCodec` | sipgram/sip/sdp.py:44-49 | Finds a codec of that name and rate exactly when there is one |
| `SdpOffers.FreeType` | sipgram/sip/sdp.py:163-169 | The least payload type from the start on that is not taken |
| `SdpOffers.Offer` | sipgram/sip/sdp.py:158-172 | The loops of `local_offer` compute the offer |
| `SdpOffers.AnswerOffer` | sipgram/sip/sdp.py:175-193 | The nested loops of `answer_for` compute the answer |
| `SdpOffers.MatchOffer` | sipgram/sip/sdp.py:196-204 | The loop of `match_answer` computes what the caller takes |
| `SdpRoundTrip.ParseBuild` | sipgram/sip/sdp.py:63-152 | Every well-formed description reads back from its own text as itself, but for the session name, which `parse` never reads |
| `SdpForeign.AudioGoesWhere` | sipgram/sip/sdp.py:63-130 | Any description: the audio goes to the last address given in its own section, else to the last one given before it, else to the origin; its direction is the last one stated in or before its section |
| `SdpForeign.OtherMediaIgnored` | sipgram/sip/sdp.py:63-130 | Media after the audio make no difference to what is read, whatever is said of them |
| `SdpForeign.StaticTypes` | sipgram/sip/sdp.py:7-16 | A payload type without rtpmap is the codec that table 4 of RFC 3551 gives it, or none |
| `SdpForeign.NumberedOnce` | sipgram/sip/sdp.py:132-152 | A session gets its number and version when it is first printed and keeps them from then on |
| `SdpText.ParseSdp` | sipgram/sip/sdp.py:63-130 | The loops of `parse` over lines and payload types compute the parser of the round trip; a line on which it raises is an error |
| `SdpText.BuildSdp` | sipgram/sip/sdp.py:132-152 | The loops of `build` compute the text of the round trip, after giving the session its numbers once |
| `PcmBuffers.EveryByteAccounted` | sipgram/audio/buffer.py:7-48 | After any operations: the buffer is the end of everything pushed, no longer than its capacity, and every byte pushed has been dropped, delivered or cleared, or is still there |
| `PcmBuffers.PullContinuesTheStream` | sipgram/audio/buffer.py:27-40 | A pull hands out the bytes that follow everything that has left the buffer, in the order they were pushed, padded with silence when there are fewer |
| `PcmBuffers.PcmBuffer.Push` | sipgram/audio/buffer.py:16-25 | In place: appends, and drops the oldest bytes beyond the capacity |
| `PcmBuffers.PcmBuffer.Pull` | sipgram/audio/buffer.py:27-40 | In place: takes the oldest bytes, padded or not, or nothing from an empty buffer |
| `CallBridges.OnePumpPerTick` | sipgram/bridge.py:148-155 | One pump per 20 ms since the bridge was started, whenever the timer ran |
| `CallBridges.TicksAddUp` | sipgram/bridge.py:148-155 | Ticks in between make no difference to the number of pumps |
| `CallBridges.CallBridge.Tick` | sipgram/bridge.py:148-155 | While the call may send, each due pump is one packet with the next sequence number modulo 2^16 and rate/50 more on the timestamp modulo 2^32, carrying the payload of what that pump plays; the buffer ends as after that many single pumps; a recorder gets one pair of frames per due pump |
| `Playout.SpokenIsHeard` | sipgram/bridge.py:157-186 | Over any deliveries from Telegram and any pumps: pump k sends the encoding of the stretch of the stream that follows everything that has left the buffer, filled up with silence if the buffer runs out in it, exactly if the buffer has been filled to the jitter margin and has not been empty since; otherwise it sends silence |
| `Playout.StretchesFollow` | sipgram/bridge.py:157-186 | Nothing leaves the buffer but what is played and what is dropped when it is full: without drops the stretches played follow on one another from the beginning |
| `Playout.FarEndHears` | sipgram/bridge.py:182-186 | With equal rates and a codec that loses nothing the far end gets those stretches back |
| `Playout.PayloadsArrive` | sipgram/bridge.py:148-186 | A receiver finds in packet k of a stretch the payload of play k, with consecutive numbers and timestamps rate/50 apart |
| `Playout.SpellIsPumps` | sipgram/bridge.py:148-155 | Several pumps in one tick play what single pumps play |
| `CallBridges.CallBridge.Start` | sipgram/bridge.py:46-56 | Refinement step. The first tick is due 20 ms after the start; starting twice changes nothing |
| `CallBridges.CallBridge.PumpOnce` | sipgram/bridge.py:157-186 | One pump: audio from the buffer once it is filled to the jitter margin, otherwise silence, and in either case one packet |
| `CallBridges.CallBridge.FromSip` | sipgram/bridge.py:135-146 | Everything from the SIP side, resampled from the SIP rate to that of Telegram if they differ, goes on in frames of 10 ms, in order, each mixed with the next stretch of the side tone; what is short of a frame is carried over, and a recorder gets a copy of all of it |
| `CallBridges.CallBridge.SideTone` | sipgram/bridge.py:118-121 | Refinement step. The tone is queued after what is left of the last one |
| `CallBridges.CallBridge.Record` | sipgram/bridge.py:87-98 | Starting twice keeps the one recording; a new one starts empty, and stopping drops the far bytes waiting |
| `CallBridges.CallBridge.MixSideTone` | sipgram/bridge.py:123-133 | One frame is the clipped sum with as much of the side tone as there is, and that much of the tone is used up |
| `CallBridges.ToneStretch` | sipgram/bridge.py:123-146 | Over any number of frames the tone advances with the audio: frame k is mixed with the stretch after all the bytes before it |
| `CallBridges.ToneMixed` | sipgram/bridge.py:123-133 | What the user hears under a tone: sample by sample the sum of both, clipped to the nearest 16-bit value, and the frame alone where the tone has ended |
| `CallBridges.CallBridge.RecordTick` | sipgram/bridge.py:104-116 | One pair of 20 ms frames, far and near, cut or padded with silence; the far bytes taken are gone from the buffer |
| `CallBridges.TapeRuns` | sipgram/bridge.py:104-116 | Over any number of pumps a recorder gets one pair each: the next 20 ms of the far side and what was played near, either of them filled up with silence; without a recorder nothing is kept |
| `CallBridges.ResampledLength` | sipgram/bridge.py:184-186 | 20 ms at one rate, resampled, are rate/50 samples at the other |
| `GroupMixing.MixMinus` | sipgram/bridge.py:303-317 | Every leg hears the clipped sum of the chat and all the other legs |
| `GroupMixing.OwnAudioDoesNotMatter` | sipgram/bridge.py:313-317 | A leg's own audio makes no difference to what it hears |
| `GroupMixing.ChatHearsAll` | sipgram/bridge.py:303-312 | The chat hears the clipped sum of all legs |
| `GroupPlayout.EveryoneHears` | sipgram/bridge.py:273-318 | Whatever has been said: at a pump every call that hears is sent one frame, at its own rate, of what the people of the chat and all other calls say next, sample by sample the nearest to their sum; a call that does not hear is sent nothing; the chat is sent what the calls say next; and each buffer goes on in its stream where it stopped, with silence once it has run out |
| `GroupMixing.MixedIsTotal` | sipgram/bridge.py:298-309 | With at most 65536 frames the 32-bit sum is the true sum |
| `GroupMixing.OverflowBeyondLimit` | sipgram/bridge.py:298-309 | One frame more can overflow |
| `PcmSamples.PcmRoundTrip` | sipgram/bridge.py:307-310 | Step towards the mixing results. Samples in range survive the trip through bytes |
| `GroupMixing.GroupBridge.Pump` | sipgram/bridge.py:296-317 | One pump pulls 20 ms of every buffer, sends the chat both halves of its mix and every eligible leg its own, resampled to the rate of that leg where it differs, and no leg anything else |
| `GroupMixing.GroupBridge.FromLeg` | sipgram/bridge.py:271-277 | What a leg says is buffered at the rate of the chat, the oldest bytes beyond the capacity dropped; a call that has left is ignored |
| `GroupMixing.GroupBridge.FromGroup` | sipgram/bridge.py:279-285 | At most 32 people of the chat are buffered, each in a buffer of their own |
| `GroupMixing.GroupBridge.Remove` | sipgram/bridge.py:263-266 | Exactly that leg leaves |
| `RateLimits.NoBusyMinute` | sipgram/api.py:75-85 | Any closed window of 60 s contains at most `rate_limit` accepted requests of a peer, for every non-decreasing sequence of request times |
| `RateLimits.RefusedIffFull` | sipgram/api.py:75-85 | A request is refused if and only if exactly that many were accepted in the preceding 60 s |
| `RateLimits.RateLimiter.RateOk` | sipgram/api.py:75-85 | The deque per peer decides as the history of all accepted requests would; other peers are untouched |
| `FlapSuppression.ReportsAlternate` | sipgram/alerts.py:55-83 | For every interleaving of losses, recoveries, wake-ups and deliveries the reports started for one account alternate, beginning with down |
| `FlapSuppression.DeliveredIffSmooth` | sipgram/alerts.py:41-83 | What the administrator gets alternates likewise, however the run goes on smoothly, if and only if no recovery and no shutdown fell between a wake-up and the delivery of its report and no report overtook another |
| `FlapSuppression.UpWithoutDown` | sipgram/alerts.py:60-83 | A concrete run for every wait: lost, reported, back before the delivery has ended; the administrator is told that the registration is back and of nothing else |
| `FlapSuppression.ReportsAreDue` | sipgram/alerts.py:55-83 | A down report is started at least `down_after` seconds into a loss without a recovery, an up report only for a reported loss, and there are no others |
| `FlapSuppression.LossIsReported` | sipgram/alerts.py:74-83 | A loss that lasts is reported by the wake-up its beginning asked for |
| `FlapSuppression.Alerts.Registration` | sipgram/alerts.py:55-72 | The dictionaries for one account change as the specification says, and no other account does |
| `FlapSuppression.Alerts.Deliver` | sipgram/alerts.py:41-52 | The end of one `_send`: that report is delivered and no longer on its way |
| `FlapSuppression.Alerts.ReportDown` | sipgram/alerts.py:74-83 | The end of the wait starts the report of the loss once, if it is still one; the report can be cancelled until it is delivered |

## Left out

- Interleavings inside one handler of `manager.py`: the checks before the lock is taken (lines 487 and 543) leave windows in which the slot properties do not hold.
- Direct dialling out, `_conference`, blind REFER (a transfer to a number is only the end of a leg), presence, screening, do-not-disturb, capacity and message texts of `manager.py`.
- Which Telegram call ends with which reason, and what `unhold` answers: events and their outcomes are free in the model.
- The client side of calls: registration, digest, outgoing INVITE and CANCEL, the contents of ACK, and PRACK. Outgoing calls take part as objects that progress, fail, are hung up and receive requests; of the client transaction its timers and what it does with a response are modelled, and a response without a transaction is not.
- Headers, tags and routing of responses: a response is the request it answers, its status and the number of its session description.
- SingleFinal.OneFinalPerTransaction: says at most one final; a call that is ended by BYE while it rings sends none, in the source as in the model.
- SingleFinal.OneFinalPerTransaction: assumes that no request disturbs a transaction; `LateRepeats.OneFinalIffUndisturbed` says exactly which ones do.
- SingleFinal.OneFinalPerTransaction: a transaction is what the cache files under one branch and CSeq method, and is over 32 s after its last response; as in the source, answers from the cache do not prolong it.
- SingleFinal.OneFinalPerTransaction: responses to equal requests with equal status and session description count as copies; tags and CSeq numbers are not part of the model.
- SIP URIs, name-addr values and Via lines beyond their parameters, and numbers in CSeq.
- Bodies on which `Sdp.parse` raises inside a request: an offer is usable or not, and an exception half-way through a handler is not modelled.
- Non-ASCII text: case mapping, digits and spaces are those of ASCII; int() is modelled for an optional sign and digits, without underscores.
- Transport.StreamRoundTrip: messages are sequences of characters, one per byte; decoding of UTF-8 and its replacement characters are not modelled.
- SdpRoundTrip.ParseBuild: well-formed means what one line can carry: single-word addresses and protocol, codec names without separators, payload types used once. Payload types above 127 are not excluded, as the source does not.
- Rtp.DtmfSurvives: the gap between keys and waiting for an earlier worker are not modelled.
- RtpSessions.RtpSession.SendDigits: the transport and the remote address stay while a digit string is sent, and the clock rate is at least 50 Hz (below it the source's step is 0 and its loop does not end).
- RTCP, symmetric switching of RTCP, counters of packets and octets.
- CallBridges.CallBridge.Tick: encoding and resampling are arbitrary functions (resampling towards SIP makes the right number of samples), so sample values after them are not modelled; neither are changes of the rate during a call and the time limit and file of the recorder.
- CallBridges.CallBridge.Start: both sides have been given their rate before; `update_rate` is not modelled.
- CallBridges.CallBridge.FromSip: with a side tone playing, frames have an even number of bytes; numpy raises otherwise.
- GroupMixing.GroupBridge.Pump: resampling is an arbitrary function of the bytes and the two rates.
- GroupPlayout.EveryoneHears: the people and calls of a chat stay the same over a run; who comes in and who leaves is in the methods of `GroupBridge`.
- Retransmission.RetransmissionBound: times are real numbers and T1 * 2^k is exact.
- FlapSuppression.DeliveredIffSmooth: a delivery that fails is one that has ended, as the source only logs it; an administrator who cannot be resolved, and a clock that goes back and so trips the throttle, are not modelled.
- `OggOpusWriter.duration` and `size`, the recorder around the writer, G.711, schedules, configuration, command line and history files: finite tables or plumbing.
- Sockets, asyncio, Telethon, NTgCalls, libopus and numpy: events, parameters or integer arithmetic.
