# Ekho agent runtime: a verified model

Ekho lets an operator and a fleet of AI agents exchange messages through a relay. The relay's inbox is
destructive: polling consumes a message and the agent acknowledges it. So whether a message is lost,
delivered twice, or shown with the wrong verification label is decided by a handful of small stateful
protocols that live in the agent's memory. This project models those protocols in Dafny and proves what
they keep over every run.

| file | component |
|---|---|
| `OrderedMaps.dfy` | insertion-ordered maps with FIFO eviction (JavaScript `Map`, Python `dict`) |
| `Messages.dfy` | messages, the identity of a held message, verdicts bound to identities |
| `Stash.dfy`, `Covering.dfy`, `AutoReplyState.dfy` | the deferred-retry stash: stashing, covering merge, expiry; specification functions and the object updated in place |
| `ReplyLoop.dfy` | the OpenClaw auto-reply loop as a step machine, one step per await-free region, with `stop()` as a step of its own |
| `LoopShape.dfy`, `LoopStop.dfy`, `LoopLedger.dfy`, `LoopThrows.dfy`, `LoopLabels.dfy`, `LoopLate.dfy` | its invariants: structure, what stopping guarantees, where every admitted message has gone, what a throwing logger loses, which passes turns may render, bounded late delivery |
| `LoopPlans.dfy`, `LoopTicks.dfy`, `LoopHeld.dfy`, `LoopVerdicts.dfy`, `LoopFloors.dfy`, `LoopTurns.dfy` | what each tick does exactly: who gets the turn, what the stash keeps, which verdict is shown, whose floors are taken and handed back, which stash goes out, what a turn's outcome means |
| `LateDelivery.dfy`, `LateOutcomes.dfy`, `TwinLabels.dfy` | the synchronous Hermes tick, bounded late delivery, what a tick delivers and keeps, and the labels of its late turns |
| `InboxRing.dfy`, `InboxVerdicts.dfy`, `InboxOrder.dfy` | the process-wide cached inbox behind `ekho_inbox`: what it never shows, which verdict it shows, what it holds |
| `TrustRoot.dfy`, `TrustRuns.dfy`, `TrustAnswers.dfy`, `Identity.dfy` | the operator trust root: revocation, un-revocation, first use, endorsement chaining, config seed |
| `MessageRing.dfy`, `StoreRuns.dfy`, `Ingest.dfy`, `StoreMemory.dfy` | the MCP connector's message store, its runs, the ingest that fills it, and how long an id is remembered |
| `OAuthModel.dfy`, `OAuthTraces.dfy`, `OAuthAnswers.dfy`, `OAuthObject.dfy` | the connector's OAuth server: specification, traces, exact answers and lifetimes, object |
| `RuntimeRegistry.dfy`, `RegistryObject.dfy`, `EnrolLock.dfy` | one producer per agent across module copies, and the enrolment lock |
| `PeerLatch.dfy`, `LatchAnswers.dfy` | the peer-turn latch and the progress signals that refresh it |
| `FixedWindow.dfy`, `RateGates.dfy`, `LoginThrottle.dfy`, `TokenBucket.dfy` | the rate limiters |

Code that updates an object or an array in loops is a class or a method here, proved equal to a
specification function; what the code is for is then proved of the specification functions, over runs.
Protocols that await the network are step machines whose answers are inputs.

Conventions of the model. The digest of a message's canonical material is an injective constructor; a
message that does not canonicalize has a token of its own object. Signature checking is an arbitrary
predicate over payload, signature and key; S256 is an arbitrary function; SHA-256 of a random token is
injective. Random ids are inputs required to be new. Time is an input. The dead-letter sink is an
append-only record. `verify_canonical`, `verifyInbound` and the relay's own code are not part of this model.

## Findings

- A stopped reply loop can still ask the relay for a floor. `isStopped` is documented as "no further floor
  or turn work" (packages/openclaw-plugin/src/autoreply.ts:1973), but a retry whose floor request throws
  continues to the next conversation before the stop check, and floor planning has no stop check between
  conversations. `LoopStop.StoppedFloorRequests` gives the exact condition. The promise on the returned
  `stop()`, that nothing more is acked, stashed or spawned, holds.
- A host logger that throws makes the reply loop forget acked work. The dead-letter sink's comment promises "a
  dead-letter record, never a silent gap" (packages/openclaw-plugin/src/autoreply.ts:2237-2238), and the stop path
  guards against such a logger (lines 2227-2235), but the tick does not: its cleanup clears what it still held. No
  request has to fail: a denied floor is logged inside the request's own handler, which logs again (lines 1935, 1940).
  `LoopThrows.ThrowLosesIff` says exactly when something is lost, `LoopThrows.ThrowingLoggerLosesMail` gives a run;
  `LoopLedger.NothingVanishes` holds of every run without such a throw.
- A message id can be in the connector's store twice. The seen check reads what earlier adds recorded, and a batch
  is added after the loop, so a batch that repeats an id stores it twice. And the seen FIFO forgets an id after
  SEEN_CAP newer ones: of a message still unread, as long as ids have not repeated, exactly if the ring's bound exceeds
  SEEN_CAP + 1, which the default of 500 (packages/mcp-connector/src/config.ts:60) does not. `Ingesting.StoredOnceIff` gives the exact condition,
  `Ingesting.RepeatedIdIsStoredTwice` the input, `StoreMemory.ForgetsUnreadIff` the bound. The store's comment
  (packages/mcp-connector/src/store.ts:22-25) speaks of redelivery, which the check does cover within its memory.
- Then a message can be lost unread: a confirmation goes by id, so confirming a batch with one of two messages under
  an id marks the other read although no batch ever had it (`StoreRuns.SharedIdIsLost`), against
  packages/mcp-connector/src/store.ts:17-20. `StoreRuns.LostUnseenIff` gives the exact condition, and while no id is
  stored twice `StoreRuns.UnreadUntilSeen` proves the promise.
- A floor denied in a tick does not always mean a later tick. A tick ends by servicing the stash, which may send out the
  very stash a message has just joined: at once if that stash was overdue, or after asking for the same floor again,
  this time granted (packages/openclaw-plugin/src/autoreply.ts:2724). `LoopTicks.OnlyDenialHoldsBack` and
  `LoopHeld.NoDeniedAboard` therefore speak of the covering turn and of the end of planning.
- The login throttle's and the peer rate gate's windows are documented as rolling
  (packages/relay/src/login-throttle.ts:67, packages/openclaw-plugin/src/autoreply.ts:2552) but are fixed, from the first
  counted event, and so is the consent page's. In one window's length the throttle lets
  through up to twice its limit, the other two, whose windows still count at exactly their full length, one less; each
  bound is met by a run from empty (`LoginThrottling.FailuresBoundIsReached`, `RateGates.PeerGateBoundIsReached`,
  `RateGates.GuessesBoundIsReached`). `FixedWindow.RollingLimitIff` says, from the window stored at a moment, exactly when
  the rolling limit can be broken from there on.
- The token bucket's retry-after is enough if and only if the limit is at least one request per minute, which
  the configuration enforces (packages/mcp-connector/src/config.ts:174).

## Model

| member | source | states |
|---|---|---|
| `LoopLedger.NothingVanishes` | packages/openclaw-plugin/src/autoreply.ts:2305-2741 | in every run in which the host's logger does not throw, with `stop()` between any two awaits, the keys the loop admitted are exactly those in the tick's hands, in the stash, aboard a turn whose spawn is undecided, in started turns, on dead-letter records and fresh in failed turns, plus copies folded into an identical one; no identity is folded away entirely |
| `LoopLedger.EverythingIsAccounted` | packages/openclaw-plugin/src/autoreply.ts:2305-2741 | in every run, thrown ticks included, the same places and the keys a thrown tick forgot are exactly the admitted ones |
| `LoopThrows.ThrowLosesAtRisk` | packages/openclaw-plugin/src/autoreply.ts:2727-2741 | a tick that its logger ends forgets exactly what only it knew of: its acked messages, a stash already taken out of the map, or the turn it was about to spawn or the drops, stashings and fresh messages it was still to handle |
| `LoopThrows.ThrowLosesIff` | packages/openclaw-plugin/src/autoreply.ts:2727-2741 | acked work is forgotten without a record if and only if the logger throws on the failure of an ack or the failure or denial of a floor to be planned, while the loop is not stopped and holds acked messages, on the failure of a held-back turn, just before a spawn, or just before a drop is recorded |
| `LoopThrows.DeniedFloorLosesMail` | packages/openclaw-plugin/src/autoreply.ts:1926-1942 | a denied floor whose log line throws, twice, forgets everything the tick had acked |
| `LoopThrows.ThrowingLoggerLosesMail` | packages/openclaw-plugin/src/autoreply.ts:2597-2607 | a run in which two acked messages end in no turn, no stash and no record |
| `LoopLedger.ExactlyOnePlace` | packages/openclaw-plugin/src/autoreply.ts:2305-2741 | a message admitted once is at every point in exactly one of those places, or forgotten by a thrown tick |
| `LoopLedger.FailedTurnLosesOnlyFresh` | packages/openclaw-plugin/src/autoreply.ts:2686-2712 | a covering turn that fails to start puts into the failed bucket only keys of its fresh messages that no covered stash holds |
| `LoopLedger.NextBooks` | packages/openclaw-plugin/src/autoreply.ts:2305-2741 | every await-free step, and every log line at which a throwing logger ends the tick, keeps the books balanced, the plan a partition of the kept messages and the covering turn loaded with exactly the held and fresh identities |
| `LoopLedger.ThrownBooks` | packages/openclaw-plugin/src/autoreply.ts:2727-2741 | wherever a thrown tick stops, even between the drops of one stashing, what it forgot is all that is missing |
| `LoopLedger.GroupsPartition` | packages/openclaw-plugin/src/autoreply.ts:1904-1909 | grouping the kept messages by conversation keeps every key with its multiplicity |
| `LoopLedger.AnswerPartition` | packages/openclaw-plugin/src/autoreply.ts:1925-1934 | whatever the floor answers, each kept message stays in exactly one of floored, deferred and still waiting, with its multiplicity; which of them is OnlyDenialHoldsBack's |
| `LoopStop.OneTurnAtATime` | packages/openclaw-plugin/src/autoreply.ts:2252-2309 | in every run turns start and end strictly alternately, `inFlight` says exactly whether one is open, and a tick starts at most one deferred turn across the overrun and retry paths |
| `LoopStop.StoppedLoopStartsNothing` | packages/openclaw-plugin/src/autoreply.ts:2760-2783 | after `stop()`, no continuation starts an ack, stashes anything or spawns a turn |
| `LoopStop.StoppedLoopHoldsNothing` | packages/openclaw-plugin/src/autoreply.ts:2279-2303 | after `stop()` nothing acked is held in memory except stashes covered by a turn whose spawn is undecided |
| `LoopStop.DispositionsAreFinal` | packages/openclaw-plugin/src/autoreply.ts:2239-2250 | a key once in a started turn, on a dead-letter record or failed stays so in every continuation |
| `LoopStop.StoppedFloorRequests` | packages/openclaw-plugin/src/autoreply.ts:1911-2052 | a stopped loop asks for a floor in a step if and only if floor planning has another peer conversation to ask for, or a retry walk goes on after a failed request or a vanished stash; the option's comment (line 1973) promises no floor work at all |
| `LoopStop.StopWhilePlanning` | packages/openclaw-plugin/src/autoreply.ts:1911-1938 | from any state planning a second peer conversation, stopping and then a failed first answer leads to a floor request by the stopped loop |
| `LoopStop.StoppedLoopCanAskForFloor` | packages/openclaw-plugin/src/autoreply.ts:2618-2619 | such a state is reached by a run, from any two peer messages in two conversations |
| `LoopShape.RunShape` | packages/openclaw-plugin/src/autoreply.ts:2252-2303 | in every reachable state the stash is within both caps with distinct keys, `covering` and `inFlight` match the phase, `unhanded` is exactly the acked messages not yet handed over, and a stopped loop owns nothing uncovered |
| `LoopLabels.PassingLabelsAreEarned` | packages/openclaw-plugin/src/autoreply.ts:820-834 | in every run, whatever a turn renders as passing was computed by verification of identical canonical material at an earlier poll, under the generation current when the turn was spawned, however ids are reused within or across batches |
| `LoopLabels.PassingMessageWasVerified` | packages/openclaw-plugin/src/autoreply.ts:500-539 | a comparable message that a turn renders as passing is itself one that an earlier poll verified, under the generation current at the spawn |
| `LoopLabels.CoverLabelsBacked` | packages/openclaw-plugin/src/autoreply.ts:1051-1135 | a covering turn's passing labels are backed under the current generation when the tick's verdicts and the stash's entries are |
| `LoopLabels.StashingIsHonest` | packages/openclaw-plugin/src/autoreply.ts:893-948 | stashing keeps every stored pass bound to its own material and the generation it was computed under |
| `LoopTicks.OnlyDenialHoldsBack` | packages/openclaw-plugin/src/autoreply.ts:1912-1944 | in every run of an unstopped loop whose logger does not throw, a message kept at a poll is aboard the turn its tick ends in, whatever the floor requests came to, unless the floor of its conversation was denied in that tick; then neither it nor its conversation's stash is aboard, and when planning ends it is in that stash, newly on record, or in the overdue stash it joined, just sent out because no other message makes a turn |
| `LoopTicks.AskedExactlyOnce` | packages/openclaw-plugin/src/autoreply.ts:1914-1926 | a tick asks for the floor of each conversation in which a peer wrote a kept message exactly once, and of no other |
| `LoopTicks.TurnIsInOrder` | packages/openclaw-plugin/src/autoreply.ts:1904-1943 | a covering turn's fresh messages are the kept ones, by conversation in order of first appearance and in order within each, without the conversations denied the floor |
| `LoopTicks.TurnHoldsGrantedFloors` | packages/openclaw-plugin/src/autoreply.ts:1928-1929 | the floors a covering turn will hand back are those granted in its tick, in that order |
| `LoopTicks.TurnShowsThePoll` | packages/openclaw-plugin/src/autoreply.ts:2363-2377 | a fresh message of a covering turn, stashes covered or none, is shown with exactly what its poll said of it: nothing if two different messages claim its id, else a durable rejection, else what was computed for the id, be it a pass, a failure or nothing; the turn's generation is the poll's |
| `LoopTicks.TurnShowsTheStored` | packages/openclaw-plugin/src/autoreply.ts:1086-1118 | a held-back message that a covering turn takes along and its batch does not redeliver is shown with exactly its stored verdict, a pass of another generation being none |
| `LoopTicks.AdmittedIsKept` | packages/openclaw-plugin/src/autoreply.ts:2597-2607 | a batch being acked or planned was acked first thing, and exactly its kept messages were admitted, each copy once |
| `LoopTicks.AckedIffAnyMessage` | packages/openclaw-plugin/src/autoreply.ts:2533-2543 | the answer to a poll is acked at once if and only if it has messages and no stall notice is to be sent first |
| `LoopHeld.NoDeniedAboard` | packages/openclaw-plugin/src/autoreply.ts:1051-1135 | no message, fresh or held back, of a conversation denied the floor in a tick is aboard the turn that tick ends in |
| `LoopHeld.StashesAreTheirOwn` | packages/openclaw-plugin/src/autoreply.ts:893-948 | in every run, thrown ticks included, each stash holds messages of its own conversation only |
| `LoopHeld.StashIsRemembered` | packages/openclaw-plugin/src/autoreply.ts:893-999 | in every run a conversation's stash stays exactly as it is, or leaves whole, until a poll keeps another message of that conversation |
| `LoopHeld.NextDerived` | packages/openclaw-plugin/src/autoreply.ts:2305-2741 | whatever a step does, the new stash is the old one with a prefix of the groups its plan defers stashed and then whole conversations taken out |
| `LoopVerdicts.StashKeepsThePoll` | packages/openclaw-plugin/src/autoreply.ts:904-920 | a message held back because its floor was denied is stored with exactly what its poll said of it under that poll's generation; only if the poll said nothing may it keep what was stored for the same identity |
| `LoopVerdicts.LateTurnShowsTheStored` | packages/openclaw-plugin/src/autoreply.ts:820-834 | a held-back turn shows each of its messages with exactly the stored verdict, a pass of another generation being none |
| `LoopVerdicts.LateTurnShowsThePoll` | packages/openclaw-plugin/src/autoreply.ts:820-948 | over runs, from poll to late turn: a message denied at one poll and delivered late, with no newer message of its conversation kept between, is shown with exactly what that poll said, a pass only under that poll's generation |
| `LoopFloors.GrantedFloorsAreReturned` | packages/openclaw-plugin/src/autoreply.ts:2618-2724 | between two moments with no tick running, stopped or not, the floors handed back are exactly those granted, each as often |
| `LoopFloors.ServiceIsFair` | packages/openclaw-plugin/src/autoreply.ts:1976-2104 | whenever an unstopped loop services its stash, the overdue stash deferred first goes out whole; with none overdue the floor of the conversation waiting longest is asked for and the others queue in order of their wait; with nothing stashed the tick ends |
| `LoopFloors.FirstGrantGoesOut` | packages/openclaw-plugin/src/autoreply.ts:2018-2095 | the retry walk ends with the first conversation granted its floor, whose whole stash is the late turn, or with every one of them refused and no turn |
| `LoopTurns.LateTurnIsDecided` | packages/openclaw-plugin/src/autoreply.ts:2057-2083 | each message of a late turn counts as started if it started and goes on record if it did not, and no other message's fate changes |
| `LoopTurns.CoverTurnIsDecided` | packages/openclaw-plugin/src/autoreply.ts:2668-2712 | a covering turn that starts has started all it carried, once each; one that does not loses exactly the fresh messages that no stash it covered holds |
| `LoopTurns.FailedOverrunAsks` | packages/openclaw-plugin/src/autoreply.ts:2097-2104 | when an overdue stash's turn does not start, the floor of every conversation still in its retry window is asked for, longest wait first, and with none the tick ends |
| `Covering.FreshLabelIsTheTicks` | packages/openclaw-plugin/src/autoreply.ts:1051-1135 | every fresh message of a covering turn, stashes covered or none, has exactly the verdict the tick's map has for its identity, or none |
| `Covering.HeldLabelIsTheStored` | packages/openclaw-plugin/src/autoreply.ts:1086-1118 | a held entry not redelivered has exactly its stored verdict, a pass of another generation being none |
| `Covering.CargoHas` | packages/openclaw-plugin/src/autoreply.ts:1051-1135 | every fresh message is aboard, stashes covered or none |
| `Stashing.StashedExactly` | packages/openclaw-plugin/src/autoreply.ts:904-920 | each entry of the conversation just stashed is an old one untouched or carries this call's verdict and generation, else those held for its identity, else no verdict |
| `Stashing.StashDropsExactly` | packages/openclaw-plugin/src/autoreply.ts:921-947 | the returned drops are exactly the oldest messages past the conversation's cap, as overflowed, and then, with one conversation too many, the whole stash re-inserted longest ago, as evicted |
| `LateOutcomes.TickDelivers` | packages/hermes-plugin/ekho_hermes/autoreply.py:2376-2476 | a message the tick puts aboard a turn that starts has been delivered when the tick is over |
| `LateOutcomes.TickLosesNoDeferred` | packages/hermes-plugin/ekho_hermes/autoreply.py:591-660 | a message the tick defers is still held, or has left by a turn or a record, when the tick is over |
| `LateOutcomes.CoverClearsIffStarted` | packages/hermes-plugin/ekho_hermes/autoreply.py:719-800 | a covering turn that starts delivers every fresh message and every one held for their conversations and clears exactly those stashes; one that does not changes nothing |
| `LateOutcomes.ServiceServes` | packages/hermes-plugin/ekho_hermes/autoreply.py:2092-2268 | servicing takes out an overdue stash deferred first, and the one retried stash only if none was overdue or its turn did not start; each goes whole to a started turn or on record and nothing else moves |
| `InboxVerdicts.RecordedVerdict` | packages/openclaw-plugin/src/autoreply.ts:624-662 | after a tick's verdicts an entry carries a collected rejection if there is one, else, for an uncontested message of the batch with a computed verdict, its material's durable rejection or that verdict, else what it had |
| `InboxVerdicts.VerdictIsShown` | packages/openclaw-plugin/src/autoreply.ts:624-735 | over runs a reader under the same context is shown exactly that verdict until an event replaces it |
| `InboxVerdicts.ContextOutcome` | packages/openclaw-plugin/src/autoreply.ts:343-366 | after a change of context the durable rejections are the old ones and the failures of comparable entries |
| `InboxVerdicts.BatchOutcome` | packages/openclaw-plugin/src/autoreply.ts:551-599 | a message whose id a batch brings once, if the ring still holds it afterwards, starts with the verdict of the very same message if the ring held it, else its durable rejection, else none |
| `InboxVerdicts.ReaderOutcome` | packages/openclaw-plugin/src/autoreply.ts:708-752 | a reader sees every entry in order, with its verdict unless that is a pass of another generation |
| `InboxOrder.RingHoldsTheLatest` | packages/openclaw-plugin/src/autoreply.ts:343-599 | in every run the ring holds exactly the LAST_BATCH_CAP ids delivered last under its context, oldest delivery first, that context is the last event's other than a read, and a batch is recorded exactly if one has arrived since it was opened |
| `InboxOrder.FreshnessIsTold` | packages/openclaw-plugin/src/autoreply.ts:708-735 | freshness is unavailable before any batch under the cache's context, current while its generation is the reader's, else stale |
| `TrustAnswers.FirstUse` | packages/hermes-plugin/ekho_hermes/verification.py:528-548 | from no pins and no latch a poll adopts exactly the listed ids with a key, no tombstone after the claims and no claim of revocation, each with its last such key and marked as first use; the latch is set if and only if there is one; with none nothing is adopted |
| `TrustAnswers.SignedClaimsDecide` | packages/hermes-plugin/ekho_hermes/verification.py:304-418 | pins and tombstones after the claims in terms of the signature check itself: an id goes if and only if a key pinned at the poll's arrival signed a revocation of it bound to this fleet, and a tombstone goes if and only if such a key signed an un-revoke bound to its time |
| `TrustAnswers.EndorsedIsPinned` | packages/hermes-plugin/ekho_hermes/verification.py:549-576 | an entry endorsed by a pinned key with a signature over its id and key, with neither tombstone nor claim of revocation, is pinned by that poll |
| `TrustAnswers.SeedOutcome` | packages/hermes-plugin/ekho_hermes/connection.py:220-252 | the seed pins exactly the configured ids without a tombstone, each with its last configured key, and keeps every other pin |
| `TrustAnswers.PinsAreKeys` | packages/hermes-plugin/ekho_hermes/verification.py:468-582 | in every run every pinned id has a key |
| `OAuthAnswers.AccessIff` | packages/mcp-connector/src/oauth.ts:381-388 | a request is let in for a client if and only if the first stored access token with its hash is that client's, has not expired and is for this resource |
| `OAuthAnswers.RegisterIff` | packages/mcp-connector/src/oauth.ts:178-247 | a registration is accepted if and only if it is well formed and there is room or some client has no session left to refresh; the first such makes room; a refused one changes nothing |
| `OAuthAnswers.AuthorizeIff` | packages/mcp-connector/src/oauth.ts:251-280 | an authorization request proceeds if and only if every condition on client, redirect, PKCE, resource and scope holds |
| `OAuthAnswers.OpenedPage` | packages/mcp-connector/src/oauth.ts:282-289 | the page opened is bound to the validated request and open for its lifetime |
| `OAuthAnswers.StalePagesAreDropped` | packages/mcp-connector/src/oauth.ts:283-289 | opening a page drops every lapsed one |
| `OAuthAnswers.PagesAreBounded` | packages/mcp-connector/src/oauth.ts:283-289 | in every run at most MAX_CONSENTS pages are open |
| `OAuthAnswers.ConsentIff` | packages/mcp-connector/src/oauth.ts:303-327 | a consent is answered with a code if and only if the address is not cooling off, the page is open and the password is right; the code lives CODE_TTL_MS and the failures are forgotten |
| `OAuthAnswers.LapsedFailuresAreForgotten` | packages/mcp-connector/src/oauth.ts:291-299 | an address whose failure window has lapsed is forgotten by its next answer unless that is a failure again |
| `OAuthAnswers.RedeemIff` | packages/mcp-connector/src/oauth.ts:340-352 | a code is redeemed if and only if it is stored and unexpired, for this client and redirect, with a well-formed verifier whose S256 is the challenge, for this resource |
| `OAuthAnswers.RotateIff` | packages/mcp-connector/src/oauth.ts:353-363 | a refresh token is rotated if and only if the first stored one with its hash is unexpired and this client's, for this resource |
| `OAuthAnswers.NoOtherGrant` | packages/mcp-connector/src/oauth.ts:333-339 | no other grant type gets tokens |
| `OAuthAnswers.NewAccessWorks` | packages/mcp-connector/src/oauth.ts:367-388 | an access token just handed out is accepted for its lifetime and refused after |
| `OAuthAnswers.NewRefreshWorks` | packages/mcp-connector/src/oauth.ts:353-378 | a refresh token just handed out is rotated within its lifetime and refused after |
| `OAuthAnswers.HonestFlowIsGranted` | packages/mcp-connector/src/oauth.ts:251-378 | an honest client's whole flow, from authorization through consent and redemption to a use of the access token, succeeds within the lifetimes |
| `OAuthAnswers.AcceptedTokenIsFresh` | packages/mcp-connector/src/oauth.ts:381-388 | over runs, an accepted access token was issued less than ACCESS_TTL_MS before |
| `OAuthAnswers.RotatedTokenIsFresh` | packages/mcp-connector/src/oauth.ts:353-363 | over runs, a rotated refresh token was issued less than REFRESH_TTL_MS before |
| `OAuthAnswers.RedeemedCodeIsFresh` | packages/mcp-connector/src/oauth.ts:340-352 | over runs, a redeemed code was issued less than CODE_TTL_MS before |
| `OAuthAnswers.AnsweredPageIsFresh` | packages/mcp-connector/src/oauth.ts:303-327 | over runs, an answered page was opened less than CONSENT_TTL_MS before |
| `OAuthAnswers.TokenIsLostOnlyBy` | packages/mcp-connector/src/oauth.ts:141-378 | a stored token leaves only by expiry, by its own rotation, with its evicted client, or as one of the oldest past MAX_TOKENS |
| `OAuthAnswers.RestartForgets` | packages/mcp-connector/src/oauth.ts:103-146 | a restart keeps clients and tokens, and no code or page from before is answered after it |
| `LatchAnswers.WakesIffBelowTheCap` | packages/openclaw-plugin/src/autoreply.ts:1160-1253 | as long as other conversations do not push it out of the bounded maps, a conversation's message wakes the agent if and only if there is no cap or fewer messages than the cap have woken it since the latch was last re-opened |
| `LatchAnswers.RefreshesIffWithinAllowance` | packages/openclaw-plugin/src/autoreply.ts:1260-1340 | a progress signal re-opens the latch if and only if its signature did not fail and fewer than PROGRESS_REFRESH_MAX signals have done so in the window |
| `TokenBuckets.BurstAdmitsWholeTokens` | packages/mcp-connector/src/auth.ts:61-93 | of a burst at one instant exactly as many requests are admitted as there are whole tokens: perMinute for a client never seen, else what it was left with plus the inflow, up to perMinute |
| `RuntimeRegistry.ConnectedProduces` | packages/openclaw-plugin/src/connection.ts:532-640 | in every run a connecting copy heartbeats afterwards exactly if it is not retired and no newer copy holds the agent, and loops exactly if moreover it has the host's api and auto-reply is not disabled |
| `RuntimeRegistry.EnsuredProduces` | packages/openclaw-plugin/src/connection.ts:580-640 | in every run a copy asked again to produce does so exactly if it already did or is entitled to |
| `RuntimeRegistry.StoppedRunsNothing` | packages/openclaw-plugin/src/connection.ts:691-725 | in every run a stopped copy is retired, runs nothing and holds no agent, and no other copy or holder changes |
| `RuntimeRegistry.RebindRestarts` | packages/openclaw-plugin/src/connection.ts:662-678 | in every run a rebind stops the loop, and after the drain the copy holds one exactly if it is entitled to and auto-reply is not disabled |
| `RuntimeRegistry.ReactivatedIsEntitled` | packages/openclaw-plugin/src/connection.ts:736-738 | in every run a reactivated copy is entitled to produce unless a newer copy holds its agent, and nothing starts by itself |
| `RuntimeRegistry.ReleaseIffHeld` | packages/openclaw-plugin/src/runtime-registry.ts:77-80 | a release drops the agent's entry if this copy holds it and nothing else |
| `EnrolLock.KeyIsForgottenIff` | packages/openclaw-plugin/src/runtime-registry.ts:96-114 | in every run the key maps to a tail exactly while some call under it is unfinished |
| `Ingesting.DeadLetteredIff` | packages/mcp-connector/src/agent.ts:297-325 | a message is dead-lettered if and only if it is in the batch, well-formed, neither echo nor heartbeat, not seen before and not admitted by the policy |
| `LoginThrottling.CountedIff` | packages/relay/src/login-throttle.ts:123-150 | a failure is counted for a key if and only if the key has a bucket or fewer than maxBuckets are unlapsed, and no other unlapsed bucket is touched |
| `LoginThrottling.LoginLeaves` | packages/relay/src/login-throttle.ts:105-157 | after a login neither of its keys has a lapsed bucket, and a success has cleared the account's and left the address's alone |
| `StoreRuns.SentIsOurs` | packages/mcp-connector/src/store.ts:157-213 | in every run a message the agent sent counts as delivered by itself, whatever is confirmed |
| `Messages.BatchVerdictsByHeldKey` | packages/openclaw-plugin/src/autoreply.ts:518-540 | the two loops compute, for each identity in the batch, the id's verdict, or none when two different messages of the batch claim the id |
| `Messages.BoundVerdictIsComputed` | packages/openclaw-plugin/src/autoreply.ts:510-540 | a verdict that reaches an identity was computed on a message of the batch with exactly that identity |
| `Messages.PassIsComputed` | packages/openclaw-plugin/src/autoreply.ts:2369-2377 | with durable rejections overriding computed verdicts, a pass that reaches an identity is one verification computed for it |
| `Stashing.StashConserves` | packages/openclaw-plugin/src/autoreply.ts:893-948 | kept keys plus dropped keys are exactly the keys held before plus the incoming ones, merged by identity |
| `Stashing.StashKeepsNewest` | packages/openclaw-plugin/src/autoreply.ts:921-947 | both caps hold, the conversation keeps the newest slice in order and its first deferral time, it is never evicted itself, other stashes are untouched and only the oldest is evicted |
| `Stashing.StashedVerdicts` | packages/openclaw-plugin/src/autoreply.ts:904-920 | each stashed entry is an old one or carries, for its own key, this call's verdict and generation, an old entry's, or none |
| `ReplyState.AutoReplyState.StashDeferred` | packages/openclaw-plugin/src/autoreply.ts:893-948 | the in-place update and the returned drops equal the specification functions |
| `ReplyState.AutoReplyState.EvictOldestStashes` | packages/openclaw-plugin/src/autoreply.ts:937-946 | whole stashes past the conversation cap leave oldest first, each as one drop |
| `ReplyState.AutoReplyState.ListRetryableDeferred` | packages/openclaw-plugin/src/autoreply.ts:954-962 | lists exactly the stashes within the TTL, longest wait first, ties in insertion order |
| `ReplyState.AutoReplyState.TakeExpiredDeferred` | packages/openclaw-plugin/src/autoreply.ts:971-993 | removes and returns the expired stashes, longest wait first, at most `limit`, and nothing else |
| `ReplyState.AutoReplyState.ClearDeferred` | packages/openclaw-plugin/src/autoreply.ts:997-999 | removes one conversation's stash |
| `ReplyState.AutoReplyState.MergeCoveredStashes` | packages/openclaw-plugin/src/autoreply.ts:1051-1135 | the four loops of the merge compute the specified cargo, the tick's own map of verdicts when no stash is covered, and leave the stash unchanged |
| `Covering.CoverCarriesAll` | packages/openclaw-plugin/src/autoreply.ts:1051-1135 | when any stash is covered the turn carries each distinct key of the covered stashes and the fresh batch once, held ones first by longest wait in stash order, and exactly the held ones are late |
| `Covering.CoverLabels` | packages/openclaw-plugin/src/autoreply.ts:1086-1118 | a covering turn has no label that is neither this tick's verdict for that identity nor, for a held-back message not redelivered, the stored one with a pass of another generation voided |
| `Covering.SortIsStable` | packages/openclaw-plugin/src/autoreply.ts:1064-1068 | sorting by first deferral time is a permutation, nondecreasing, and keeps ties in order |
| `Covering.ClearTakesHeld` | packages/openclaw-plugin/src/autoreply.ts:2692-2695 | clearing the covered stashes removes exactly the keys the turn took from them |
| `Covering.OldestGoesFirst` | packages/openclaw-plugin/src/autoreply.ts:971-985 | the expired stash delivered next has waited at least as long as every other expired one |
| `LateDelivery.BoundedLateDelivery` | packages/hermes-plugin/ekho_hermes/autoreply.py:2181-2268 | from any tidy stash, with a nondecreasing clock, a message whose stash is past the retry TTL is in a started turn or on a dead-letter record within CONVERSATION_CAP further completed ticks, whatever is stashed meanwhile |
| `LateDelivery.TickTidy` | packages/hermes-plugin/ekho_hermes/autoreply.py:591-709 | a tick keeps the stash within both caps, with distinct conversations and distinct keys and none empty |
| `LoopLate.BoundedLateDelivery` | packages/openclaw-plugin/src/autoreply.ts:2016-2104 | in the runs of the asynchronous loop: a message held back past the retry TTL has been in a started turn or on a dead-letter record, or rides in the one undecided held-back turn, once the loop has come to service the stash CONVERSATION_CAP times, whatever is stashed, covered, retried or stopped meanwhile |
| `LoopLate.StepTracks` | packages/openclaw-plugin/src/autoreply.ts:1911-2104 | no step puts a stash ahead of one already past its window, and each servicing step takes that one or one ahead of it |
| `TwinLabels.LatePassesAreJudged` | packages/hermes-plugin/ekho_hermes/autoreply.py:582-588 | whatever a late turn of the Hermes twin renders as passing was handed to that tick or an earlier one as the verdict of identical material, however ids are reused, messages deferred in the very tick included |
| `LateDelivery.ServiceAdvances` | packages/hermes-plugin/ekho_hermes/autoreply.py:2092-2268 | a service step with an expired stash delivers it, or delivers one that was ahead of it and lets none overtake |
| `LateDelivery.HeldOrRecorded` | packages/hermes-plugin/ekho_hermes/autoreply.py:591-660 | a held message survives another stashing in its place with its first deferral time, or is in a returned drop |
| `LateDelivery.ListedOrderIsOldest` | packages/openclaw-plugin/src/autoreply.ts:971-985 | the asynchronous loop's choice is an oldest expired stash too, so the bound's step applies to it |
| `InboxRing.RingIsSound` | packages/openclaw-plugin/src/autoreply.ts:343-366 | in every run every cached pass was computed on its entry's own material under the cache's own generation, no rejected material is cached as passing, rejections are failures of comparable material and the ring holds at most LAST_BATCH_CAP entries |
| `InboxRing.ReadersSeeOnlyEarnedPasses` | packages/openclaw-plugin/src/autoreply.ts:708-735 | a reader shown a pass is on the cache's connection and generation, and the verdict was computed on exactly the shown material under that generation |
| `InboxRing.RejectedForever` | packages/openclaw-plugin/src/autoreply.ts:551-662 | once a tick has rejected a comparable message the ring holds, no reader is ever again shown that material as passing, through any redelivery, eviction, re-verification or context change |
| `InboxRing.PreviousIsSound` | packages/openclaw-plugin/src/autoreply.ts:589-592 | a redelivery keeps the ring's verdict only as the same message and otherwise starts with a durable rejection of its material or none |
| `InboxRing.InboxRegistry.Open` | packages/openclaw-plugin/src/autoreply.ts:343-366 | a change of context empties the ring and turns its comparable failures into durable rejections |
| `InboxRing.InboxRegistry.RecordBatch` | packages/openclaw-plugin/src/autoreply.ts:551-599 | the loops re-insert each message as newest and trim the oldest, as the specification says |
| `InboxRing.InboxRegistry.RecordVerifications` | packages/openclaw-plugin/src/autoreply.ts:624-662 | verdicts attach only through the identity of the message an entry holds, nulls never overwrite, rejections are applied last |
| `InboxRing.InboxRegistry.GetCachedInbox` | packages/openclaw-plugin/src/autoreply.ts:708-752 | the view voids every pass for a reader in another generation and is empty for one on another connection |
| `TrustRuns.TrustRootNeverLost` | packages/hermes-plugin/ekho_hermes/verification.py:468-582 | over all runs of seed and sync steps pins and tombstones stay disjoint, a nonempty pin set never becomes empty, and first-use adoption happens at most once and only if no key was ever pinned |
| `TrustRuns.PinProvenance` | packages/hermes-plugin/ekho_hermes/verification.py:528-582 | every new pin of every step is a configured key, a first-use adoption, or in the endorsement closure of the pins that survived the poll's revocations |
| `TrustRuns.AdoptExactly` | packages/hermes-plugin/ekho_hermes/verification.py:528-548 | first use adopts exactly the listed ids that carry a key and have neither tombstone nor advisory claim |
| `TrustRuns.PollRevocation` | packages/hermes-plugin/ekho_hermes/verification.py:468-527 | in one poll a proven revocation beats a valid un-revoke of the same id, except for a spared last root, and unproven claims change neither set |
| `TrustRuns.ClaimsOutcome` | packages/hermes-plugin/ekho_hermes/verification.py:421-465 | after a list's claims the tombstones are those not validly un-revoked plus every proven id but a spared last root, and the pins are the rest |
| `TrustRuns.PollReEndorses` | packages/hermes-plugin/ekho_hermes/verification.py:549-560 | an id a poll unpins is tombstoned in it and is not chained back in by the same poll |
| `TrustRuns.SeedFrame` | packages/hermes-plugin/ekho_hermes/connection.py:220-252 | the config seed pins only listed keys without tombstone, unpins tombstoned ones and touches nothing else |
| `TrustRoot.RevocationOutcome` | packages/hermes-plugin/ekho_hermes/verification.py:304-343 | with P the pins and R the proven ids: if P is not inside R exactly P - R stays and all of R is tombstoned in any order; if P is nonempty and inside R exactly one pin survives |
| `TrustRoot.SparedMeaning` | packages/hermes-plugin/ekho_hermes/verification.py:332-333 | the pin that survives is the one left alone when the last other pin of R went, and there is one only if R covers all pins |
| `TrustRoot.TombstoneTime` | packages/hermes-plugin/ekho_hermes/verification.py:270-301 | a new tombstone carries the time of the first proven revocation of its id; an old one keeps its own |
| `TrustRoot.UnrevokeOutcome` | packages/hermes-plugin/ekho_hermes/verification.py:346-418 | a tombstone is cleared if and only if the list has a signed un-revoke bound to that tombstone's own time |
| `TrustRoot.EndorseSound` | packages/hermes-plugin/ekho_hermes/verification.py:549-576 | every pin endorsement adds lies in the closure of the pins it started from |
| `TrustRoot.EndorsementConverges` | packages/hermes-plugin/ekho_hermes/verification.py:549-582 | from nonempty pins, repeated sync on one claim-free list of n distinct ids reaches within n polls the least set closed under valid endorsements of untombstoned ids |
| `TrustRoot.OrderIndependent` | packages/hermes-plugin/ekho_hermes/verification.py:549-582 | two orderings of one such list converge to the same pins |
| `IdentityObject.Identity.SyncPinnedOperatorKeys` | packages/hermes-plugin/ekho_hermes/verification.py:468-582 | the five loops update pins, tombstones, admissions and the latch as the specification does, first-use adoption included, and report whether anything must be saved |
| `IdentityObject.Identity.SeedFromConfig` | packages/hermes-plugin/ekho_hermes/connection.py:220-252 | the seed loop equals its specification and reports whether a pin moved |
| `IdentityObject.ClearTombstones` | packages/hermes-plugin/ekho_hermes/verification.py:346-418 | the un-revoke loop equals its specification |
| `IdentityObject.ApplyRevocations` | packages/hermes-plugin/ekho_hermes/verification.py:304-343 | the revocation loop equals its specification |
| `IdentityObject.HonorRevocation` | packages/hermes-plugin/ekho_hermes/verification.py:270-301 | an honoured revocation tombstones the id if it was not, unpins it and forgets its admission |
| `IdentityObject.AdoptFirstUse` | packages/hermes-plugin/ekho_hermes/verification.py:528-548 | the adoption loop equals its specification |
| `IdentityObject.ChainEndorsements` | packages/hermes-plugin/ekho_hermes/verification.py:549-576 | the endorsement loop equals its specification |
| `StoreRuns.UnreadIsNeverLost` | packages/mcp-connector/src/store.ts:157-213 | in every run an unread message stays in the ring, unread, until a batch that was handed out with its id is confirmed |
| `StoreRuns.UnreadUntilSeen` | packages/mcp-connector/src/store.ts:157-213 | while no two inbound messages share an id, an unread message stays until a batch that was handed out with that very message in it is confirmed |
| `StoreRuns.SettledUnseenIff` | packages/mcp-connector/src/store.ts:207-213 | a step that confirms a batch without an unread message settles that message if and only if the batch carries its id on other messages only |
| `StoreRuns.SettledIff` | packages/mcp-connector/src/store.ts:157-213 | in every run an unread message is settled by a later moment if and only if a retained batch carrying its id was confirmed in between |
| `StoreRuns.LostUnseenIff` | packages/mcp-connector/src/store.ts:157-213 | in every run a message that no batch handed out so far has contained is settled if and only if a batch carrying its id on other messages only was confirmed |
| `StoreRuns.SharedIdIsLost` | packages/mcp-connector/src/store.ts:207-213 | of two messages stored under one id one is read, and confirming its batch takes the other out of every later read without it having been in any |
| `StoreRuns.ReadIsNeverRepeated` | packages/mcp-connector/src/store.ts:196-213 | a stored message that is read or gone is in no later batch |
| `StoreRuns.ConfirmSettles` | packages/mcp-connector/src/store.ts:207-213 | confirming a retained batch settles every stored message whose id it carried |
| `StoreRuns.BatchIsOldestUnread` | packages/mcp-connector/src/store.ts:196-204 | each batch is a prefix of the unread sequence, which is in arrival order, as long as the limit allows |
| `StoreRuns.ReplayIsExact` | packages/mcp-connector/src/store.ts:196-219 | with distinct cursor ids, the last CURSOR_CAP cursors replay exactly the batch they were handed out with, older ones nothing |
| `StoreRuns.Backpressure` | packages/mcp-connector/src/store.ts:157-182 | if a poll brings at most k >= 1 messages, the ring never exceeds max + k entries although sends slip in between a poll's room check and its add |
| `MessageRing.UnreadAfterAdd` | packages/mcp-connector/src/store.ts:157-177 | an add appends its inbound messages to the unread sequence and evicts nothing from it |
| `MessageRing.AddedSize` | packages/mcp-connector/src/store.ts:171-176 | after an add the ring is within its bound or holds no more than the earlier unread messages plus the added ones |
| `MessageRing.UnreadAfterConfirm` | packages/mcp-connector/src/store.ts:207-213 | a confirmation takes out of the unread sequence exactly the messages whose id its batch carried |
| `Ingesting.MessageStore.Add` | packages/mcp-connector/src/store.ts:157-177 | the push and eviction loops equal the specification |
| `Ingesting.MessageStore.TakeUnread` | packages/mcp-connector/src/store.ts:196-204 | the batch, the new cursor record and the shed cursors equal the specification |
| `Ingesting.MessageStore.Confirm` | packages/mcp-connector/src/store.ts:207-213 | the marking loop equals the specification |
| `Ingesting.MessageStore.Replay` | packages/mcp-connector/src/store.ts:216-219 | returns the copy kept under the cursor, if any |
| `Ingesting.MessageStore.HasRoomNow` | packages/mcp-connector/src/store.ts:179-182 | true exactly while the unread backlog is below the bound |
| `Ingesting.Ingest` | packages/mcp-connector/src/agent.ts:295-358 | dead-letter records and the store's new content are the specified functions of the batch |
| `Ingesting.EveryMessageAccounted` | packages/mcp-connector/src/agent.ts:297-325 | each message of the batch gets the first disposition that applies to it: malformed, an echo, a heartbeat, already seen, or, if none of these, stored in its place when the policy admits it and dead-lettered in its place when not |
| `Ingesting.IngestAppendsKept` | packages/mcp-connector/src/agent.ts:324-358 | an ingest appends exactly the kept messages, unread and in order, to what the client has still to read |
| `Ingesting.IngestAddsOnlyAdmitted` | packages/mcp-connector/src/agent.ts:297-325 | whatever an ingest adds to the ring is an unread message of the batch with its own id and text that is no echo, no heartbeat and not seen before; nothing with a failed signature, and in require mode only verified or relay-attested operator messages |
| `Ingesting.StoredOnceIff` | packages/mcp-connector/src/agent.ts:301-301 | after an ingest into a ring that held an id at most once, it is held at most once if and only if at most one well-formed, unseen, admitted message of the batch carries it and, if one does, no copy from before survives the eviction |
| `Ingesting.RepeatedIdIsStoredTwice` | packages/mcp-connector/src/agent.ts:301-301 | any storable message repeated in one batch is in the ring twice afterwards, however full the ring |
| `StoreMemory.ForgetsUnreadIff` | packages/mcp-connector/src/store.ts:157-213 | over sessions of polls, sends and reads in which ids do not repeat, a poll can meet a message unread in the ring whose id the seen FIFO has forgotten if and only if the ring's bound exceeds SEEN_CAP + 1 |
| `StoreMemory.RedeliveryIsStoredAgainIff` | packages/mcp-connector/src/agent.ts:301-301 | the admitted redelivery of a message unread in the ring changes nothing while its id is remembered and is stored beside it once it is not |
| `StoreMemory.SessionRemembers` | packages/mcp-connector/src/store.ts:157-213 | while ids do not repeat, the seen FIFO and the unread messages are tails of the inbound ids and every retained batch covers the oldest of the unread |
| `MessageRing.CopiesAfterAdd` | packages/mcp-connector/src/store.ts:157-177 | after an add the ring holds the new copies of an id and the old one exactly if the eviction spares it |
| `OAuthTraces.GrantsAreSpentOnce` | packages/mcp-connector/src/oauth.ts:303-378 | in every run each consent yields at most one code, each code at most one pair, each refresh token at most one rotation (section 4.1.2 of RFC 6749, section 4.14.2 of RFC 9700) |
| `OAuthTraces.AcceptedTokensTraceBack` | packages/mcp-connector/src/oauth.ts:303-388 | every accepted access token was issued for this resource to the client it names and leads back through rotations to a code redeemed with the S256 verifier (section 4.6 of RFC 7636) of a consent given with the operator's password |
| `OAuthTraces.StoredTokensAreRegistered` | packages/mcp-connector/src/oauth.ts:141-146 | every stored token's client is registered, and neither registry outgrows its bound |
| `OAuthTraces.RegistrationSparesEstablished` | packages/mcp-connector/src/oauth.ts:178-247 | a registration never drops a client with a live refresh token or any of its unexpired tokens, and is refused when every slot is held by such a client |
| `OAuthTraces.RedeemedCodeIsRefused` | packages/mcp-connector/src/oauth.ts:340-352 | in every run a code that has been redeemed redeems nothing again, whoever presents it and however |
| `OAuthTraces.RotatedTokenStaysRefused` | packages/mcp-connector/src/oauth.ts:353-363 | in every run a refresh token that has been rotated is refused from then on |
| `OAuthTraces.AnsweredConsentIsRefused` | packages/mcp-connector/src/oauth.ts:303-327 | in every run a consent page that has been answered with a code answers no later submission |
| `OAuthTraces.NextInv` | packages/mcp-connector/src/oauth.ts:103-388 | every operation and a restart keep: tokens registered, distinct and rooted; codes and consents unspent; history spent once; both bounds |
| `OAuthObject.OAuthServer.Persist` | packages/mcp-connector/src/oauth.ts:141-146 | expired tokens and then the oldest past the bound are dropped |
| `OAuthObject.OAuthServer.RegisterClient` | packages/mcp-connector/src/oauth.ts:178-222 | state and answer equal the specification, including the evicted client's tokens |
| `OAuthObject.OAuthServer.BeginConsent` | packages/mcp-connector/src/oauth.ts:283-289 | the nonce is bound to the validated request; stale and surplus pages are dropped |
| `OAuthObject.OAuthServer.CompleteConsent` | packages/mcp-connector/src/oauth.ts:303-332 | throttling, expiry, password check and code issue equal the specification |
| `OAuthObject.OAuthServer.TokenRequest` | packages/mcp-connector/src/oauth.ts:336-378 | both grants, their checks in order and their side effects equal the specification |
| `OAuthObject.OAuthServer.VerifyAccessToken` | packages/mcp-connector/src/oauth.ts:381-388 | the lookup, the expiry and the resource check (section 2 of RFC 8707) equal the specification |
| `RateGates.GuessesAreBounded` | packages/mcp-connector/src/oauth.ts:291-315 | in any closed LOGIN_WINDOW_MS one address without a success gets at most 2 * LOGIN_MAX_FAILURES - 1 wrong passwords answered |
| `RateGates.GuessesBoundIsReached` | packages/mcp-connector/src/oauth.ts:291-315 | a session of wrong passwords from no failures gets that many answered |
| `RuntimeRegistry.OneProducerPerAgent` | packages/openclaw-plugin/src/connection.ts:532-738 | over all runs of load, connect, rebind, stop and reactivate, at most one module copy heartbeats or holds an unstopped loop for an agent |
| `RuntimeRegistry.HoldersOnlyRise` | packages/openclaw-plugin/src/runtime-registry.ts:61-76 | in every run, where an agent passes straight from one copy to another it passes to a newer generation, and the older copy is retired with nothing running |
| `RuntimeRegistry.NewerAlwaysTakesOver` | packages/openclaw-plugin/src/runtime-registry.ts:61-76 | a newer generation's claim succeeds and leaves the older holder retired with no timer, loop or claim |
| `RuntimeRegistry.ClaimInv` | packages/openclaw-plugin/src/connection.ts:565-577 | a claim keeps: whoever claimed is the one registered, whoever runs anything has claimed; holders only change upwards |
| `RegistryObject.Registry.ClaimAgentRuntime` | packages/openclaw-plugin/src/runtime-registry.ts:61-76 | the registry object refuses, keeps or replaces the holder, stopping an older one, and moves the process's state as the value model's claim does |
| `RegistryObject.Registry.ReleaseAgentRuntime` | packages/openclaw-plugin/src/runtime-registry.ts:77-80 | the process's state moves as the value model's release does: the entry is dropped if and only if this generation holds it |
| `RegistryObject.Registry.Load` | packages/openclaw-plugin/src/runtime-registry.ts:49-53 | a new copy gets the next generation and runs nothing |
| `RegistryObject.ModuleCopy.Shutdown` | packages/openclaw-plugin/src/connection.ts:691-725 | the process's state moves as the value model's shutdown does |
| `RegistryObject.ModuleCopy.ClaimRuntime` | packages/openclaw-plugin/src/connection.ts:565-577 | the process's state moves as the value model's claim of a copy does, and no timer or connection changes |
| `RegistryObject.ModuleCopy.MaybeStartHeartbeat` | packages/openclaw-plugin/src/connection.ts:580-605 | the process's state moves as the value model's heartbeat start does |
| `RegistryObject.ModuleCopy.MaybeStartAutoReply` | packages/openclaw-plugin/src/connection.ts:611-640 | the process's state moves as the value model's loop start does |
| `EnrolLock.OneAtATimeInOrder` | packages/openclaw-plugin/src/runtime-registry.ts:96-114 | calls under one key run one at a time in arrival order |
| `EnrolLock.EnrolsAtMostOnce` | packages/openclaw-plugin/src/connection.ts:532-557 | however many copies queue, one enrolment is accepted at most, and afterwards every call finds the saved credentials |
| `EnrolLock.SomeoneMayStart` | packages/openclaw-plugin/src/runtime-registry.ts:96-114 | the first waiting call may start as soon as all before it are done |
| `PeerLatch.ProgressCannotDefeatTheCap` | packages/openclaw-plugin/src/autoreply.ts:1160-1340 | while a conversation keeps one positive cap, no operator engages it and it is not evicted, any one-hour window admits at most (PROGRESS_REFRESH_MAX + 1) times the cap of its peer messages |
| `PeerLatch.CountAfter` | packages/openclaw-plugin/src/autoreply.ts:1160-1253 | an event adds one to, clears, or leaves the conversation's count, by whether it is admitted, refreshes, or neither |
| `PeerLatch.StampsAfter` | packages/openclaw-plugin/src/autoreply.ts:1324-1340 | a refresh adds one stamp to a window holding fewer than the allowance; nothing else changes the window's count |
| `PeerLatch.PeerLatchState.ConsumePeerLatch` | packages/openclaw-plugin/src/autoreply.ts:1166-1175 | the count and the FIFO eviction equal the specification |
| `PeerLatch.PeerLatchState.NoteProgressRefresh` | packages/openclaw-plugin/src/autoreply.ts:1324-1340 | pruning, refusal, stamping and eviction equal the specification |
| `PeerLatch.PeerLatchState.Process` | packages/openclaw-plugin/src/autoreply.ts:1187-1320 | latch and signals processed in order equal the specification, and the admitted messages are counted |
| `FixedWindow.AtMostTwice` | packages/openclaw-plugin/src/autoreply.ts:1475-1484 | wherever windows fall, a fixed-window counter counts in a closed interval of one window's length at most twice its limit, and one less if a window still counts at exactly its full length |
| `FixedWindow.BoundIsReached` | packages/openclaw-plugin/src/autoreply.ts:1475-1484 | for every limit and length, a run from nothing counted meets that bound |
| `FixedWindow.RollingLimitIff` | packages/relay/src/login-throttle.ts:105-150 | the documented rolling limit can be broken in the interval starting at a moment if and only if the window stored then is exposed: open since before that moment with room left, or, for a counter whose window ends at its full length, anything but full |
| `RateGates.PeerGateBound` | packages/openclaw-plugin/src/autoreply.ts:1464-1492 | over whole runs the gate keeps at most 2 * PEER_RATE_MAX - 1 messages of one peer per window length |
| `RateGates.PeerGateBoundIsReached` | packages/openclaw-plugin/src/autoreply.ts:1464-1492 | a run of the gate from empty keeps that many |
| `RateGates.PeerRateGate.Apply` | packages/openclaw-plugin/src/autoreply.ts:1464-1492 | what the gate keeps and the windows it leaves equal the specification |
| `LoginThrottling.FailuresAreBounded` | packages/relay/src/login-throttle.ts:105-150 | a tracked key is let fail at most twice its limit in any closed interval of one window's length when every attempt is checked first and recorded no earlier than checked |
| `LoginThrottling.FailuresBoundIsReached` | packages/relay/src/login-throttle.ts:105-150 | a run of wrong passwords for one account from one address is let through twice the limit times within one window's length, by both counters |
| `LoginThrottling.NeverOutgrows` | packages/relay/src/login-throttle.ts:123-150 | no login makes the map larger than maxBuckets |
| `LoginThrottling.LoginThrottle.Check` | packages/relay/src/login-throttle.ts:105-120 | the decision and the forgotten lapsed buckets equal the specification |
| `LoginThrottling.LoginThrottle.RecordFailure` | packages/relay/src/login-throttle.ts:123-150 | both counters are recorded, or left out when the map is full even after a sweep |
| `LoginThrottling.LoginThrottle.RecordSuccess` | packages/relay/src/login-throttle.ts:155-157 | only the account's counter is cleared |
| `LoginThrottling.LoginThrottle.Sweep` | packages/relay/src/login-throttle.ts:160-165 | exactly the lapsed buckets are dropped |
| `TokenBuckets.AdmissionsAreBounded` | packages/mcp-connector/src/auth.ts:61-93 | an unevicted key is admitted at most perMinute + T * perMinute / 60000 requests in T milliseconds |
| `TokenBuckets.RetryAfterSuffices` | packages/mcp-connector/src/auth.ts:85-91 | the advertised retry-after is enough if and only if perMinute is at least one; the configuration enforces that |
| `TokenBuckets.NothingBelowOne` | packages/mcp-connector/src/auth.ts:85-91 | below one token per minute nothing is ever admitted |
| `TokenBuckets.TakeOutcome` | packages/mcp-connector/src/auth.ts:70-84 | after a take its key has the spent bucket, other keys present are unchanged and at most maxKeys are held |
| `TokenBuckets.TokenBucket.Take` | packages/mcp-connector/src/auth.ts:70-91 | decision and buckets equal the specification |
| `LoopStop.UndecidedStashStays` | packages/openclaw-plugin/src/autoreply.ts:2291-2301 | until a covering turn's spawn is decided no step, a stop included, takes a stash it covers |
| `LoopStop.OnlyStartedTurnClears` | packages/openclaw-plugin/src/autoreply.ts:2692-2712 | a covering turn clears its stashes if it started; otherwise they stay, unless the loop was stopped, and then they are flushed |
| `LoopStop.NextOrderly` | packages/openclaw-plugin/src/autoreply.ts:2193-2783 | each step keeps turns apart, only adds to the books, and once stopped has only harmless effects |
| `LoopShape.NextShape` | packages/openclaw-plugin/src/autoreply.ts:2193-2783 | each step keeps the structural invariant |
| `LoopShape.GroupsFilled` | packages/openclaw-plugin/src/autoreply.ts:1904-1909 | no planned group is empty |
| `LoopLabels.NextHonest` | packages/openclaw-plugin/src/autoreply.ts:2305-2741 | each step keeps every stored, in-tick and rendered pass backed by a computed verdict |
| `LateDelivery.ServiceStartsAtMostOne` | packages/hermes-plugin/ekho_hermes/autoreply.py:2262-2268 | servicing starts at most one deferred turn in total across the overrun and retry paths |
| `LateDelivery.TickAdvances` | packages/hermes-plugin/ekho_hermes/autoreply.py:2355-2476 | a completed tick either delivers or records the overdue message or leaves strictly fewer stashes ahead of it |
| `Covering.CoveredIsDistinct` | packages/openclaw-plugin/src/autoreply.ts:1058-1063 | no conversation is covered twice by one turn |
| `ReplyState.CollectLive` | packages/openclaw-plugin/src/autoreply.ts:954-962 | the listing loop collects exactly the stashes within the TTL, in insertion order |
| `ReplyState.CollectExpired` | packages/openclaw-plugin/src/autoreply.ts:976-982 | the listing loop collects exactly the stashes past the TTL, in insertion order |
| `ReplyState.CollectCovered` | packages/openclaw-plugin/src/autoreply.ts:1058-1063 | the loop over the turn's conversations keeps those with a non-empty stash, in order of first appearance |
| `ReplyState.MergeEntries` | packages/openclaw-plugin/src/autoreply.ts:900-926 | the two merge loops compute the ordered, deduplicated entries |
| `ReplyState.AutoReplyState.RemoveAll` | packages/openclaw-plugin/src/autoreply.ts:985-992 | the removal loop returns the listed stashes and deletes exactly them |
| `InboxRing.NextSound` | packages/openclaw-plugin/src/autoreply.ts:343-662 | each event keeps the ring sound and its rejections growing |
| `IdentityObject.Identity.SeedKey` | packages/hermes-plugin/ekho_hermes/connection.py:230-251 | one configured key is pinned, or unpinned and skipped when it is tombstoned |
| `Ingesting.MessageStore.EvictExcess` | packages/mcp-connector/src/store.ts:171-176 | the filter drops oldest first, at most the excess, nothing unread and nothing just added |
| `Ingesting.MessageStore.UnreadMessages` | packages/mcp-connector/src/store.ts:186-190 | collects the inbound messages not yet read, in order |
| `OAuthObject.OAuthServer.HasLiveRefreshToken` | packages/mcp-connector/src/oauth.ts:235-238 | true exactly if some unexpired refresh token of the client is stored |
| `OAuthObject.OAuthServer.FindEvictee` | packages/mcp-connector/src/oauth.ts:203-207 | the first client without a live refresh token, if any |
| `OAuthObject.OAuthServer.RemoveClientAt` | packages/mcp-connector/src/oauth.ts:242-247 | drops the client and exactly its tokens |
| `OAuthObject.OAuthServer.LoginThrottled` | packages/mcp-connector/src/oauth.ts:291-299 | the throttle decision, forgetting a lapsed window |
| `OAuthObject.OAuthServer.TokenForCode` | packages/mcp-connector/src/oauth.ts:340-352 | the code is spent first, then every check of the grant in order |
| `OAuthObject.OAuthServer.TokenForRefresh` | packages/mcp-connector/src/oauth.ts:353-363 | the checks in order, then the rotation |
| `OAuthObject.OAuthServer.IssueTokens` | packages/mcp-connector/src/oauth.ts:367-378 | stores one access and one refresh token for the same client, resource and scope |
| `RuntimeRegistry.ShutdownInv` | packages/openclaw-plugin/src/connection.ts:691-725 | a shutdown leaves exactly the agents other copies hold |
| `RegistryObject.Registry.NextRuntimeGeneration` | packages/openclaw-plugin/src/runtime-registry.ts:49-53 | each call hands out the next number |
| `EnrolLock.NextInv` | packages/openclaw-plugin/src/runtime-registry.ts:96-114 | each arrival, start and finish keeps the chain in arrival order and the enrolment count at most one |
| `PeerLatch.PeerLatchState.RecentStamps` | packages/openclaw-plugin/src/autoreply.ts:1325-1327 | keeps exactly the stamps of the rolling window, in order |
| `PeerLatch.PeerLatchState.ResetPeerLatch` | packages/openclaw-plugin/src/autoreply.ts:1245-1250 | forgets the conversation's count |
| `LoginThrottling.LoginThrottle.RecordOne` | packages/relay/src/login-throttle.ts:125-148 | counts in the open bucket, opens a new one, or gives up when the map is full even after a sweep |

## Left out

- Prompt text, banners, history rendering, log lines and the advisory-warning throttle: string formatting. The model says which verdict and which late mark reach each message.
- Canonical JSON, signatures and `verifyInbound`: arbitrary predicates and an injective digest stand for them.
- Child processes, timers, HTTP and the MCP transport: their outcomes are inputs.
- File persistence: a snapshot is atomic and the dead-letter sink never fails. With no sink configured, or a sink that throws, a dead-lettered message leaves no record.
- ReplyLoop: a tick whose logger throws ends at once; floor releases its cleanup still awaits, and floors it never hands back, are not followed. The rejection of the tick's promise, which a host may turn into an exit, is not modelled; neither is a throw in an event handler of the spawned child, outside the tick.
- ReplyLoop.Act: which messages the qualifying filter, rate gate and latch keep is an input of a poll, so the loop's theorems hold for every such choice; the loop's flags are fields of a value, since a step machine interleaved with `stop()` has no single method to carry them.
- LoopLabels.PassingLabelsAreEarned: takes the trust generation to change only at a poll's pin sync, the one place where a running loop's identity is changed.
- Messages.BatchVerdictsByHeldKey: `verdictFor`'s fallback to an id-keyed map, for callers that still pass one, is not modelled; the loop passes maps keyed by held key.
- The qualifying filter (`should_autowake` and its TypeScript twin): a pure chain of checks on one message.
- Seen-message and nonce FIFOs of the reply loop, and replay of nonces within one batch: they decide only what is kept, which is an input.
- Order of `Object.entries` over integer-like conversation ids when deferred groups are stashed: groups are stashed in planning order.
- LoopTicks.OnlyDenialHoldsBack: like the other theorems over one tick, takes the loop not to be stopped meanwhile and its logger not to throw; LoopStop and LoopThrows say what a stop or a throw does.
- LoopVerdicts.LateTurnShowsThePoll: if the poll said nothing of a message, the entry may keep the verdict stored earlier for the identical message, unless that stash was evicted in between; both are allowed.
- LatchAnswers.WakesIffBelowTheCap: takes a nondecreasing clock, and no other conversation to push this one out of the bounded maps.
- LoopLate.BoundedLateDelivery: counts the times the loop services the stash; a relay that never answers a poll, or a loop whose ticks keep failing, services nothing. Runs whose logger throws are left to LoopThrows.
- TwinLabels.LatePassesAreJudged: the twin stamps no trust generation on a stashed verdict, so its late turns may show a pass computed under earlier pins; the labels of its covering turns are not modelled.
- LateDelivery.BoundedLateDelivery: which of several equally old stashes the sort lists first is an input; attachment downloads before a delivery are not modelled; the floors a retry asks for are an input.
- InboxRing: roster, controls, history and budgets beside the entries; `recordVerifications` called without the batch; a registry object of a foreign shape.
- TrustRuns: admission times, entries whose key id is not a string, and what the log says of advisory claims.
- StoreRuns.ReplayIsExact: takes cursor ids to be distinct, as the source draws them at random.
- Ingesting: labels, attachments and other display fields of a stored message.
- OAuthModel: parsing of redirect URIs and client metadata is one input bit; metadata documents and the consent page's markup. Random strings never repeat; SHA-256 has no collisions.
- RateGates.GuessesAreBounded: within one process lifetime, since failures are not persisted.
- RuntimeRegistry: the drain of a stopped loop's last tick (LoopStop says what it may still do), and the log of a missing heartbeat.
- RegistryObject: connecting, rebinding and reactivating a copy set one field each and have no method here; the runs are proved of the value model.
- EnrolLock: a copy whose enrolment was accepted but whose credentials could not be saved, and the one re-check after a refused token.
- PeerLatch.ProgressCannotDefeatTheCap: a conversation evicted from the bounded maps starts over with a fresh count, as in the source.
- LoginThrottling.FailuresAreBounded: one recording, with the sweep inside it, reads the clock once. A key whose bucket could not be made because the map was full is not bounded; address resolution behind proxies is not modelled.
- TokenBuckets: exact arithmetic stands for floating point; an evicted key starts full again.
- Turn-health and model metrics, fleet health, license, feeds, webhooks, shadow and health checks, relay database and floors: single-branch logic, plumbing, or code whose other half is elsewhere.
