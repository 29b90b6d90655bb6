# Verified models of Panweave

Panweave is a Zigbee stack made of allocators, tables, codecs and state machines that
are fed events and do no input or output themselves. This project models the parts of
it that are hardest to get right and proves what they promise, for every input, every
run and every reachable state.

What is modelled, in the order of the files:

- `AddressRanges`, `Touchlink`, `TouchlinkProtocol`, `TouchlinkTakeover`,
  `TouchlinkMachines`: the touchlink address and group allocator (section 12 of BDB 3.1,
  section 13.3.4.8 of ZCL8), and one initiator with any number of targets over links that
  may lose every frame: what success means, who may be taken over, and that a permitted
  exchange comes about.
- `GreenPower`, `ProxyTable`, `Proxy`, `ProxyDelivery`, `ProxyFanout`, `ProxyFreshness`,
  `ProxyWindows`, `ProxyMachine`: the Green Power Basic Proxy (sections A.3.5.2.3,
  A.3.7.3.1.3 and A.3.4.2.2 of GP Basic 1.1.2): pairings, security processing, what goes
  to whom, freshness, repeated frames and commissioning mode.
- `Fields`, `TableCodec`, `TablePaging`: the over-the-air form of Proxy and Sink Table
  entries and reading tables page by page.
- `DuplicateRejection`: the APS duplicate filter (section 2.2.8.4.2 of R23.2).
- `ApsSecurity`, `ApsExchange`: APS link-key security and its cipher cache (section 4.4.1
  of R23.2), and what a secured frame is good for at the other end.
- `Bdb`, `BdbProgress`, `BdbAttempts`, `BdbBinding`, `BdbCoverage`, `BdbTargets`,
  `BdbMachine`: the BDB commissioning machine (sections 8 to 11 of BDB 3.1): progress,
  the attempts of every formation, steering and rejoin, and finding & binding from both
  ends.
- `Tlv`, `CommissioningPayloads`: the TLV grammar (Annex I of R23.2) and the Zigbee
  Direct payloads built on it (section 7.7.2 of ZD 1.1).
- `Description`, `DescriptionStore`: the three-level report descriptors and their store
  (section A.4.2.1.6 of GP Basic 1.1.2).
- `SecureChannel`, `ProvisioningState`: the Zigbee Direct secure channel and security
  state (sections 6.4 and 6.2 of ZD 1.1).
- `SetupCode`: base-32 setup codes (section 6.12 of BDB 3.1).
- `Types`, `Collections`, `Assoc`, `LittleEndian`, `Cursor`: shared vocabulary.

How it is modelled:

- Where the code changes objects in place, a class does the same with loops and fields,
  and every method is proved equal to a function (or, where the code leaves a choice
  open, a relation) on values. The theorems over whole runs are about those functions.
- Cryptography is symbolic: a sealed value names the key, nonce, associated data and
  plaintext it was made from, and opening succeeds exactly on what was sealed with the
  same ones.
- Time is a 64-bit millisecond clock whose additions saturate. Fixed-capacity vectors are
  sequences with an explicit bound. Octets, 16-, 32- and 64-bit values are bounded types,
  and every wrap-around, saturation and truncation of the code is written out.
- The environment is arbitrary: the node under the commissioning machine answers every
  call depending on everything that happened before, radios lose frames, the
  touchlink node may fail to encrypt, to send or to adopt a network, random values
  are any acceptable ones, except that touchlink transaction identifiers do not repeat.

Where the code differs from what one might expect, the model follows the code: the
touchlink timeout always reports a target failure, the start path always reports short
address 0x0002, a range that begins at 0xffff never runs out
(`TakingConserves`, `TakingGroupsConserves`, `LastOneStays`), and a page that holds more than 255 table entries announces 255 of
them (`OverfullPage`; `ReadOutExactly` says exactly when pages read back right).

## Model

| member | source | states |
|---|---|---|
| AddressRanges.NothingTwiceNothingLost | panweave-bdb/src/touchlink.rs:91-173 | from one factory-new range, after any interleaving of taking addresses, taking group blocks and splitting by any number of holders, the addresses (groups) handed out plus all remaining intervals partition 0x0001..0xfff7 (0x0001..0xfeff): nothing is handed out twice, held twice or lost |
| AddressRanges.RunConserves | panweave-bdb/src/touchlink.rs:127-173 | every run keeps, for every value, the number of times it is handed out plus the number of holders that have it free |
| AddressRanges.TakingConserves | panweave-bdb/src/touchlink.rs:127-134 | taking an address removes exactly that address from the interval if and only if the interval does not begin at 0xffff, where the saturating increment keeps it |
| AddressRanges.TakingGroupsConserves | panweave-bdb/src/touchlink.rs:137-148 | taking a block of groups removes exactly that block if and only if it does not end at 0xffff, where the saturating increment keeps the last group |
| AddressRanges.LastOneStays | panweave-bdb/src/touchlink.rs:127-148 | a range that begins and ends at 0xffff hands out the same address and the same group on every call |
| AddressRanges.Holder.TakeAddress | panweave-bdb/src/touchlink.rs:127-134 | the object takes the lowest free address in place, or nothing when there is none, and it is gone afterwards if and only if it is not 0xffff |
| AddressRanges.Holder.TakeGroupBlock | panweave-bdb/src/touchlink.rs:137-148 | the object takes a block of the lowest free groups in place, or nothing when they do not suffice, and they are gone afterwards if and only if 0xffff is not among them |
| AddressRanges.Holder.SplitUpper | panweave-bdb/src/touchlink.rs:152-173 | splitting divides both intervals without loss or overlap and gives the new holder at least the minimum of each, or changes nothing |
| Touchlink.AssignIsRun | panweave-bdb/src/touchlink.rs:893-915 | an assignment to a target is a run of the allocator and names exactly what that run hands out, so all assignments of all initiators partition the ranges |
| Touchlink.StartAddressesDiffer | panweave-bdb/src/touchlink.rs:759-791 | every network start request names free addresses for initiator and target, never the fallback, and they differ if and only if the initiator's range does not begin at 0xffff |
| Touchlink.OpenIsRightExactly | panweave-security/src/touchlink.rs:44-118 | a transported network key is recovered exactly by whoever uses the key index, transaction and response identifiers it was sealed with |
| TouchlinkProtocol.RunInv | panweave-bdb/src/touchlink.rs:446-639 | what every step of the protocol keeps: while an exchange is open, its request is the last frame under way or the target already holds what the initiator is about to believe |
| TouchlinkProtocol.SuccessMeansAgreement | panweave-bdb/src/touchlink.rs:545-639 | over every run with lost frames and arbitrary timing, success after a start or join exchange means both ends have the same extended PAN identifier, PAN identifier, channel and update identifier, the target has the assigned address, which after a start is the initiator's own if and only if that is 0xffff, and the network keys are equal if and only if the target still has the response identifier of the kept scan response |
| TouchlinkProtocol.SuccessSharesTheKey | panweave-bdb/src/touchlink.rs:1086-1099 | when the transaction the chosen target answered did not expire before it heard the same procedure scan again, success with it means the same network and the same key at both ends |
| TouchlinkMachines.InitiatorMachine.Start | panweave-bdb/src/touchlink.rs:383-410 | the object starts a procedure as the value model says |
| TouchlinkMachines.InitiatorMachine.PollTimers | panweave-bdb/src/touchlink.rs:446-543 | the object's timers, scans and outcomes are those of the value model, including the timeout that always reports a target failure and a network the node fails to adopt; the node's membership changes only on success |
| TouchlinkMachines.InitiatorMachine.OnInterPan | panweave-bdb/src/touchlink.rs:547-639 | the object's reaction to responses is that of the value model, including short address 0x0002 on the start path |
| TouchlinkMachines.InitiatorMachine.SelectTarget | panweave-bdb/src/touchlink.rs:696-890 | the object's choice between reconciling, refusing, resetting, starting and joining, and the request it sends, are those of the value model; it ends with an outcome and idle, or waits after exactly one request to the chosen target |
| TouchlinkMachines.InitiatorMachine.ReconcileWith | panweave-bdb/src/touchlink.rs:707-725 | on the same network the newer update identifier wins, or the target is told |
| TouchlinkMachines.InitiatorMachine.CommissionTarget | panweave-bdb/src/touchlink.rs:759-890 | the start and join requests carry the assignment and the key sealed for the chosen response, or the node's failure ends the procedure |
| TouchlinkMachines.InitiatorMachine.AssignTo | panweave-bdb/src/touchlink.rs:894-915 | the object assigns from its own ranges in place as the allocator does |
| TouchlinkMachines.TargetMachine.OnInterPan | panweave-bdb/src/touchlink.rs:1069-1390 | the object answers scans, start, join, update and reset requests as the value model says, of which TouchlinkTakeover says what is granted and what changes |
| TouchlinkMachines.TargetMachine.Expire | panweave-bdb/src/touchlink.rs:1041-1045 | a transaction ends when its time is reached |
| TouchlinkTakeover.GrantedExactly | panweave-bdb/src/touchlink.rs:1233-1403 | a start or join request is answered if and only if it is in the open transaction of its sender and for the role of the device, and granted if and only if moreover the policy accepts touchlink, the device is on no centralized network or stealing is allowed, and the key index is known |
| TouchlinkTakeover.StartedAs | panweave-bdb/src/touchlink.rs:1258-1324 | a granted start makes the device a member of the reported network under the assigned address and the transported key, keeping every parameter the request names and choosing valid ones for the rest |
| TouchlinkTakeover.JoinedTo | panweave-bdb/src/touchlink.rs:1325-1392 | a granted join makes the device a member of the initiator's network under the assigned address and the transported key; without a 2.4 GHz channel it changes nothing |
| TouchlinkTakeover.ChangesExactly | panweave-bdb/src/touchlink.rs:1069-1392 | the device changes only by a granted start or join, by an update of its own network with a newer identifier, or by a reset, each in its transaction, and such updates and resets take effect |
| TouchlinkTakeover.ScanOpens | panweave-bdb/src/touchlink.rs:1081-1166 | a scan is answered with what the device is and opens a transaction of eight seconds for its sender, with a new response identifier exactly when the transaction is new |
| TouchlinkTakeover.AskedExactly | panweave-bdb/src/touchlink.rs:696-890 | the chosen candidate is sent a reset, start or join request exactly when the initiator may commission, has addresses, and is to reset, is on no network with a router, or is on one |
| TouchlinkTakeover.Reconciles | panweave-bdb/src/touchlink.rs:696-727 | with a candidate on its own network the initiator succeeds at once, tells it when it is ahead, and takes over update identifier and channel when it is behind |
| TouchlinkTakeover.AnswerIsFound | panweave-bdb/src/touchlink.rs:557-578 | an answered scan is a candidate as the target described itself, on the channel of the scan, once for each device and up to four |
| TouchlinkTakeover.AnswerIsAwaited | panweave-bdb/src/touchlink.rs:584-639 | a start or join response counts if and only if it comes from the chosen target, in the transaction and while it is waited for; then success starts the start-up delay and failure ends the procedure |
| TouchlinkTakeover.OfferSucceeds | panweave-bdb/src/touchlink.rs:547-639 | whatever the initiator asks of a target that may be taken over in its transaction comes about: with the answer and the start-up delay the initiator succeeds and both ends hold the same network and key |
| TouchlinkTakeover.DiscoveryPlan | panweave-bdb/src/touchlink.rs:383-410 | discovery starts with the plan of channel 11 five times, then 15, 20 and 25 and, when extended, the other twelve channels in order |
| TouchlinkTakeover.DiscoveryFollowsPlan | panweave-bdb/src/touchlink.rs:446-510 | a due poll asks on the next channel of what is left of the plan, 250 ms after the last, or moves there; when nothing is left, discovery ends with the candidates or fails without any |
| TouchlinkTakeover.TakenOverOnlyIfAllowed | panweave-bdb/src/touchlink.rs:1395-1403 | in every step of the exchange a peer's membership changes only by a request it was sent, and by a start or join only where it may be taken over |
| TouchlinkTakeover.RefusingPeerIsNeverTakenOver | panweave-bdb/src/touchlink.rs:1395-1403 | over whole runs a peer whose policy accepts no touchlink is never taken over: if it is on a network at the end, it is the one it was on at the start, at most with a newer update identifier and channel |
| ProxyTable.PairRefines | panweave-green-power/src/proxy.rs:343-502 | each GP Pairing does to the table exactly what it does to the abstract, capacity-bounded table of links, and keeps identities distinct and every list within capacity |
| ProxyTable.HeardRefines | panweave-green-power/src/proxy.rs:761-775 | storing a counter does to the table exactly what it does to the abstract one |
| ProxyTable.TableIsReplay | panweave-green-power/src/proxy.rs:343-502 | after any history of pairings and stored counters the table stands for the abstract replay of that history |
| ProxyTable.ReplayKeeps | panweave-green-power/src/proxy.rs:343-502 | any history of well-formed pairings leaves at most the capacity of entries, none without a sink, and equal security options on all endpoints of one IEEE device |
| ProxyDelivery.FindRegistered | panweave-green-power/src/proxy_table.rs:338-343 | the entry that answers for a frame is the exact identity when there is one, else a matching one, and there is none exactly when nothing matches |
| ProxyDelivery.OperatesExactly | panweave-green-power/src/proxy.rs:576-693 | in operational mode a frame reaches fan-out exactly when it is valid, not seen before, paired, of the entry's level, fresh and authentic where the entry is protected, and its command may be tunnelled |
| ProxyDelivery.ReceiversOnce | panweave-green-power/src/proxy.rs:876-960 | the sending order names every paired sink and group once and nobody else |
| ProxyDelivery.ReceiveKeepsQueue | panweave-green-power/src/proxy.rs:576-693 | whatever frame is received, what already waits to be sent stays in front and in order |
| ProxyDelivery.AcceptedReachesEveryReceiver | panweave-green-power/src/proxy.rs:876-960 | with the outgoing queue empty, a deliverable frame enqueues one GP Notification of its plaintext for each paired sink, derived group and commissioned group, in that order, and any other frame none; ProxyFanout.DeliverableFansOut says where each goes |
| ProxyFanout.DeliverableFansOut | panweave-green-power/src/proxy.rs:876-960 | the notifications of a deliverable frame go, each once, to every short address of a paired sink without alias, to the device's derived group under the entry's alias and MAC sequence number if it is paired, and to every paired group under its own or the derived alias with the sequence number minus 9 modulo 256, at the radius and no earlier than the delay asked for |
| ProxyFanout.BusyQueue | panweave-green-power/src/proxy.rs:306-312 | with frames waiting already, as many of the same frames are added in order as the queue has room for |
| ProxyFanout.CommissioningIsTunnelled | panweave-green-power/src/proxy.rs:576-693 | in commissioning mode exactly the commissioning frames meant for it are passed on, to who opened it or by broadcast under the device's alias, as opened or, where security failed, as received with its MIC |
| ProxyFanout.MaintenanceIsTunnelled | panweave-green-power/src/proxy.rs:695-741 | a Maintenance frame is passed on in commissioning mode only, once for each MAC sequence number |
| ProxyDelivery.KeyIsRecovered | panweave-green-power/src/proxy.rs:828-873 | the key recovered for an entry is the one its device seals with: the stored one, or the shared, network or derived one that its key type calls for |
| ProxyFreshness.ReachableTable | panweave-green-power/src/proxy.rs:295-502 | whatever a proxy receives, its table is the replay of exactly the pairings received, except those the code drops, and the counters of the frames that were passed on, in the order received |
| ProxyFreshness.NotificationIsFresh | panweave-green-power/src/proxy.rs:761-825 | a GP Notification of a device with a single protected entry carries a payload sealed under that entry's level and key with a counter above the stored one, which it becomes |
| ProxyFreshness.EveryNotificationIsFresh | panweave-green-power/src/proxy.rs:576-693 | over every run in which such a device is not paired again, in operational and commissioning mode, every GP Notification of it is authenticated and above the counter stored at the start |
| ProxyFreshness.NotificationsAreFresh | panweave-green-power/src/proxy.rs:576-693 | and of any two of its GP Notifications the later one has the greater counter |
| ProxyFreshness.DeliverableIsNotified | panweave-green-power/src/proxy.rs:576-693 | and every fresh, genuine frame of such a device is notified in operational mode when the queue is empty |
| ProxyWindows.RepeatedExactly | panweave-green-power/src/proxy.rs:743-758 | in every run with a clock that never goes back a frame counts as seen if and only if it repeats the device and counter of one of the last eight frames heeded and no tick since has reached two seconds after that one |
| ProxyWindows.RepeatIsIgnored | panweave-green-power/src/proxy.rs:576-741 | a repeated data or Maintenance frame changes nothing |
| ProxyWindows.ModeExactly | panweave-green-power/src/proxy.rs:295-360 | in every run the proxy is in a commissioning mode if and only if a command opened that mode, with its window, answer address and end, and no mode command, tick at its end, or pairing where the first one ends it came since |
| ProxyMachine.BasicProxy.ReceivePairing | panweave-green-power/src/proxy.rs:343-502 | the object updates its table in place, refuses exactly unsupported modes and full tables without changing it, and keeps it standing for the abstract table of links |
| ProxyMachine.BasicProxy.DropSinkOf | panweave-green-power/src/proxy.rs:373-408 | removing a sink removes the entry that has none left |
| ProxyMachine.BasicProxy.UpdateEntry | panweave-green-power/src/proxy.rs:437-490 | adding a sink updates the entry's lists, alias, radius, security and counter |
| ProxyMachine.BasicProxy.ShareSecurity | panweave-green-power/src/proxy.rs:491-500 | all other entries of the device take over security options and counter |
| ProxyMachine.BasicProxy.ReceiveGpdf | panweave-green-power/src/proxy.rs:576-693 | the object treats a received frame as the value model says and loses nothing that waits to be sent |
| ProxyMachine.BasicProxy.ReceiveMaintenance | panweave-green-power/src/proxy.rs:695-741 | maintenance frames are forwarded in commissioning mode only |
| ProxyMachine.BasicProxy.Classify | panweave-green-power/src/proxy.rs:610-693 | the object decides between ignoring, noting, rejecting, commissioning and operating as the value model says |
| ProxyMachine.BasicProxy.Open | panweave-green-power/src/proxy.rs:779-825 | security processing: level, key type and freshness against the entry, then key recovery and authentication |
| ProxyMachine.BasicProxy.SendToAll | panweave-green-power/src/proxy.rs:914-960 | the loops push one frame per receiver in order until the queue is full, to the destinations of ProxyFanout.DeliverableFansOut |
| ProxyMachine.BasicProxy.StoreFrameCounter | panweave-green-power/src/proxy.rs:761-775 | the counter is stored in every matching entry of the device |
| ProxyMachine.BasicProxy.RememberFrame | panweave-green-power/src/proxy.rs:749-759 | the duplicate filter drops its oldest record when full |
| ProxyMachine.BasicProxy.PollTimers | panweave-green-power/src/proxy.rs:295-304 | exactly the expired duplicates and an expired commissioning window go |
| ProxyMachine.BasicProxy.FindEntry | panweave-green-power/src/proxy_table.rs:338-343 | the search loops find the entry of that identity, else the first that matches, and nothing exactly when none does |
| GreenPower.DerivedAlias | panweave-green-power/src/proxy_table.rs:278-294 | the derived alias is never a reserved network address |
| GreenPower.DerivedAliasIs | panweave-green-power/src/proxy_table.rs:278-294 | the derived alias is the low half of the identifier where that is usable, else the exclusive-or of its halves where that is, else 7 or the low half less 8 |
| TableCodec.EncodedExactly | panweave-green-power/src/proxy_table.rs:253-274 | every Proxy and Sink Table entry writes exactly the octets its encoded length announces |
| TableCodec.EntryRoundTrip | panweave-green-power/src/proxy_table.rs:147-250 | reading a written Proxy or Sink Table entry in front of any octets gives it back up to the fields the format does not carry and leaves those octets |
| TablePaging.TableRoundTrip | panweave-green-power/src/sink_table.rs:335-345 | a whole table is restored from its octets |
| TablePaging.ReadOutExactly | panweave-green-power/src/proxy_table.rs:406-416 | reading page by page terminates and gives the same entries in the same order if and only if no page on the way holds more than 255 entries |
| TablePaging.SmallTablesReadOut | panweave-green-power/src/sink_table.rs:322-332 | that is the case for tables of at most 255 entries and for pages below 1792 octets |
| TablePaging.OverfullPage | panweave-green-power/src/proxy_table.rs:406-416 | a page of the smallest entries of 256 different devices announces 255 of them and the reader gets one twice |
| TablePaging.EncodeFrom | panweave-green-power/src/proxy_table.rs:406-416 | the loop fills the buffer with the entries that fit completely and announces their number as an octet |
| TablePaging.WriteEntry | panweave-green-power/src/proxy_table.rs:147-183 | an entry is written field by field exactly when its encoded length fits |
| TablePaging.RestoreTable | panweave-green-power/src/proxy_table.rs:419-429 | the loop restores the entries, or fails on a bad entry or too many |
| DuplicateRejection.DuplicateRejectionTable.CheckAndRecord | panweave-aps/src/tables.rs:370-404 | one call drops what expired, answers whether the pair is live, and refreshes it, adds it or replaces an entry closest to expiry |
| DuplicateRejection.DuplicateWasRecorded | panweave-aps/src/tables.rs:370-404 | over every run a pair is reported duplicate only within the lifetime of its last recording |
| DuplicateRejection.DuplicateUnlessCrowded | panweave-aps/src/tables.rs:370-404 | a pair last recorded at some time is reported duplicate at every later time within the lifetime unless at least the capacity of distinct other pairs were recorded at or after that time |
| DuplicateRejection.ForgottenOnlyWhenCrowded | panweave-aps/src/tables.rs:370-404 | the same in terms of expiry, also where the clock saturates |
| DuplicateRejection.CrowdedOutIsForgotten | panweave-aps/src/tables.rs:370-404 | that many pairs that expire later always crowd a pair out |
| DuplicateRejection.DuplicateExactly | panweave-aps/src/tables.rs:370-404 | for a pair last recorded at an instant no other pair shares, a call answers duplicate if and only if its pair was recorded less than a lifetime ago and fewer than the capacity of distinct pairs since |
| DuplicateRejection.DuplicateRejectionTable.SwapRemove | panweave-aps/src/tables.rs:392-401 | removing by moving the last entry into the gap removes just that pair |
| BdbProgress.RunInv | panweave-bdb/src/lib.rs:823-1079 | in every reachable state a deadline is armed exactly while awaiting the link key, awaiting the leave, or in a finding & binding phase |
| BdbProgress.IdleExactlyOnOutcome | panweave-bdb/src/lib.rs:823-882 | a running procedure becomes idle exactly in the call that returns its own outcome, otherwise goes on as the same procedure; an idle machine returns nothing but the end of a target's identify |
| BdbProgress.ProcedureEnds | panweave-bdb/src/lib.rs:823-1079 | whatever the node answers, every procedure changes at most as often as its decreasing rank says |
| BdbProgress.TimeoutGetsOn | panweave-bdb/src/lib.rs:1026-1079 | a poll at or after an armed deadline always moves the procedure on |
| BdbProgress.StartStep | panweave-bdb/src/lib.rs:447-682 | a start call is refused and changes no procedure, or its procedure then runs |
| BdbProgress.SteeringRun | panweave-bdb/src/lib.rs:513-561 | one steering run makes at most 2·clamp(retries, 1, 10) joins however confirms, leaves and timeouts interleave, and the node counts as on a network only once the run has succeeded |
| BdbProgress.RetryJoins | panweave-bdb/src/lib.rs:923-962 | a retry uses up one of the joins left, or moves on to the next list |
| BdbAttempts.FormationRun | panweave-bdb/src/lib.rs:447-480 | over every formation run the attempts are the non-empty channel lists in order, each made at once or right after the one before failed; it succeeds right after a confirmation and is exhausted only when every list was tried and failed |
| BdbAttempts.FormationStarts | panweave-bdb/src/lib.rs:447-480 | a formation starts exactly when idle, off the network, on a device that may form one and with a list to try, and makes the first attempt |
| BdbAttempts.RejoinRun | panweave-bdb/src/lib.rs:571-618 | over every rejoin run the attempts are, in order and each at most once, a secured rejoin and a Trust Center rejoin on the current channel and secured rejoins on the primary and secondary list, each the next that is due: the first is left out exactly when the Trust Center is lost and the key verified, the second takes a verified key and an empty primary list is passed over |
| BdbAttempts.GivenUpWhenNothingIsLeft | panweave-bdb/src/lib.rs:571-618 | a rejoin that reports no success has tried the secondary list, or the next way back it had has no channel |
| BdbAttempts.RejoinStarts | panweave-bdb/src/lib.rs:571-582 | what the first attempt of a rejoin is, and when it is refused |
| BdbAttempts.SteeringAttempts | panweave-bdb/src/lib.rs:513-561 | over every steering run the joins are a prefix of the retries on the primary list followed by those on the secondary, each made right after the one before came to nothing: failed, or left again after its link key did not come in time; it succeeds exactly after a join that is verified or needs no key, and then opens the network |
| BdbAttempts.SteeringStarts | panweave-bdb/src/lib.rs:513-545 | steering starts exactly when idle, off the network and with a list to try, and makes the first join |
| BdbBinding.FindingBindingRun | panweave-bdb/src/lib.rs:684-815 | over every finding & binding run the respondents are the first eight different devices that answered the query for the endpoint before the first descriptor request; the descriptor requests are those respondents in order and each once, all of them at the end unless the binding table filled up; every bind is of a cluster on both sides that the filter or initiator role selects and goes to the asked device that described it; and the reported count is the number of successful binds |
| BdbCoverage.NothingIsLeftOut | panweave-bdb/src/lib.rs:684-815 | over every finding & binding run, for every successful descriptor of the respondent that was asked, every local cluster on both sides and selected by filter or initiator role is bound, to the group or to the address known then or reported next, before the next descriptor request or the end, unless the table filled up or the address was refused, reported unknown or not reported in time; AddGroup is sent to that respondent if and only if a group is given, one of its binds was made and the table did not fill up; and whoever did not answer was given its whole time |
| BdbTargets.TargetsExactly | panweave-bdb/src/lib.rs:626-646 | in every run an endpoint is a target, once, exactly from a request that was taken while there was room until its identify time is over, and that is reported exactly then |
| BdbTargets.TargetStarts | panweave-bdb/src/lib.rs:626-646 | a request to become a target is refused exactly off the network and when the node refuses, and identifies for the commissioning time of at least 180 seconds |
| BdbMachine.Machine.HandleEvent | panweave-bdb/src/lib.rs:823-882 | the object handles node events as the value model says; a running procedure becomes idle exactly with its own outcome, and the timer stays armed exactly when it should be |
| BdbMachine.Machine.HandlePoll | panweave-bdb/src/lib.rs:1026-1079 | the object handles timeouts as the value model says, with the same guarantees |
| BdbMachine.Machine.StartForming | panweave-bdb/src/lib.rs:447-480 | formation starts on the first non-empty channel list, and the procedure runs exactly when the call is not refused |
| BdbMachine.Machine.StartSteering | panweave-bdb/src/lib.rs:513-545 | steering starts on the first non-empty channel list, and the procedure runs exactly when the call is not refused |
| BdbMachine.Machine.RetrySteering | panweave-bdb/src/lib.rs:923-962 | retries on the same list, then the next, then gives up |
| BdbMachine.Machine.StartRejoining | panweave-bdb/src/lib.rs:571-618 | the object starts a rejoin as the value model does, whose attempts BdbAttempts.RejoinRun follows |
| BdbMachine.Machine.FindAndBindTarget | panweave-bdb/src/lib.rs:626-644 | a target identifies and is remembered once |
| BdbMachine.Machine.FindAndBindInitiator | panweave-bdb/src/lib.rs:651-681 | an initiator queries and keeps at most sixteen filter clusters |
| BdbMachine.Machine.AskNext | panweave-bdb/src/lib.rs:684-711 | the loop asks respondent after respondent until a request is taken or none is left |
| BdbMachine.Machine.PickMatches | panweave-bdb/src/lib.rs:714-749 | the loop selects the matching clusters |
| BdbMachine.Machine.MatchAndBind | panweave-bdb/src/lib.rs:714-774 | the object binds to the group, to a known address, or asks for the address first, as the value model does, of which BdbCoverage.NothingIsLeftOut says that no match is left unbound |
| BdbMachine.Machine.BindClusters | panweave-bdb/src/lib.rs:776-806 | the loop binds until the table is full and counts what succeeded |
| ApsSecurity.SecurityState.CipherFor | panweave-aps/src/security.rs:250-274 | a cipher from the two-slot cache or built anew is the one a fresh lookup gives, and every cached cipher stays the one of its partner's current key |
| ApsSecurity.SecurityState.PerformAll | panweave-aps/src/security.rs:58-452 | through any sequence of operations the answers and the key table are those of the machine without a cache |
| ApsSecurity.SecurityState.InstallKey | panweave-aps/src/security.rs:98-103 | installing replaces the partner's entry when there is room |
| ApsSecurity.SecurityState.ReplaceLinkKey | panweave-aps/src/security.rs:107-126 | replacing a key resets the incoming counter |
| ApsSecurity.SecurityState.RenamePartner | panweave-aps/src/security.rs:130-146 | renaming moves the entry and drops the one it overwrites |
| ApsSecurity.SecurityState.SecureOutgoing | panweave-aps/src/security.rs:348-388 | the object secures a frame with the cached cipher exactly as without the cache; ApsExchange.SecuredOpens says that the partner opens it |
| ApsSecurity.SecurityState.UnsecureIncoming | panweave-aps/src/security.rs:397-452 | unsecuring picks the entry, checks the counter, authenticates and stores the next counter |
| ApsSecurity.SecurityState.UnsecureSwapOut | panweave-aps/src/security.rs:293-331 | a Trust Center swap-out moves the entry to the new address under the hashed key |
| ApsSecurity.AcceptedCountersIncrease | panweave-aps/src/security.rs:397-452 | with a unique link key that is neither replaced nor reset, the frames a partner gets through carry strictly increasing counters and were sealed with that key or the named derivative |
| ApsExchange.SecuredExactly | panweave-aps/src/security.rs:348-392 | a frame is secured if and only if the key identifier is not the network key's, the partner has a verified or provisional key and a counter is allocated; it is sealed with the derivative of that key that the identifier names, under the local address and that counter |
| ApsExchange.SecuredOpens | panweave-aps/src/security.rs:348-452 | a frame secured at one end opens at the other end that holds the same key for it, with sender, key identifier, counter and plaintext, if and only if the counter is not the last one and, for a unique key, not below the next one accepted and verified where synchronised; then just the counter moves on, and otherwise nothing changes |
| ApsExchange.OpenedWasSecured | panweave-aps/src/security.rs:397-452 | whatever opens is the frame that a holder of the key at the source address secures under that counter |
| ApsExchange.OthersDoNotOpen | panweave-aps/src/security.rs:397-452 | a frame secured with another key, under another address or at another level does not open and changes nothing |
| ApsExchange.SwapOutExactly | panweave-aps/src/security.rs:293-331 | a swap-out is taken if and only if another address secured the frame, naming itself, with the hash of the Trust Center's key |
| ApsExchange.SwapOutMoves | panweave-aps/src/security.rs:293-331 | the entry then stands under the new address with the hashed key, provisional, and the next counter, and all others stay |
| ApsExchange.ChallengeIsMet | panweave-aps/src/security.rs:176-216 | the answer of a holder of the same key to a counter challenge is valid there and makes its outgoing counter the next accepted |
| ApsExchange.OnlyThatAnswerIsValid | panweave-aps/src/security.rs:194-216 | an answer is valid if and only if it was made with the key, owner, counters and challenge at hand |
| ApsExchange.RestartNeedsChallenge | panweave-aps/src/security.rs:218-225 | after a restart nothing opens from a partner that synchronises its counter until a challenge is met |
| ApsExchange.InstalledExactly | panweave-aps/src/security.rs:98-103 | an entry is installed exactly where there is one for the partner or room; one that does not fit leaves none for the partner |
| ApsExchange.EntryAfter | panweave-aps/src/security.rs:107-152 | what replacing, renaming and removing make of the entry, and when they report success |
| ApsExchange.OthersUntouched | panweave-aps/src/security.rs:98-452 | no operation touches the entries of partners it does not name |
| Tlv.ValidateExactly | panweave-codec/src/tlv.rs:111-141 | a message is accepted exactly when it is a concatenation of TLVs of 1 to 256 octets in which no tag but 64 repeats and every encapsulation holds TLVs without encapsulations; iteration yields that unique list |
| Tlv.WrittenIsAccepted | panweave-codec/src/tlv.rs:196-206 | writing any acceptable list gives octets that are accepted and iterate back to it |
| Tlv.FindInAnyOrder | panweave-codec/src/tlv.rs:168-170 | a lookup does not depend on the order of the TLVs |
| Tlv.Validate | panweave-codec/src/tlv.rs:111-141 | the loop over a bit mask of four words finds the first problem of the grammar |
| Tlv.CheckInner | panweave-codec/src/tlv.rs:132-137 | the inner loop rejects a malformed or nested encapsulation |
| Tlv.TlvIter.Next | panweave-codec/src/tlv.rs:75-93 | the iterator yields TLVs, one error when cut short, then nothing |
| Tlv.FindValue | panweave-codec/src/tlv.rs:168-176 | the first TLV with the tag is found |
| Tlv.WriteTlv | panweave-codec/src/tlv.rs:196-206 | a TLV is written exactly when its size is representable and it fits |
| Tlv.WriteTlvWith | panweave-codec/src/tlv.rs:210-229 | the patched length makes the same octets as writing the value directly |
| Description.TreeRoundTrip | panweave-green-power/src/description.rs:30-343 | printing any tree of reports, data points and attribute records the writers accept and reading it back gives the same tree |
| Description.AttributesRoundTrip | panweave-green-power/src/description.rs:276-342 | attribute records read back, and their total length is found by walking them |
| Description.ReportDescriptors.Next | panweave-green-power/src/description.rs:132-157 | the iterator yields the next report descriptor or nothing |
| Description.DataPoints.Next | panweave-green-power/src/description.rs:225-256 | the iterator yields the next data point, walking its records to find its end |
| Description.AttributeRecords.Next | panweave-green-power/src/description.rs:315-342 | the iterator yields the next attribute record while any are left |
| Description.WriteAttribute | panweave-green-power/src/description.rs:276-302 | a record is written exactly when its remaining length is 1 to 16 and it fits |
| Description.WritePoint | panweave-green-power/src/description.rs:194-213 | a data point is written exactly when it has 1 to 8 records and fits |
| Description.WriteReport | panweave-green-power/src/description.rs:98-115 | a report is written exactly when its data points take at most 255 octets and it fits |
| DescriptionStore.Descriptions.Receive | panweave-green-power/src/description.rs:500-543 | the object feeds a command: makes room, restarts on a new total, adds reports not there yet |
| DescriptionStore.ContentIsWhatWasFed | panweave-green-power/src/description.rs:500-543 | however the reports of a device are ordered, split and repeated, and whatever other devices send between, the store holds exactly the reports fed, each once, and a command answers complete exactly when all identifiers below the total have been fed |
| DescriptionStore.SameReportsSameContent | panweave-green-power/src/description.rs:500-543 | two stores fed the same reports hold the same descriptors |
| DescriptionStore.PartDescribesTree | panweave-green-power/src/description.rs:451-543 | every command carrying reports of one printed tree that fits meets what the store needs |
| SecureChannel.AcceptedIsSubsequence | panweave-direct/src/secure.rs:70-160 | over a session whose link drops, repeats, reorders, reflects or redirects values, each end accepts an in-order, repeat-free subsequence of the (characteristic, plaintext) pairs the other protected; what is on the link are the values protecting returned |
| SecureChannel.NoncesAreUnique | panweave-direct/src/secure.rs:103-130 | no two values that either end emitted were sealed under the same nonce, up to counter exhaustion |
| SecureChannel.EmittedIsAcceptedInTurn | panweave-direct/src/secure.rs:135-160 | at any point of a session, a value the other end emitted, delivered on its own characteristic, is accepted with its plaintext if and only if its counter is above the last one accepted, and is stale otherwise |
| SecureChannel.NonceInjective | panweave-direct/src/secure.rs:47-54 | the octets of a nonce determine sender and counter |
| SecureChannel.AddressInjective | panweave-direct/src/secure.rs:38-45 | the octets of a unique address determine service and characteristic |
| SecureChannel.Channel.Send | panweave-direct/src/secure.rs:103-130 | the object protects under the next counter, or refuses on exhaustion and small buffers without using one |
| SecureChannel.Channel.Receive | panweave-direct/src/secure.rs:135-160 | the object accepts only newer counters that authenticate, and a failure leaves its counter |
| CommissioningPayloads.JoinRoundTrip | panweave-direct/src/commissioning.rs:320-354 | a written Join Network parses back if and only if it obeys the presence rules of its joining method |
| CommissioningPayloads.FormRoundTrip | panweave-direct/src/commissioning.rs:285-315 | a written Form Network parses back if and only if its identifiers are in range |
| CommissioningPayloads.JoinersRoundTrip | panweave-direct/src/commissioning.rs:600-638 | every Manage Joiners write parses back |
| CommissioningPayloads.ParsesInAnyOrder | panweave-direct/src/commissioning.rs:481-617 | the order of the TLVs of a payload does not change what it parses to |
| CommissioningPayloads.UsageExactly | panweave-direct/src/commissioning.rs:541-581 | the usage checks pass exactly for what each joining method allows |
| CommissioningPayloads.PickChannels | panweave-direct/src/commissioning.rs:447-465 | the loop picks the mask of page 0 or the first one |
| CommissioningPayloads.WriteForm | panweave-direct/src/commissioning.rs:285-315 | writing a Form Network succeeds exactly when its TLVs fit the buffer, and the octets parse back exactly when its identifiers are in range |
| CommissioningPayloads.WriteJoin | panweave-direct/src/commissioning.rs:320-354 | writing a Join Network succeeds exactly when its TLVs fit the buffer, and the octets parse back exactly when it obeys the rules of its joining method |
| CommissioningPayloads.WriteJoiners | panweave-direct/src/commissioning.rs:620-638 | writing a Manage Joiners succeeds exactly when its TLVs fit the buffer, and the octets parse back |
| SetupCode.DecodeThenEncode | panweave-bdb/src/setup_code.rs:64-116 | decoding yields the little-endian number of the five-bit values, below 32 to the number of characters, and encoding gives the code back in upper case without separators |
| SetupCode.EncodeThenDecode | panweave-bdb/src/setup_code.rs:64-116 | decoding after encoding is the identity on every value below 32 to the number of characters |
| SetupCode.Decode | panweave-bdb/src/setup_code.rs:64-93 | the nested loops set the bits of that number in place, or report the first invalid character or a wrong length |
| SetupCode.Encode | panweave-bdb/src/setup_code.rs:98-116 | the loops write the letters of the number's digits, as many as fit |
| SetupCode.LookUp | panweave-bdb/src/setup_code.rs:18-28 | the loop finds the value of a character in the alphabet, whatever its case |
| ProvisioningState.RunKeeps | panweave-direct/src/state.rs:118-255 | in every run where sessions open only as admitted: open to be provisioned means unprovisioned, open to connect means provisioned, an unprovisioned device has only provisioning sessions, and its window is held exactly while it has one |
| ProvisioningState.AdvertisesExactly | panweave-direct/src/state.rs:118-255 | in every run the interface is on exactly after a power-up, a join or an enabling configuration, until a provisioned device is disabled or a poll finds an unprovisioned one without a session a full timeout (at least the minimum) after its window last started, by power-up or by closing the last session |
| ProvisioningState.AdmittedExactly | panweave-direct/src/state.rs:188-229 | each level is admitted if and only if the request is entitled to it by interface, provisioning, key, sessions of the peer, network and anonymous window, and each refusal has its exact cause |
| ProvisioningState.SessionsAreGranted | panweave-direct/src/state.rs:118-255 | in every run a peer has a session only at the level it was last entitled to and has not lost since by closing, power-up or disabling, and has it unless four were granted to others after it |
| ProvisioningState.SecurityState.Ask | panweave-direct/src/state.rs:188-228 | the object admits a session at a level, or refuses it for the first reason that applies |
| ProvisioningState.SecurityState.SessionOpened | panweave-direct/src/state.rs:232-241 | opening replaces the peer's session, drops the oldest when full and holds the window |
| ProvisioningState.SecurityState.SessionClosed | panweave-direct/src/state.rs:244-255 | closing the last provisioning session restarts the window |
| ProvisioningState.SecurityState.OnPoll | panweave-direct/src/state.rs:172-181 | the window ends when its time is reached and no provisioning session holds it |

## Left out

- ProxyFreshness.NotificationsAreFresh: stated for devices with a single table entry, because the code stores an accepted counter in every matching endpoint entry of an IEEE device.
- DuplicateRejection.DuplicateUnlessCrowded: assumes that the pair was not recorded within one lifetime of the end of the clock; nearer than that all expiries coincide and only the form of ForgottenOnlyWhenCrowded holds.
- DuplicateRejection.DuplicateExactly: assumes that no other pair was recorded at the same instant, because among equal expiries the code evicts by position in the table; ForgottenOnlyWhenCrowded and CrowdedOutIsForgotten hold without that.
- TouchlinkProtocol.RunInv: assumes that the initiator never draws a transaction identifier twice, which the code leaves to its random number generator; with a repeated one, frames of an earlier procedure could be taken for current ones.
- TouchlinkMachines.InitiatorMachine.OnInterPan: does not model device information responses, which are passed on to the caller and change nothing.
- TouchlinkMachines.TargetMachine.OnInterPan: does not model the signal strength threshold, below which a scan request counts as lost, nor device information and identify requests, which leave the network and the transaction alone, nor that the node may fail to start or join the network after the success was sent.
- ProxyWindows.RepeatedExactly: assumes a clock that never goes back, because with one that does the remembered frames do not expire in the order they came.
- ProxyMachine.BasicProxy.ReceiveGpdf: does not model the transmit queue that is answered from on RxAfterTx, which touches neither the table nor the outgoing notifications.
- ProxyMachine.BasicProxy.ReceiveMaintenance: does not model that a channel request flushes the transmit queue.
- ApsSecurity.SecurityState.ReplaceLinkKey: does not model the reset of the outgoing counter, because outgoing counters are parameters of the operations that use them.
- DescriptionStore.ContentIsWhatWasFed: assumes that the commands of a device announce one total, describe one tree within capacity, and that no more devices are fed than the store has entries; otherwise the code forgets or refuses reports.
- DescriptionStore.Descriptions.Receive: needs a store with room for at least one device, because the code takes the oldest entry out of a full store and has none to take out of one without room.
- The Green Power transmit queue, table requests and the proxy's event queue: what they add is bookkeeping around the modelled steps.
- The Green Power sink machine, the outgoing counter reservation and the internals of the link-key table: counters are taken as given out by the environment, and the key table is a map by partner.
- Scan durations, which the commissioning machine passes on unchanged, and the header of Application Description commands, whose counts are checked before the store is fed.
- Cipher and curve internals, session key agreement and the randomness of keys and identifiers.
- Octet layouts of inter-PAN touchlink commands, GP Notifications and GP Pairings: they are flat, so commands are datatypes; only the length limits that decide whether a command is sent are kept.
- The bound of 128 octets on header and payload that the integrity check of Green Power frames puts on its scratch buffer: frames on the air are shorter.
- In-place encryption and the buffers of the secure channel: values are symbolic, so only the length checks are kept.
- Touchlink device information, identify and factory reset effects on the node, and on-network steering: single calls without state of their own.
- APS binding and group tables, compact report interpretation, Leave Network and the commissioning service object: none of the modelled state depends on them.
- Error texts, logging and serialisation features.
