# A verified model of the UPF

The UPF has two halves and a seam between them.  This project models all three in Dafny and
proves what every run keeps.

**The userspace data plane.**  `Rules` holds the entities.  `Driver` is the driver as a state
machine: each critical section under its lock is one step, so a packet that is buffered and the
notification scheduled for it are two steps.  `Snapshot` and `Classify` are the published index
and the selection from it; `Sdf`, `Text` and `FlowText` the filters and the five-tuple printer;
`RateLimit`, `TokenBucket` and `RateRuns` the token buckets; `Buffering`, `Forwarding` and `Gtpu` what becomes of
packets; `UsageConservation` the metering; `Overlay` and `Burst` the adaptive overrides.
`DriverLaws` and `DataLaws` say what the steps do entry by entry and in
numbers.  `UserspaceDriver.Driver` is the driver as an object, proved against the state machine; its
invariant says that the published snapshot is always the exact index of the live sessions.
`Pipeline` runs one packet through it.  `RuleObjects` has PDRs and FARs as heap objects that live maps
and snapshots share.

**The PFCP control plane.**  `Session`, `References`, `Closing` and `Numbering` are the record of
one session, its URR reference counts, its end and its report numbers; `RequestLaws` says what the
operations of a request leave in the driver and on record.  `Node` and `NodeRuns` are
the SEID allocator, the remote nodes and the registry, over the driver.  `Transactions` is the
request and response layer of section 6.4 of 3GPP TS 29.244 with its timers.
`PfcpSession.Sess`, `PfcpServer.LocalNode`, `PfcpServer.Server` and `PfcpLoop.Loop` are the objects.
Every handler of `Server` is one step of the machine in `Node`, so the theorems about runs hold of
the objects.

**The seam.**  `Node.Inv` ties the two layers together: whatever the driver holds under a SEID is on
record in the live session with that LocalID, a URR marked removed is not in the driver, and the
driver holds no rule for a SEID that is not live.  `Node.RunInv` proves it for every run of
associations, establishments, modifications, take-overs, deletions, reports and data events.
`Leftovers` says what else of a session the driver keeps for the next one on its SEID.  `Interleaved`
and `Turns` let steps of the data plane fall between the operations of a request and the removals of a
Close.  `Books` reads every run of the server as a run of the driver and keeps the balance of each
session's usage.  `ReportQueue` and `ForeignReport` follow a usage report through the channel between
the two halves: under which session it is numbered, and whose usage it holds.

**The periodic-report server** is `Perio`.

Conventions.  A request is a sequence of elements with one identifier each; `ok` says whether the
driver can decode an element.  Go walks maps in any order: the order is a ghost result or an
arbitrary choice, and every theorem holds for all of them.  Time and tokens are reals.  Session
state and transactions are values in the maps of the objects that own them, and so are rules outside
`RuleObjects`.

What the code does that its callers may not expect, each stated by a lemma:

- Precedence: the numerically larger value wins, then the lower PDR ID (`Snapshot.SortBindings`).
  Section 8.2.11 of TS 29.244 ranks lower values first.
- The GTP-U header is always twelve octets long, and the walk over extensions depends on any of the
  three flags (`Gtpu.RoundTrip`).  QFI values from 16 on are altered (`Gtpu.QfiCarried`).
- A PDR update without URR elements makes the session forget the PDR's URRs while the driver goes on
  metering them (`References.UpdateAgreement`).
- A FAR update that goes on buffering discards what is buffered (`Buffering.BufferedPacketsLost`).
- Draining the buffer of a PDR that is not a core PDR with a UE address sends its packets through
  another PDR's binding or stops the process (`Buffering.DrainedThroughOwnBinding`,
  `UserspaceDriver.Driver.HandleFarTransition`).
- A delayed notification can be scheduled after its PDR was removed and then fires
  (`Buffering.LateScheduleReports`).
- Deleting a session leaves its packet buffers in the driver.  The SEID is the next one given out, and
  the new session's first update to forwarding sends the old packets (`Leftovers.OldPacketWaits`).
- A usage report that waits while its session is deleted is lost, or takes the number of the next
  session on the SEID and goes to its peer (`ReportQueue.StaleReport`).
- Volume metered through an old binding after its URR was removed outlives the session, and the next
  session on the SEID reports it to its own peer (`ForeignReport.UsageMisdelivered`, with the exact
  condition in `Books.ForeignUsage`).
- Sent requests are keyed by 32-bit numbers of which the wire carries 24 bits: from 2^24 on no response
  finds its request (`Transactions.UnansweredFrom`).
- A downlink data report without NOCP makes the rest of its message go unreported
  (`PfcpServer.Server.ServeReport`).
- The end of an adaptive flow takes away the override of another flow that is active on the same QER
  (`Overlay.EndOfAnotherTakesIt`).
- A take-over of an identity that another node holds detaches that node
  (`NodeRuns.TakeOverCovers`, `NodeRuns.DetachedSessionSurvives`).
- The look-up by remote SEID dereferences nil at an empty slot (`NodeRuns.RemoteSessFinds`).
- MaxRetrans 255 makes the lifetime of received requests zero (`Transactions.RetransOverflow`).
- A flow that restarts on fewer QERs leaves an override behind (`Overlay.UncoveredRestartLeaks`).
- A DEL of the periodic server leaves triples of other periods (`Perio.DelForgets`).

## Model

| member | source | states |
|---|---|---|
| Gtpu.Len | internal/gtpv1/msg.go:35-50 | the loop over the extensions adds up to 12 octets, four per PDU session container, and the payload |
| Gtpu.EncodeOptional | internal/gtpv1/msg.go:58-68 | sequence and N-PDU numbers land in octets 8 to 10 as the flags ask; every other octet of the buffer keeps its value |
| Gtpu.EncodeContainer | internal/gtpv1/msg.go:92-98 | a container fills exactly its four octets: type, length, PDU type in the high nibble, QFI cut to four bits |
| Gtpu.EncodeExts | internal/gtpv1/msg.go:69-78 | the moving position writes the containers one after the other and the final zero, and nothing after them |
| Gtpu.Encode | internal/gtpv1/msg.go:52-81 | Encode fills exactly the first Len octets with the wire image and leaves the rest of the buffer alone |
| Gtpu.DecodeGtpu | internal/forwarder/userspace/pipeline.go:413-441 | on every input the extension walk ends, reads inside the packet, and what it accepts is a suffix at offset 12 + 4k; too short exactly below 12 octets |
| Gtpu.WalkContainers | internal/forwarder/userspace/pipeline.go:418-430 | from any container of an encoded message the extension walk arrives at the first payload octet |
| Gtpu.RoundTrip | internal/gtpv1/msg.go:52-81 | decoding an encoded message always gives its TEID, and its payload if and only if it has no extension or one of the E, S and PN flags is set, for payloads of any length |
| Gtpu.QfiCarried | internal/gtpv1/msg.go:92-98 | the QFI survives the container if and only if it is below 16 |
| Gtpu.ForwardedPacketDecodes | internal/forwarder/userspace/pipeline.go:443-481 | every packet the data plane encapsulates decodes to the tunnel endpoint and payload it was built from |
| Gtpu.EncodedOctets | internal/gtpv1/msg.go:52-98 | octet by octet: flags, type, length of what follows octet 8 and TEID, most significant octet first; the numbers the flags ask for; each container's type, length, PDU type and QFI; a zero; the payload |
| Gtpu.ForwardedOctets | internal/forwarder/userspace/pipeline.go:443-481 | what is sent to a peer is message type 255 with flags 0x30, or 0x34 and one container of PDU type 1 uplink and 0 downlink exactly if the QFI is not zero |
| Gtpu.DecodeReads | internal/forwarder/userspace/pipeline.go:413-441 | the TEID is read from octets 4 to 7, most significant first, and the payload from octet 12 unless a flag is set and octet 11 names an extension |
| FlowText.ParsePortList | internal/forwarder/userspace/sdf.go:93-128 | the nested loops give the ranges of all tokens in order, skip blanks and `any`, and fail exactly if some piece is malformed |
| FlowText.SentenceLaw | internal/forwarder/userspace/sdf.go:19-58 | any description of the form permit, direction, protocol, from, end, to, end gives the rule with that direction, protocol and ends, or fails exactly if an end does |
| FlowText.EndpointLaw | internal/forwarder/userspace/sdf.go:60-91 | any is every address, assigned the UE's, anything else a network, an address alone one of 32 bits; the ports follow |
| FlowText.AddressLaw | internal/forwarder/userspace/sdf.go:60-91 | a dotted address is its four octets, the most significant first |
| FlowText.NetworkLaw | internal/forwarder/userspace/sdf.go:60-91 | a network has the prefix it names, the address's bits in front and zeros behind |
| FlowText.RangeLaw | internal/forwarder/userspace/sdf.go:93-128 | a port is itself as a range, and a-b the range from a to b |
| FlowText.ParsePrinted | internal/forwarder/userspace/adaptive_qos.go:1618-1646 | for every tuple with valid or absent IPv4 addresses and a one-word protocol, parsing the printed description gives the rule of the tuple; a tuple without any address prints as nothing and is not parsed |
| FlowText.PrintedRuleMatches | internal/forwarder/userspace/sdf.go:170-256 | the printed rule matches an uplink packet if and only if protocol (tcp 6, udp 17, icmp 1, or its number), addresses and nonzero ports agree, absent fields being wildcards, and no downlink packet |
| Sdf.ContainsByBits | internal/forwarder/userspace/sdf.go:233-247 | a network contains exactly the addresses with its first bits, as many as the prefix says |
| Sdf.ProtocolNumbers | internal/forwarder/userspace/sdf.go:217-231 | tcp is 6, udp 17 and icmp 1 in any case; nothing and ip are every protocol; anything else is its number up to 255 |
| Sdf.RuleLaw | internal/forwarder/userspace/sdf.go:170-247 | out rules match uplink and in rules downlink packets whose ends hold bit by bit and port by port; a rule with the assigned address matches both directions, on the uplink with the ends swapped too |
| Snapshot.ResolveInOrder | internal/forwarder/userspace/runtime.go:83-104 | a binding's QERs and URRs are exactly the installed ones its PDR names, in the order it names them |
| Snapshot.SortBindings | internal/forwarder/userspace/runtime.go:134-143 | the result is sorted by falling precedence and then rising PDR ID, and bindings of equal rank are the same ones in the same order as before |
| Snapshot.Build | internal/forwarder/userspace/runtime.go:76-132 | whatever order the maps are walked in, each TEID and UE bucket lists exactly the bindings that belong to it, once each, best-ranked first |
| Snapshot.BindingShows | internal/forwarder/userspace/runtime.go:83-104 | a binding shows the installed FAR its PDR names, that FAR's BAR, and exactly the installed QERs and URRs it lists |
| Snapshot.SortedMeans | internal/forwarder/userspace/runtime.go:134-143 | sorted means: precedence values fall, and PDR IDs rise among equal ones, none counting as zero |
| Classify.MatchDownlink | internal/forwarder/userspace/runtime.go:259-274 | the result outranks or ties with every core PDR of that UE address that accepts the packet, found by naive search over all sessions; nil exactly if there is none |
| Classify.BestUnique | internal/forwarder/userspace/runtime.go:134-143 | the best match is unique up to PDRs of different sessions with the same precedence and ID |
| Classify.SelectUplink | internal/forwarder/userspace/runtime.go:231-252 | the first accepting binding whose UE address agrees or is absent, else the first accepting one, nil exactly if none accepts |
| Classify.ChosenIsBest | internal/forwarder/userspace/runtime.go:231-252 | in a sorted bucket that choice outranks or ties with every other candidate of its kind |
| Classify.MatchUplink | internal/forwarder/userspace/runtime.go:211-229 | best agreeing PDR of the packet's TEID, else best accepting PDR of that TEID; only if none of this TEID accepts, the same from the other TEIDs, agreeing if any of them has an agreeing one and best-ranked of its kind under its own TEID; nil only if no access PDR anywhere accepts |
| Classify.BestDownlink | internal/forwarder/userspace/runtime.go:259-274 | the best downlink binding in raw terms: an installed core PDR with the UE address that accepts, above which no other such PDR ranks |
| Classify.NoDownlink | internal/forwarder/userspace/runtime.go:259-274 | no downlink binding: no installed core PDR with the UE address accepts |
| Classify.BestUplink | internal/forwarder/userspace/runtime.go:231-252 | the best uplink binding of a TEID in raw terms: an installed access PDR with the TEID that accepts, above which no other one ranks that agrees with the UE address as much |
| RateLimit.MbrAllows | internal/forwarder/userspace/qer_rate.go:5-40 | the loop charges the QERs in order and stops at the first refusal, keeping what was charged before |
| RateLimit.PassesExactly | internal/forwarder/userspace/qer_rate.go:5-40 | a packet passes if and only if every QER that limits it has room for it |
| RateLimit.FirstPacket | internal/forwarder/userspace/qer_rate.go:141-175 | a session's first packet passes if and only if its bits are at most 1000 times every rate that its QERs name for its direction |
| RateLimit.ChargesExactly | internal/forwarder/userspace/qer_rate.go:5-40 | a packet that passes is charged once to each QER that limits it, in its own direction only, and to no other |
| RateLimit.ForwardedBound | internal/forwarder/userspace/qer_rate.go:150-175 | over any sequence of packets, clock readings in any order and several QERs per packet, the bits one QER lets through in one direction are at most 1000 * mbr * (1 s + span of the readings) |
| TokenBucket.AdmitsExactly | internal/forwarder/userspace/qer_rate.go:150-175 | with one rate and readings in order a packet is let through if and only if, from every earlier packet on, the bits let through and its own stay within 1000 * mbr * (1 s + elapsed) |
| RateRuns.RunBound | internal/forwarder/userspace/qer_rate.go:5-40 | the same bound over every run of the driver through which a session lives, rules changing and overrides starting and ending in between |
| RateRuns.SeidBound | internal/forwarder/userspace/qer_rate.go:5-40 | over every run of the driver, through any number of deletions and re-creations of a session whose lives follow one another in time: under one SEID at most 1000 * mbr bits times the elapsed time plus one second for each creation |
| Driver.MergePdrLaws | internal/forwarder/userspace/driver.go:405-470 | partial updates of a PDR compose: an empty one changes nothing, the same one twice is one, two in a row are the second laid over the first |
| Driver.MergeFarLaws | internal/forwarder/userspace/driver.go:472-522 | the same for partial updates of a FAR, no action bits meaning no change |
| Driver.AfterFrame | internal/forwarder/userspace/driver.go:88-397 | no rule request touches meters, overrides or flows; accumulators change only by removal of their URR, buffers only by a FAR update; created and updated rules are installed |
| DriverLaws.RequestLaw | internal/forwarder/userspace/driver.go:88-522 | after an accepted request the created or updated rule is held with the request's value, PDRs and FARs field by field, a removed one is not held, and every other rule of every kind and session is held as before |
| DriverLaws.AcceptedExactly | internal/forwarder/userspace/driver.go:88-397 | a request is accepted exactly if it is well formed and the rule it needs is held; which error it gets otherwise, changing nothing |
| DriverLaws.RepliesExactly | internal/forwarder/userspace/driver.go:307-342 | a removal or query of a URR replies with its accumulator, and nothing else replies |
| DriverLaws.PeriodLaw | internal/forwarder/userspace/driver.go:267-329 | a created or updated URR starts its period unless one runs, a removed one has none, no other period changes |
| DriverLaws.PendingLaw | internal/forwarder/userspace/driver.go:125-208 | an accepted request takes away exactly the notifications of the PDRs it silences, and all of a session that goes with it |
| DriverLaws.SessionStays | internal/forwarder/userspace/driver.go:569-579 | a session goes exactly with a removal that leaves no rule, accumulator or buffer |
| Driver.RunSound | internal/forwarder/userspace/driver.go:553-579 | in every state of every run accumulators are single reports of their own URR whose totals are uplink plus downlink, and no empty session is kept |
| UserspaceDriver.Driver.Publish | internal/forwarder/userspace/runtime.go:191-197 | the published snapshot is exactly the sorted index of the live sessions |
| UserspaceDriver.Driver.DeleteSessionIfEmpty | internal/forwarder/userspace/driver.go:569-579 | a session without rules, accumulators and buffers goes, together with all its pending notifications; any other stays as it is |
| UserspaceDriver.Driver.CreatePdr | internal/forwarder/userspace/driver.go:88-101 | does what the state machine says, with the same error, and leaves an exact snapshot |
| UserspaceDriver.Driver.UpdatePdr | internal/forwarder/userspace/driver.go:103-123 | partial update of an installed PDR; not-found errors in the source's order; exact snapshot |
| UserspaceDriver.Driver.RemovePdr | internal/forwarder/userspace/driver.go:125-145 | removes the PDR, cancels its notification, drops the session if nothing is left; exact snapshot |
| UserspaceDriver.Driver.CreateFar | internal/forwarder/userspace/driver.go:147-159 | does what the state machine says and leaves an exact snapshot |
| UserspaceDriver.Driver.Release | internal/forwarder/userspace/pipeline.go:289-316 | one drained buffer goes through the PDR's own downlink entry, else through the first entry of a rebuilt snapshot, each packet once in order; it crashes exactly if there is no entry |
| UserspaceDriver.Driver.HandleFarTransition | internal/forwarder/userspace/pipeline.go:277-318 | exactly the nonempty buffers of PDRs using a FAR that buffered are taken out, their notifications cancelled and their packets sent; crashes exactly if one of them has no entry to go through |
| UserspaceDriver.Driver.UpdateFar | internal/forwarder/userspace/driver.go:161-182 | merged FAR installed, snapshot exact, buffers drained with the updated FAR; stops the process exactly if the FAR buffered and a PDR that uses it has packets and no UE address, or one that no installed core PDR has |
| UserspaceDriver.Driver.RemoveFar | internal/forwarder/userspace/driver.go:184-208 | cancels the notifications of all PDRs that use the FAR before removing it; exact snapshot |
| UserspaceDriver.Driver.CreateQer | internal/forwarder/userspace/driver.go:210-223 | does what the state machine says and leaves an exact snapshot |
| UserspaceDriver.Driver.UpdateQer | internal/forwarder/userspace/driver.go:225-244 | replaces an installed QER; not-found errors; exact snapshot |
| UserspaceDriver.Driver.RemoveQer | internal/forwarder/userspace/driver.go:246-265 | removes an installed QER, and the session with its last content; exact snapshot |
| UserspaceDriver.Driver.CreateUrr | internal/forwarder/userspace/driver.go:267-282 | installs the URR and starts its period only if none runs; exact snapshot |
| UserspaceDriver.Driver.UpdateUrr | internal/forwarder/userspace/driver.go:284-305 | replaces an installed URR without restarting its period; exact snapshot |
| UserspaceDriver.Driver.RemoveUrr | internal/forwarder/userspace/driver.go:307-329 | returns the accumulator as the final report and forgets rule, period and accumulator; exact snapshot |
| UserspaceDriver.Driver.QueryUrr | internal/forwarder/userspace/driver.go:331-342 | returns the accumulator of an installed URR and changes nothing |
| UserspaceDriver.Driver.CreateBar | internal/forwarder/userspace/driver.go:344-356 | does what the state machine says and leaves an exact snapshot |
| UserspaceDriver.Driver.UpdateBar | internal/forwarder/userspace/driver.go:358-376 | replaces an installed BAR; not-found errors; exact snapshot |
| UserspaceDriver.Driver.RemoveBar | internal/forwarder/userspace/driver.go:378-397 | removes an installed BAR, and the session with its last content; exact snapshot |
| RuleObjects.MergePdr | internal/forwarder/userspace/driver.go:405-466 | the merged PDR is a new object with the merged value, and no object that existed before is written to, parts that old and new share included |
| RuleObjects.MergeFar | internal/forwarder/userspace/driver.go:468-520 | the same for FARs and their forwarding parameters |
| RuleObjects.RuleTable.Apply | internal/forwarder/userspace/driver.go:88-208 | a rule request changes the maps as the state machine does, publishes the live objects themselves, and writes to no rule object |
| RuleObjects.RuleTable.Serve | internal/forwarder/userspace/runtime.go:76-132 | through any number of requests a snapshot that a reader still holds shows the rules it showed when it was taken |
| UserspaceDriver.Driver.BufferPacket | internal/forwarder/userspace/pipeline.go:245-268 | appends to the PDR's queue and cuts it to the newest packets the BAR allows; the snapshot stays exact without being published again |
| UserspaceDriver.Driver.ScheduleNotification | internal/forwarder/userspace/bar_delay.go:29-67 | reports at once without a delay; otherwise coalesces with the pending notification or starts one |
| UserspaceDriver.Driver.FireNotification | internal/forwarder/userspace/bar_delay.go:69-93 | a timer that fires reports the pending notification exactly if it is still pending and its buffer holds something |
| UserspaceDriver.Driver.UpdateUsage | internal/forwarder/userspace/pipeline.go:351-405 | each URR of the binding counts the packet, in order; those that reach a limit are reported |
| UserspaceDriver.Driver.MbrAllows | internal/forwarder/userspace/qer_rate.go:5-40 | the verdict and the new meters of the session are those of the policer; without the session the packet passes |
| UserspaceDriver.Driver.EmitPeriodicReports | internal/forwarder/userspace/urr_periodic.go:32-80 | each due URR is reported exactly once under its own session, its accumulator starts at zero again and its period at the tick; nothing else is reported |
| UserspaceDriver.Driver.StartAdaptiveFlow | internal/forwarder/userspace/adaptive_qos.go:1164-1220 | in the given session, overrides the used QERs, or all if none is used, for the given profile's duration and records the flow |
| UserspaceDriver.Driver.ResetAdaptiveState | internal/forwarder/userspace/adaptive_qos.go:823-873 | clears the overrides and flows of every session and nothing else |
| UserspaceDriver.Driver.EndAdaptiveFlow | internal/forwarder/userspace/adaptive_qos.go:1298-1356 | ends the flow in one session that has it; changes nothing if no session has |
| DriverLoops.TickUrrs | internal/forwarder/userspace/urr_periodic.go:37-68 | whatever order the URRs are visited in, the session afterwards and the reports are the same up to order |
| DriverLoops.CollectAdaptiveQers | internal/forwarder/userspace/adaptive_qos.go:1648-1676 | exactly the installed QERs that some PDR uses, or all installed ones if none is used |
| DriverLoops.StrandedExactly | internal/forwarder/userspace/pipeline.go:293-305 | a drain finds no binding to send through exactly if its PDR has no UE address or no installed core PDR of any session has that address |
| DriverLoops.SentBlocks | internal/forwarder/userspace/pipeline.go:277-318 | what a FAR update sends is, buffer after buffer, all that each drain emits, and nothing else |
| DriverLoops.IndexFrame | internal/forwarder/userspace/runtime.go:76-132 | buffers, accumulators, meters and overrides are no part of the index, so steps that do not publish leave it exact |
| UsageConservation.StepConserves | internal/forwarder/userspace/pipeline.go:351-405 | one step: held after plus reported equals held before plus metered, for every URR and counter |
| UsageConservation.Conservation | internal/forwarder/userspace/driver.go:307-329 | over every run, removals, re-creations and SEID reuse included: all that was metered is in periodic reports, in final reports or still in the accumulator |
| UsageConservation.TotalsAgree | internal/forwarder/userspace/pipeline.go:376-383 | in every reachable state a total is uplink plus downlink, in bytes and in packets |
| DataLaws.CountLaw | internal/forwarder/userspace/pipeline.go:359-395 | one packet on one accumulator: total and direction grow by its length and one packet; threshold and quota set VOLTH and VOLQU once the total has come up to them, and no trigger goes |
| DataLaws.CountsEach | internal/forwarder/userspace/pipeline.go:364-395 | a packet counts once on each URR its binding lists and on no other |
| DataLaws.OverLimitLaw | internal/forwarder/userspace/pipeline.go:387-404 | reported at once are exactly the listed URRs that have come up to a limit, as they stand after the packet |
| DataLaws.TickLaw | internal/forwarder/userspace/urr_periodic.go:37-67 | a tick reports with PERIO alone what a URR holds whose period has run out, starts it from zero and its period again, starts a period that never ran, and changes nothing else |
| Buffering.BufferIsSuffix | internal/forwarder/userspace/pipeline.go:245-268 | over every run a PDR's buffer is a suffix of its arrivals since the last drain, at least as long as the limits in use allow |
| Buffering.BufferIsNewest | internal/forwarder/userspace/pipeline.go:245-276 | with one limit throughout, the buffer is exactly the newest arrivals it allows |
| Buffering.DrainedThroughOwnBinding | internal/forwarder/userspace/pipeline.go:293-305 | a drained buffer goes through its own PDR's binding if and only if that is a core PDR with a UE address |
| Buffering.DrainedThroughOther | internal/forwarder/userspace/pipeline.go:303-305 | otherwise it goes through a core PDR with the same UE address, of any session, that none outranks |
| Buffering.ForwardingUpdateReleases | internal/forwarder/userspace/pipeline.go:277-318 | a FAR update from buffering to forwarding sends the buffer of a core PDR with a UE address once each in order with the updated FAR's header, empties it and cancels its notification |
| Buffering.BufferedPacketsLost | internal/forwarder/userspace/pipeline.go:307-316 | an update loses the buffered packets if and only if the old action buffers and the new one does not forward, going on buffering included |
| Buffering.CancelledStaysSilent | internal/forwarder/userspace/bar_delay.go:69-102 | a cancelled notification stays silent over every run until one is scheduled again, even if its timer had fired |
| Buffering.DrainedStaysSilent | internal/forwarder/userspace/bar_delay.go:69-93 | after a drain the notification stays silent until another packet is buffered, even if one is scheduled late for a drained packet |
| Buffering.LateScheduleReports | internal/forwarder/userspace/bar_delay.go:29-67 | after a run in which a PDR, or the FAR it forwards through, is removed and a notification of it is scheduled later: it is reported for a rule that is no longer installed, exactly if the buffer held something at the removal |
| Buffering.ScheduleReports | internal/forwarder/userspace/bar_delay.go:29-93 | after any run, a notification scheduled last is reported when it fires exactly if a packet arrived for the buffer since its last drain |
| Forwarding.FirstQfi | internal/forwarder/userspace/pipeline.go:483-490 | the QFI of the first QER that carries one, zero if none does |
| Forwarding.ForwardCarries | internal/forwarder/userspace/pipeline.go:199-243 | what is sent is the payload itself, or a G-PDU to the FAR's peer and port that decodes to the payload under the FAR's TEID and has one container with direction and QFI exactly if the QFI is nonzero |
| Pipeline.ProcessMatched | internal/forwarder/userspace/pipeline.go:71-113 | a packet is sent exactly if its FAR has FORW and neither BUFF nor DROP, no gate is shut, the rates admit it and the proxy does not take it; buffered exactly if the FAR has BUFF and not DROP and no gate is shut; then counted |
| Pipeline.ProcessUplink | internal/forwarder/userspace/pipeline.go:41-114 | undecodable and unmatched packets change nothing; a matched one goes to the binding that the uplink selection rule names and is sent or buffered as said of ProcessMatched; one that the proxy intercepts is charged and counted but not sent |
| Pipeline.ProcessDownlink | internal/forwarder/userspace/pipeline.go:116-197 | unparsable and unmatched packets change nothing; a matched one goes to the best-ranked core PDR of its UE and is sent or buffered as said of ProcessMatched |
| Pipeline.CountedWhateverHappens | internal/forwarder/userspace/pipeline.go:71-113 | a matched packet is counted exactly once for each URR its binding lists, whether it is forwarded, buffered or dropped |
| Pipeline.OnlyForwardedCharged | internal/forwarder/userspace/pipeline.go:71-77 | a packet that a gate drops or that is buffered is not charged to any rate |
| Overlay.StartKeepsOwned | internal/forwarder/userspace/adaptive_qos.go:1154-1219 | a start keeps every override owned by an active flow that lists its QER if and only if a restart covers what its flow overrides |
| Overlay.EndKeepsOwned | internal/forwarder/userspace/adaptive_qos.go:1309-1318 | an end keeps that ownership |
| DataLaws.AdaptedExactly | internal/forwarder/userspace/adaptive_qos.go:1648-1676 | a start overrides the installed QERs that some PDR lists, or all if no PDR lists any |
| DataLaws.StartLaw | internal/forwarder/userspace/adaptive_qos.go:1166-1219 | what a start records: flow, gates, rates and end on each QER it overrides, and nothing else |
| DataLaws.EndLaw | internal/forwarder/userspace/adaptive_qos.go:1309-1318 | an end takes away the flow and the overrides of all QERs it lists, whoever they belong to |
| Overlay.StartInForce | internal/forwarder/userspace/adaptive_qos.go:1298-1356 | over every run after its start, and every time: a started override is in force on a QER if and only if it has not expired, no start of any flow reached that QER again, no flow listing it ended, nothing was reset and the session was not deleted; then the profile's gates and nonzero rates are the effective ones |
| Overlay.EndOfAnotherTakesIt | internal/forwarder/userspace/adaptive_qos.go:1309-1318 | a run of driver events: two flows start on one QER and the first one ends; the second is active and unexpired, and the installed rate is in force |
| Overlay.ReportsKeepRules | internal/forwarder/userspace/adaptive_qos.go:1123-1248 | adaptive reports change no installed rule, buffer, meter or accumulator of any session |
| Overlay.Reversible | internal/forwarder/userspace/adaptive_qos.go:1298-1356 | over every run whose restarts cover: once all flows of a session have ended, every effective gate and rate is the installed one |
| Overlay.UncoveredRestartLeaks | internal/forwarder/userspace/adaptive_qos.go:1154-1219 | a run of driver events, with a PDR update between two starts of one flow: after its end an override is left without any flow |
| Burst.LeastRateUnlessOverflow | internal/forwarder/userspace/adaptive_qos.go:1523-1532 | the rate is the least that carries the burst in the window if and only if the 64-bit product and sum do not overflow |
| Burst.DecisionSafe | internal/forwarder/userspace/adaptive_qos.go:1460-1521 | for every input, overflow included: GFBR at most MBR and positive when MBR is, the uplink never starved, no MBR above a nonzero authorised maximum |
| Burst.WindowIsLonger | internal/forwarder/userspace/adaptive_qos.go:1460-1521 | the window is the later of deadline and duration, or 150 ms without either |
| Burst.ShareOfDownlink | internal/forwarder/userspace/adaptive_qos.go:1460-1521 | the uplink gets an eighth of the downlink, a quarter where that is nothing, else 100 kbit/s |
| Burst.GuaranteedShare | internal/forwarder/userspace/adaptive_qos.go:1460-1521 | the guaranteed rate is three quarters rounded down, unless tripling overflows |
| Burst.DecisionIs | internal/forwarder/userspace/adaptive_qos.go:1460-1521 | each direction's rate is cut to the maximum authorised for it |
| Perio.Server.HandleAdd | internal/forwarder/perio/server.go:134-159 | inserts one triple; a ticker runs exactly for the periods in use |
| Perio.Server.HandleDel | internal/forwarder/perio/server.go:160-176 | takes out one matching triple, of any period, if there is one; no group or inner map stays empty |
| Perio.Server.HandleTimeout | internal/forwarder/perio/server.go:177-195 | sends one query, for exactly that period's URRs, once each; none for a period that has gone |
| Perio.Server.Serve | internal/forwarder/perio/server.go:123-225 | every sequence of events, up to the first close event, is a run of the abstract machine over registered triples and queries sent |
| Perio.Server.HandleClose | internal/forwarder/perio/server.go:217-222 | stops every ticker and leaves no group |
| Perio.Server.TickersMatchTriples | internal/forwarder/perio/server.go:134-176 | a ticker runs if and only if its period occurs in a triple |
| Perio.DelForgets | internal/forwarder/perio/server.go:160-176 | after a DEL the URR is queried no more if and only if it was registered under at most one period |
| Session.DoKeepsLink | internal/pfcp/node.go:97-493 | every operation, refused ones included, keeps everything the driver holds on record and a removed URR out of the driver |
| Session.DoAllKeeps | internal/pfcp/node.go:97-493 | any sequence of operations keeps record and driver in step and touches no other session of the driver |
| RequestLaws.DoAllEnds | internal/pfcp/node.go:97-493 | what any sequence of operations leaves of each rule in the driver: set by well-formed creations, patched by updates, taken away by removals, in their order |
| RequestLaws.LastWord | internal/pfcp/session.go:52-110 | the last operation to name a rule decides: a well-formed creation leaves its value, a removal nothing |
| RequestLaws.RecordLaw | internal/pfcp/node.go:97-493 | what is on record after an operation: created rules even if the driver refused, removed ones off it only if it accepted, a URR's record staying |
| RequestLaws.RelatedLaw | internal/pfcp/node.go:97-211 | the URRs a PDR relates to on record are those its creation or last accepted update lists |
| RequestLaws.UrrRecordLaw | internal/pfcp/node.go:367-423 | a new URR record counts from zero, a removal marks it in any case, and no operation changes its number |
| RequestLaws.QueryLaw | internal/pfcp/node.go:401-446 | a query of a URR that the driver holds reports its accumulator with IMMER and changes nothing, a removal with TERMR, and neither reports anything of one it does not hold |
| References.CountsKept | internal/pfcp/node.go:97-136 | an operation keeps refPdrNum equal to the number of related PDRs if and only if it creates no PDR that lists a recorded URR twice or related to it before, re-creates no related URR and updates no PDR with a new URR |
| References.CountsOverRun | internal/pfcp/node.go:97-238 | over the whole life of a session, requests and numbered messages in any order, the counts stay right through every such operation |
| References.QueriedWhenLastLetsGo | internal/pfcp/node.go:138-238 | with right counts a PDR update or removal reports a URR's usage, once and with TERMR, exactly if it succeeds, lets go of the URR, no PDR relates to it any more and the driver holds it; no other usage and none on failure |
| References.UpdateAgreement | internal/pfcp/node.go:163-211 | after an accepted PDR update record and driver relate it to the same URRs if and only if the update lists some URR or the PDR had none |
| Closing.CloseEmptiesAndReports | internal/pfcp/node.go:46-95 | Close, in any map order and whatever single removals fail, leaves the driver without a rule of the session and collects each installed URR's residual usage exactly once with TERMR |
| Leftovers.CloseLeaves | internal/forwarder/userspace/driver.go:553-579 | after a Close without data-plane steps between its removals the driver keeps the session if and only if it had a packet buffer, even an emptied one, or an accumulator of a URR that is not installed; it then keeps buffers, meters, overrides, flows and those accumulators, and no rule |
| Interleaved.WorkKeeps | internal/pfcp/session.go:173-332 | whatever steps of the data plane fall between the operations of a request: record and driver stay in step, and no rule of another session changes |
| Interleaved.CloseAmid | internal/pfcp/node.go:46-95 | Close with any data-plane steps between its removals: no rule is left, and the driver keeps the session if and only if it outlived its rules before or one of those steps buffered a packet for it or metered a URR that was not installed then |
| Numbering.NumberSeries | internal/pfcp/node.go:534-542 | per URR the numbers of a message continue its series without a gap, and the record of a removed URR goes with its last report |
| Numbering.DeletionReportsResiduals | internal/pfcp/session.go:370-398 | the deletion response reports each installed URR's residual usage exactly once, with TERMR and the next number, and nothing else |
| Numbering.HandlerOrderMeans | internal/pfcp/session.go:173-306 | the handler works through all creations, then all removals, then all updates, then the queries, and each of these FARs, QERs, URRs, BARs and PDRs in this order |
| Numbering.ModificationLosesNothing | internal/pfcp/session.go:316-332 | a modification response sends every report its operations collected, numbered consecutively, because removals come before the updates and queries that report |
| Numbering.NumbersAreSeries | internal/pfcp/node.go:534-542 | over the whole life of a record, whatever its operations and reports, the numbers issued for a URR are 0, 1, 2 and so on modulo 2^32 |
| PfcpSession.Sess.CreatePdr | internal/pfcp/node.go:97-136 | record and driver change as the operation says: counts raised per element, related set stored, driver asked last |
| PfcpSession.Sess.DissociateUrr | internal/pfcp/node.go:138-161 | one reference fewer, and the query with TERMR exactly at the last one |
| PfcpSession.Sess.UpdatePdr | internal/pfcp/node.go:163-211 | nothing changes if the driver refuses; else the dropped URRs are let go in the map's order |
| PfcpSession.Sess.RemovePdr | internal/pfcp/node.go:213-238 | nothing changes if the driver refuses; else all related URRs are let go and the record removed |
| PfcpSession.Sess.RemoveUrr | internal/pfcp/node.go:401-423 | the record is marked even if the driver refuses; the final reports carry TERMR |
| PfcpSession.Sess.QueryUrr | internal/pfcp/node.go:425-446 | the reports carry IMMER and nothing changes |
| PfcpSession.Sess.PerformAll | internal/pfcp/session.go:173-306 | the loops over a request's elements are the operations one after the other, errors skipped and reports gathered; the process stops exactly at a FAR update that drains a buffer without a way out |
| PfcpSession.Sess.NumberReports | internal/pfcp/session.go:316-332 | the numbering loop: a report without a record is skipped, the others take the next number, removed records go |
| PfcpSession.Sess.Close | internal/pfcp/node.go:46-95 | the five loops remove each recorded rule exactly once, kind after kind, in the maps' order |
| PfcpSession.PlanOfParts | internal/pfcp/node.go:46-89 | five complete removal lists one after the other are a plan of Close |
| Node.NewLive | internal/pfcp/node.go:656-677 | a new session takes the last freed SEID or a new slot; the free list stays duplicate-free and exactly the empty slots, and every other session is untouched |
| Node.DeleteInv | internal/pfcp/node.go:598-610 | deleting a session keeps the invariant over both layers and touches no other session |
| Node.ResetInv | internal/pfcp/node.go:570-575 | resetting a node deletes its sessions, in any order, and touches no other node's sessions, in the slots or in the driver |
| Node.TakeOverInv | internal/pfcp/pfcp.go:256-262 | a take-over of an identity keeps the invariant over both layers |
| Node.StepInv | internal/pfcp/session.go:13-405 | every event keeps the allocator, ownership and cross-layer invariant |
| Node.RunInv | internal/pfcp/node.go:46-493 | in every run: free list exact, LocalID is slot plus one, nodes own disjoint SEID sets with union the live ones, everything in the driver on record, no rule in the driver for a SEID that is not live |
| NodeRuns.HighWaterMark | internal/pfcp/node.go:656-702 | in every run the number of slots is the largest number of sessions ever live at once |
| NodeRuns.SeidStartsAfresh | internal/pfcp/node.go:656-677 | in every run a SEID about to be given out, new or recycled, has no rule in the driver |
| Leftovers.NextSessionInherits | internal/pfcp/node.go:598-677 | in every world of the invariant: after a deletion the next session takes the same SEID, and finds in the driver what the old one left, or nothing |
| Leftovers.InheritsInEveryRun | internal/pfcp/node.go:598-677 | the same at every state of every run from the start |
| Leftovers.OldPacketWaits | internal/forwarder/userspace/driver.go:569-579 | a run from the start: establish, buffer a packet, delete, establish again; the second session holds the first one's packet, and an update of its FAR to forwarding drains it |
| Turns.TurnsInv | internal/pfcp/node.go:46-493 | the invariant over both layers in every run in which data-plane steps fall between the operations of requests and the removals of Close |
| Turns.NextAfterClose | internal/pfcp/node.go:598-677 | after such a Close the SEID is the next one given out, without rules, and the driver has a session under it exactly under the condition of Interleaved.CloseAmid |
| Books.ServerDrives | internal/pfcp/node.go:46-493 | every such run of the server is a run of the driver, so the theorems about runs of the driver hold of it |
| Books.SessionUsage | internal/forwarder/userspace/pipeline.go:351-405 | over every such run: what the reports of the session on a SEID have taken of a URR and what its accumulator holds is what was metered on the SEID since the session was created plus what the driver held for it at that moment; nothing is taken while there is no session |
| Books.ForeignUsage | internal/forwarder/userspace/driver.go:267-282 | for a session on a recycled SEID: its reports and accumulator hold only what was metered since its creation if and only if the end of the last session left nothing of the URR in the driver and nothing was metered in between |
| Books.LeftByDeletion | internal/forwarder/userspace/driver.go:553-579 | what a deletion leaves of an accumulator: nothing of an installed URR, everything of any other |
| Books.LeftByClose | internal/forwarder/userspace/driver.go:307-329 | the same if the Close is disturbed: also what was metered to the URR in between while it was not installed |
| Books.FirstUsage | internal/forwarder/userspace/driver.go:553-565 | the first session on a SEID inherits nothing |
| NodeRuns.DeletionInEveryRun | internal/pfcp/session.go:370-398 | in every run the deletion of a live session reports each URR's residual usage exactly once with the next number |
| NodeRuns.AssociationResets | internal/pfcp/association.go:48-58 | a new association deletes exactly the sessions of the node registered under its identity |
| NodeRuns.TakeOverCovers | internal/pfcp/pfcp.go:256-262 | a take-over leaves every session's owner registered if and only if the identity was not that of another node with sessions |
| NodeRuns.TakeOverLaw | internal/pfcp/pfcp.go:256-262 | after a take-over the node is registered under the new identity and not under the old one, and nothing else changes |
| NodeRuns.StepCovered | internal/pfcp/pfcp.go:256-262 | that take-over is the only event that can leave a session's owner unregistered |
| NodeRuns.CoveredAssociationClears | internal/pfcp/association.go:48-58 | with every owner registered, a new association leaves no session of a node with its identity alive |
| NodeRuns.DetachedSessionSurvives | internal/pfcp/pfcp.go:256-262 | a run from the start: two nodes associate, establish a session each, and the second one's is modified under the first one's identity; a new association under that identity then leaves the first one's session alive, in any order |
| NodeRuns.RemoteSessFinds | internal/pfcp/node.go:647-654 | the look-up finds the first match exactly if no slot before it is empty, fails exactly if no slot is empty or matches, and otherwise dereferences nil |
| NodeRuns.StepIdentity | internal/pfcp/node.go:656-677 | no event replaces a session by another on the same SEID: while it lives, owner and remote SEID stay |
| PfcpServer.LocalNode.NewSess | internal/pfcp/node.go:656-677 | the slot and free list afterwards, and a fresh session object in its slot |
| PfcpServer.LocalNode.DeleteSess | internal/pfcp/node.go:679-702 | closed, slot emptied, SEID put on the free list; nothing changes for an unknown SEID |
| PfcpServer.Server.NewSess | internal/pfcp/node.go:585-596 | the objects are the state machine's world after a new session, owned by the node |
| PfcpServer.Server.DeleteSess | internal/pfcp/node.go:598-610 | the objects are the state machine's world after the deletion; nothing for a SEID the node does not own |
| PfcpServer.Server.Reset | internal/pfcp/node.go:570-575 | the loop over the node's SEIDs deletes each once, in the map's order |
| PfcpServer.Server.RemoteSess | internal/pfcp/node.go:647-654 | the scan through the slots, including its nil dereference at an empty one |
| PfcpServer.Server.HandleAssociationSetup | internal/pfcp/association.go:48-58 | one step of the state machine |
| PfcpServer.Server.UpdateNodeId | internal/pfcp/pfcp.go:256-262 | old identity out of the registry, new one in, over whoever had it |
| PfcpServer.Server.HandleEstablishment | internal/pfcp/session.go:13-129 | a session is created exactly for a registered identity; then every rule ends as the request's elements have it, each well-formed creation that is the last to name its rule held with its value; stops the process exactly as PerformAll |
| PfcpServer.Server.HandleModification | internal/pfcp/session.go:131-339 | one step of the state machine with the request's elements; every rule of the session ends as they have it and no other session's rules change; the response carries the collected reports, numbered; stops the process exactly as PerformAll |
| PfcpServer.Server.HandleDeletion | internal/pfcp/session.go:341-405 | one step of the state machine; the response carries the residual usage, numbered |
| PfcpServer.Server.HandlePeerForgot | internal/pfcp/session.go:407-433 | one step of the state machine; crashes exactly if the look-up meets an empty slot first |
| PfcpServer.Server.Tick | internal/forwarder/userspace/urr_periodic.go:32-80 | a tick is one data event of the state machine; the reports are of live sessions, each due URR once |
| PfcpServer.Server.ServeReport | internal/pfcp/report.go:14-124 | one step of the state machine; usage reports take the next numbers and no record goes; packets are pushed and notifications sent up to the first item without NOCP, which also cuts off the usage reports; nothing without a session or an address |
| PfcpServer.OneItem | internal/pfcp/report.go:28-50 | a data notification pushes its packet if its action buffers and there is one, and is passed on if it has NOCP |
| PfcpServer.ServedUpTo | internal/pfcp/report.go:33-37 | items are looked at up to and with the first notification without NOCP |
| NodeRuns.ReportKeepsRecords | internal/pfcp/report.go:108-120 | a report on the UPF's own initiative drops no record |
| NodeRuns.ModifyDropsReported | internal/pfcp/session.go:316-332 | the response to a modification drops the records of removed URRs that it reports |
| ReportQueue.RunsTheServer | internal/pfcp/pfcp.go:113-119 | every run with the report channel is a run of the server over the driver |
| ReportQueue.TickNumbered | internal/forwarder/userspace/urr_periodic.go:74-79 | from any reachable state: a tick's reports are of live sessions, and after any further run each is numbered under the session that was on the SEID at the tick if and only if that session was not deleted in between |
| ReportQueue.NumberedUnderSame | internal/pfcp/report.go:92-124 | the same for every waiting report and the session that was on its SEID when it was sent; then it goes to the peer that session has |
| ReportQueue.StaleReport | internal/pfcp/report.go:92-124 | in every reachable state: if the session of a waiting report is deleted the report is lost, and if a new session then has a URR of that identifier the report goes to the new peer as number 0 |
| ReportQueue.ReportMisdelivered | internal/pfcp/pfcp.go:264-266 | a run from the start in which this happens |
| ForeignReport.MessageUsage | internal/forwarder/userspace/urr_periodic.go:74-79 | the message of a tick holds exactly what the books say the tick takes from its session |
| ForeignReport.QueueUsage | internal/forwarder/userspace/pipeline.go:351-405 | the balance of Books.SessionUsage over every run with the report channel |
| ForeignReport.UsageMisdelivered | internal/forwarder/userspace/urr_periodic.go:49-66 | a run from the start: a packet is metered through an old binding after its URR was removed, the session is deleted, and the next session on the SEID reports that packet under its own number to its own peer |
| Transactions.RunKeepsRx | internal/pfcp/transaction.go:122-193 | in every run, of any length: received requests and their timers are in bijection |
| Transactions.SendKeepsInv | internal/pfcp/pfcp.go:281-291 | a send, wrapped number or not, keeps exactly one outstanding timeout per request in the table if and only if nothing is left of an earlier request under its number |
| Transactions.RunKeepsInv | internal/pfcp/transaction.go:57-120 | in every run whose sends find their numbers free, of any length: a sent request in the table has exactly one armed or queued timeout |
| Transactions.UnwrappedNumbersFree | internal/pfcp/pfcp.go:281-291 | runs that send no more requests than there are numbers find them free, whatever else happens |
| Transactions.Settles | internal/pfcp/transaction.go:57-120 | in every such run, with wrapped numbers: each request is answered, given up or pending, exactly one of them, and transmitted at most MaxRetrans+1 times |
| Transactions.RetransmitsTheSame | internal/pfcp/transaction.go:57-109 | over every run each transmission, first or repeated, carries the bytes of the send that opened its request |
| Transactions.SendTransmits | internal/pfcp/pfcp.go:281-291 | a send transmits its bytes at once under the count of requests so far, in 32 bits |
| Transactions.TimeoutLaw | internal/pfcp/transaction.go:91-109 | a timeout retransmits while there were fewer than MaxRetrans retransmissions, else gives up |
| Transactions.RepliesTheSame | internal/pfcp/transaction.go:140-177 | over every run each reply carries the answer of the dispatched request, duplicates included |
| Transactions.RxExpires | internal/pfcp/transaction.go:122-138 | an entry expires MaxRetrans plus one periods after its request arrived, at once for 255 |
| Transactions.DuplicatesSuppressed | internal/pfcp/transaction.go:160-177 | while its entry lasts a request is not dispatched again and each duplicate gets the identical stored bytes or nothing |
| Transactions.DispatchedOnce | internal/pfcp/pfcp.go:140-160 | a request whose copies all arrive within the entry's lifetime is dispatched exactly once |
| Transactions.PeerDispatchedOnce | internal/pfcp/transaction.go:122-138 | with MaxRetrans below 255 a peer retransmitting on the same schedule, skew under one period, has its request dispatched exactly once |
| Transactions.RetransOverflow | internal/pfcp/transaction.go:127-133 | with MaxRetrans 255 the increment wraps, the lifetime is zero, and such a request is dispatched twice |
| Transactions.Ledger | internal/pfcp/transaction.go:57-120 | over every run that sends at most 2^32 requests: a number's request is answered, given up once or pending, exactly one of them; transmitted at most MaxRetrans+1 times, and exactly that often if given up |
| Transactions.ResponseReaches | internal/pfcp/transaction.go:80-89 | a response, whose number has 24 bits, ends its request if and only if the request's number is below 2^24; otherwise it ends the pending request of the truncated number, if there is one |
| Transactions.UnansweredFrom | internal/pfcp/transaction.go:57-120 | over every run whose sends find their numbers free: no request numbered 2^24 or above is ever answered, and each one sent is given up or pending |
| PfcpLoop.Loop.ReceiveRequest | internal/pfcp/pfcp.go:140-160 | a fresh request is recorded with a timer and dispatched, a duplicate answered from the store or not at all |
| PfcpLoop.Loop.SendResponse | internal/pfcp/pfcp.go:293-306 | the response is stored with the transaction and sent; without one nothing happens |
| PfcpLoop.Loop.ReceiveResponse | internal/pfcp/transaction.go:80-89 | the transaction ends and its armed timer stops; an unknown response does nothing |
| PfcpLoop.Loop.SendRequest | internal/pfcp/pfcp.go:281-291 | a new transaction under the next sequence number, with a timer and a first transmission |
| PfcpLoop.Loop.HandleTimeout | internal/pfcp/transaction.go:91-109 | retransmits up to MaxRetrans times, then gives up and dispatches the timeout; nothing for a transaction that has gone |
| PfcpLoop.Loop.Serve | internal/pfcp/pfcp.go:113-192 | any number of turns of the loop: the state and the outputs are those of the state machine's run, and the invariant holds whenever sends find their numbers free |

## Left out

- Sockets, TUN, netlink, HTTP/3, MASQUE, the debug and SBI servers, the sidecar, the NRF client, configuration and logging: input and output.
- The kernel driver of `internal/forwarder/gtp5g.go` and `buffnetlink`: it talks to a kernel module that is not part of this model.
- PFCP decoding and encoding of information elements: requests start as parsed records, and a decoding error is the flag `ok`.
- TypeScript and React code, the graph lab simulation.
- `handleMASQUE` publishes a snapshot without the lock: outside the locked-step model.
- `ReportUsage` overwrites accumulators and `LocalNode.Reset` breaks ownership; neither is part of a run.
- Trace events, story views, the matched adaptive flow of a binding, predicted delay and success ratio: presentation.
- The copy of session state inside a snapshot: only its index is modelled; the copied period starts can be older than the live ones, because a tick without a report does not publish.
- Rule objects other than PDRs and FARs: the source replaces QERs, URRs and BARs whole.
- Sessions of the driver and transactions are values in the maps of their owners; object identity and sharing of the source's pointers are not modelled.
- Start and end times, durations, measurement method and information flags of usage reports.
- The wrap of the 64-bit volume counters: counters are unbounded here.
- Messages that fail to marshal: every request sent is assumed to arm its timer.
- The capacity of channels: queued timeouts and outgoing packets wait without bound.
- Transactions.Ledger: bounded by 2^32 sends, because it speaks of the one request of a number; the theorems without that bound are `Transactions.Settles` and `Transactions.RunKeepsInv`.
- IPv6 and the reading of the IPv4 header: parsed packet data is a parameter; case folding is that of ASCII.
- How an adaptive report finds its session, the choice of a profile from the configuration and the automatic end of a flow: the session, the profile and the end are event parameters.
- What the adaptive proxy does with the uplink packets it intercepts: which ones it takes is a parameter.
- The queues behind `Push` and `Pop`, and the message that `serveDLDReport` builds.
- UserspaceDriver.Driver.StartAdaptiveFlow: the session and the profile are given; how a report finds its session and selects a profile is not modelled.
- Periods of the periodic server are positive; the source's ticker refuses others.
- The panic recovery of the server goroutine: after a crash nothing more is said.
- Pipeline.ProcessMatched: the parts follow one another directly; what other goroutines do between them is covered by the theorems about runs of single steps.
- Burst.DecisionSafe: says nothing about units; the rates are bits per second and are enforced as kilobits per second.
- Closing.CloseEmptiesAndReports: claims the rules and the reports; what else stays in the driver is `Leftovers.CloseLeaves`.
- NodeRuns.SeidStartsAfresh: claims the rules; what else the SEID carries is `Leftovers.InheritsInEveryRun`.
- RateRuns.RunBound: one life of a session; `RateRuns.SeidBound` adds a burst for each re-creation.
- Leftovers.CloseLeaves: a Close that nothing disturbs; `Interleaved.CloseAmid` has the condition for any other.
- Leftovers.NextSessionInherits: the same, with `Turns.NextAfterClose` for any other.
- Leftovers.InheritsInEveryRun: the same.
- Numbering.DeletionReportsResiduals: for a Close that nothing disturbs; `Books.LeftByClose` has the balance for any other.
- NodeRuns.DeletionInEveryRun: the same.
