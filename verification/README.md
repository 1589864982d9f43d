# A verified model of smoltcp

smoltcp is a TCP/IP stack for embedded systems. This project models its stateful cores in Dafny and proves
what they promise: the TCP socket with its ring buffers, assembler and round-trip estimator, the reassembly
of fragmented packets, the DHCP client, the neighbor cache, the IPv6 text parser and the DNS client.

`dafny verify dfyconfig.toml` checks everything.

## What is where

| files | what they hold |
|---|---|
| `SeqNumbers`, `RingBuffer`, `RingArray`, `AssemblerList`, `AssemblerArray`, `Common` | 32-bit sequence numbers; the ring buffer as a queue with a writable region, and the array it is stored in; the assembler as a set of offsets, and its array; small shared types |
| `RttEstimation`, `RttEstimatorClass` | the round-trip estimator and its 32-bit arithmetic |
| `Tcp`, `TcpProcess`, `TcpDispatch` | the socket as a value and what `process`, `dispatch`, `poll_at` and the user calls do to it |
| `TcpPoll`, `TcpInvariant`, `TcpWindow`, `TcpEdge`, `TcpChallenge` | one socket against arbitrary segments, times and calls: `poll_at` is exact, polling comes to rest, every state is in order, windows are honoured, challenge ACKs are limited |
| `TcpPeer`, `TcpEffect`, `TcpClock`, `TcpTold`, `TcpAckTiming`, `TcpKeepAlive` | likewise: what is taken from the peer's SYN, when a socket sends again, gives up and leaves TIME-WAIT, what it has told its peer and when it says more, keep-alive probes |
| `TcpCalls`, `TcpClosing`, `TcpRecovery`, `TcpReset`, `TcpRoundTrip` | likewise: everything received can be read, `close` leads to a FIN, losses are made good, resets reach their target, round trips are measured |
| `TcpKarn`, `TcpKarnRestart`, `TcpTimer`, `TcpNagle`, `TcpScenario` | likewise: exactly when Karn's rule holds, octets in flight have a timer, and small segments are held back, with runs in which they do not |
| `TcpStream`, `TcpReceiver`, `TcpSide`, `TcpEgress`, `TcpSystem`, `TcpGraceful`, `TcpAcknowledged`, `TcpMtu`, `TcpTheorems` | two sockets over a network that drops, duplicates and reorders: prefix safety, graceful end, consistent retransmission, what an acknowledgement is worth, and packets that fit both MTUs |
| `TcpProgress` | the handshake connects and settles the terms, data in order is taken |
| `TcpSocket` | the socket as an object over arrays, proved against the functions |
| `Fragments`, `Datagrams`, `FragmentExpiry`, `PacketAssemblers` | reassembly slots, what they give back, until when they are held, and the objects |
| `DhcpClient`, `DhcpLease`, `DhcpSocket` | the DHCP client, what its leases are made of, and the object |
| `NeighborCache`, `NeighborRecency` | the neighbor cache, what it remembers, and the object |
| `Ipv6Text`, `Ipv6RoundTrip`, `Ipv6Language`, `Ipv6Parser` | the text of IPv6 addresses, round trips, the exact language accepted, and the parser object |
| `DnsName`, `DnsClient`, `DnsServers`, `DnsSchedule`, `DnsSocket` | domain names, the effort a query takes, whom it asks, when the client acts, and the object |

Every state machine is written twice. One form is a function from the old state to the new one, about which
the theorems are proved. The other follows the code: an object whose methods update fields and arrays, loop and
return early, each with the postcondition that it computes what the function says.

## How the model is set up

- Sequence numbers are residues below 2^32. `Off` recovers the position of a number in its stream, so the
  stream theorems speak of positions in the naturals while the code compares wrapped residues.
- The clock, the MTU, random numbers and whether the device takes a packet are parameters. Times are
  unbounded integers in microseconds.
- A run is a list of events: arbitrary segments at arbitrary times, dispatches, user calls. A step that the
  interface would not make, such as handing a socket a segment it does not accept, leaves the state alone.
- Build-time sizes are parameters: buffer capacities, the number of reassembly slots, of neighbors, of queries
  and servers. Only the assembler has its default of four contigs.
- In the two-socket system the network is the set of all segments ever sent. Delivering a segment does not
  remove it, and not delivering it is losing it.

## Findings

Where a promise does not hold of the code, the code is modelled as it is and the exact condition is proved.

- `close` in SYN-RECEIVED loses the FIN: the ACK of the SYN is counted as the ACK of the FIN
  (`TcpTheorems.CloseInSynReceivedLosesFin`). Over every run of two sockets, an end in FIN-WAIT-2 or TIME-WAIT
  has sent its FIN behind its last octet, and the peer has taken it, if and only if `close` was not called in
  SYN-RECEIVED (`TcpTheorems.GracefulClose`). The end that closes last is not affected
  (`TcpTheorems.LastAckIsGraceful`).
- A receive capacity of exactly 2^30 passes the guard of the constructor but gets the shift 15, which
  RFC 7323 forbids. The shift is at most 14 exactly below 2^30 (`TcpWindow.ShiftWithinRfc`,
  `TcpWindow.ShiftAtGuard`).
- A RST in SYN-RECEIVED leaves the estimator as it was. In the connections the listener then accepts, Karn's
  rule holds for every initial number if and only if neither a measurement was running nor a highest number
  sent was remembered (`TcpKarnRestart.ThrownBack`). An old measurement is completed by the ACK of the new SYN
  (`TcpKarnRestart.OldMeasurementSampled`); an old highest number half the sequence space away lets a second
  transmission be measured, if the peer acknowledges a SYN|ACK it has not been sent
  (`TcpKarnRestart.OldHighestMisleads`). For one initial number it is enough that no measurement runs and the
  old number is not that far away (`TcpKarnRestart.ClearRule`).
- Samples never overflow 32 bits in any run if and only if they stay below 2^29 ms: repeated samples of 2^29 ms
  raise the estimate until the next one overflows (`RttEstimation.OverflowExactly`).
- Octets in flight may have no retransmit timer. A running timer is stopped, with octets still in flight, exactly
  by a FIN in ESTABLISHED or FIN-WAIT-1 and by a plain segment in CLOSE-WAIT, CLOSING or LAST-ACK, unless it is
  the third duplicate (`TcpTimer.SegmentTimer`). A dispatch leaves octets without a timer exactly if none ran on and
  there is more to send (`TcpTimer.EgressTimer`). Together these are, over every run, exactly when octets in flight
  have no timer (`TcpTimer.TimerRuns`). In CLOSE-WAIT what was lost is then never sent again
  (`TcpTimer.LostForever`); `TcpScenario.OctetForgotten` is a run of a new socket in which that happens.
- A keep-alive probe repeats the number before the next one to be sent, with a dummy octet. That number has been
  acknowledged, so that the peer answers and takes nothing (`TcpKeepAlive.ProbeIsAnswered`), if and only if there are
  no octets in flight without a timer (`TcpKeepAlive.ProbeNumber`). Otherwise a peer that lacks the octet takes the
  dummy for it (`TcpKeepAlive.ProbeTakenForData`); `TcpScenario.ProbeReplacesOctet` is a run of a new socket that sends
  such a probe.
- A listener that a RST threw back keeps the MSS of the peer that was reset. A socket goes by what the SYN that opened
  the connection asked for, 536 octets if nothing, if and only if that SYN names an MSS or those before it left the
  default (`TcpPeer.MssExactly`); `TcpScenario.MssOutlivesReset` is a run in which it does not.
- Nagle's algorithm is documented to keep back segments below the MSS while data is in flight. It does, exactly
  unless a FIN is wanted, or an acknowledgement or window update is due, which takes the data along, or the end of
  the ring buffer cuts a full segment (`TcpNagle.NagleExactly`). `TcpScenario.SmallWithAck` and
  `TcpScenario.SmallWithFin` are runs of a new socket in which it does not.
- The fifth hole of a fragmented packet is dropped without a word: the bytes are in the buffer, and `assemble`
  still says incomplete (`Datagrams.FifthHoleIsLost`). A datagram comes out if and only if its size is known and
  every octet lies in a fragment that was not refused when it came (`Datagrams.DatagramReassembled`).
- If a DHCP server gives T2 < T1 and T2 before the end of the lease, `poll_at` asks to be polled when there is
  nothing to do (`DhcpClient.PollLoops`). Over every run it is exact throughout if and only if no lease was
  taken from such a message (`DhcpClient.ScheduleIsExact`). The documentation of `RenewState` demands the
  order; nothing enforces it.
- `poll_at` of the DNS client ignores timeouts: with one silent server the timeout passes after 10 s and
  `poll_at` names 15 s (`DnsSchedule.TimeoutOverlooked`). It is exact if and only if it is due anyway or no
  timeout of a pending query has passed (`DnsSchedule.PollIsExactIff`).
- The IPv6 parser departs from section 2.2 of RFC 4291 in both directions; `Ipv6Language.ParseExactly` gives the
  language it accepts. Beside the standard it takes a third colon between two groups
  (`Ipv6RoundTrip.ThreeColonForm`), a double colon that stands for nothing, and groups after the octets of an
  elided mapped address. It refuses a double colon next to seven groups, such as `1:2:3:4:5:6:7::`
  (`Ipv6RoundTrip.ElidedForm`), and octets after anything but `ffff` (`Ipv6Language.CompatibleRefused`).

## Model

| member | source | states |
|---|---|---|
| `SeqNumbers.WrapDiff` | src/wire/tcp.rs:87-91 | within half the sequence space the wrapped signed difference is the difference of the unbounded positions |
| `SeqNumbers.OffDiff` | src/wire/tcp.rs:75-91 | the same for positions recovered from residues and an origin |
| `SeqNumbers.OffAdd` | src/wire/tcp.rs:47-56 | wrapping addition moves the position by that much |
| `RingBuffer.EnqueueSliceAppends` | src/storage/ring_buffer.rs:216-231 | two contiguous copies append exactly the prefix of the data that there is room for |
| `RingBuffer.DequeueDrops` | src/storage/ring_buffer.rs:397-401 | dequeuing drops a prefix of the queue and adds it at the end of the free region |
| `RingBuffer.GetAllocatedIsPrefix` | src/storage/ring_buffer.rs:352-370 | a request yields a prefix of that piece of the queue, nonempty if there is anything there, and nothing past the end |
| `RingBuffer.WriteUnallocatedWrites` | src/storage/ring_buffer.rs:297-338 | a write that fits the free region lands there whole, across the wrap, and leaves the queue alone |
| `RingBuffer.EnqueueUnallocatedTakes` | src/storage/ring_buffer.rs:344-347 | the front of the free region moves to the end of the queue |
| `RingArray.RingStorage.EnqueueSlice` | src/storage/ring_buffer.rs:181-231 | in place in the array: two copies that do not wrap put the octets where the function puts them |
| `RingArray.RingStorage.DequeueSlice` | src/storage/ring_buffer.rs:239-288 | two copies that do not wrap hand out the front of the queue, as much as is asked for and there |
| `RingArray.RingStorage.WriteUnallocated` | src/storage/ring_buffer.rs:297-338 | in place: the octets land behind the queue, across the wrap, as the function says |
| `RingArray.RingStorage.GetAllocated` | src/storage/ring_buffer.rs:352-370 | the slice the function gives |
| `AssemblerList.AddMeaning` | src/storage/assembler.rs:201-283 | adding a range adds exactly its offsets; it is refused exactly when all contigs are in use and the range touches none of them |
| `AssemblerList.RemoveFrontMeaning` | src/storage/assembler.rs:287-296 | removing the front removes the whole run at 0 and shifts the rest down |
| `AssemblerList.AddThenRemoveFrontMeaning` | src/storage/assembler.rs:304-319 | never refused at offset 0; otherwise both of the above at once |
| `AssemblerList.AddThenRemoveFrontRefuses` | src/storage/assembler.rs:304-319 | refused if and only if all contigs are in use and the range touches none of them, but never at offset 0 |
| `AssemblerList.PeekFrontMeaning` | src/storage/assembler.rs:152-158 | the length reported is exactly that of the run at offset 0 |
| `AssemblerArray.Assembler.Clear` | src/storage/assembler.rs:143-145 | the array then stands for no offsets |
| `AssemblerArray.Assembler.PeekFront` | src/storage/assembler.rs:152-158 | what the list form reports |
| `AssemblerArray.Assembler.IsEmpty` | src/storage/assembler.rs:166-168 | true exactly if no contig is in use |
| `AssemblerArray.Assembler.RemoveContigAt` | src/storage/assembler.rs:171-183 | in place: everything behind moves one place to the left, the last place is empty |
| `AssemblerArray.Assembler.AddContigAt` | src/storage/assembler.rs:186-197 | in place: everything from there moves one to the right; refused, unchanged, exactly if the last place is in use |
| `AssemblerArray.Assembler.FindContig` | src/storage/assembler.rs:206-225 | the contig a range starts in or touches, such that adding from there is adding to the whole list |
| `AssemblerArray.Assembler.CoalesceAt` | src/storage/assembler.rs:247-280 | in place: merging a range into a contig and those it reaches is merging in the list |
| `AssemblerArray.Assembler.Add` | src/storage/assembler.rs:201-283 | in place: the array becomes what adding to the list gives, or is unchanged when that is refused |
| `AssemblerArray.Assembler.RemoveFront` | src/storage/assembler.rs:287-296 | in place: what removing the front of the list gives, and its length |
| `AssemblerArray.Assembler.AddThenRemoveFront` | src/storage/assembler.rs:304-319 | in place: what the list form gives |
| `RttEstimation.EstimatesBounded` | src/socket/tcp.rs:185-249 | over every sequence of samples and retransmissions, estimate and deviation stay below the larger of 10 s and the largest sample, and no 32-bit expression overflows for samples below 2^29 ms |
| `RttEstimation.EstimatesBoundedFromStart` | src/socket/tcp.rs:166-249 | the same from the initial estimate |
| `RttEstimation.ConstantSamplesSettle` | src/socket/tcp.rs:185-189 | with a constant sample c the estimate enters [c, c + 7] after finitely many samples and stays there |
| `RttEstimation.OverflowExactly` | src/socket/tcp.rs:179-201 | samples of at most L never overflow 32 bits, over every run and for every next sample, if and only if L is below 2^29 ms |
| `RttEstimation.TimeoutCoversSample` | src/socket/tcp.rs:179-201 | after any sample the timeout is at least that sample, up to 10 s |
| `RttEstimation.TimeoutSettles` | src/socket/tcp.rs:179-201 | after enough samples of c ms the timeout lies between c + 5 and c + 47 ms: estimate and deviation both settle |
| `RttEstimation.ThirdDoubles` | src/socket/tcp.rs:226-249 | two retransmissions in a row leave the estimate alone, the third doubles it up to 10 s |
| `RttEstimation.BacksOff` | src/socket/tcp.rs:226-249 | of a silent peer the estimate doubles with every third retransmission until it is 10 s |
| `TcpRoundTrip.SendIsMeasured` | src/socket/tcp.rs:203-215 | with no measurement running, a send beyond all before it starts one |
| `TcpRoundTrip.RoundTripIsMeasured` | src/socket/tcp.rs:185-224 | new octets sent and acknowledged next: the time between goes into estimate and deviation with the weights of an eighth and a quarter |
| `RttEstimatorClass.RttEstimator.RetransmissionTimeout` | src/socket/tcp.rs:179-183 | in 32-bit arithmetic, the clamped sum of estimate and margin |
| `RttEstimatorClass.RttEstimator.Sample` | src/socket/tcp.rs:185-201 | in 32-bit arithmetic and in place, casts to signed included, what the function says; asks for nothing but that no expression overflows |
| `RttEstimatorClass.RttEstimator.OnSend` | src/socket/tcp.rs:203-215 | only a number beyond all sent before starts a measurement |
| `RttEstimatorClass.RttEstimator.OnAck` | src/socket/tcp.rs:217-224 | a sample is taken exactly if the measured number is acknowledged, and ends the measurement |
| `RttEstimatorClass.RttEstimator.OnRetransmit` | src/socket/tcp.rs:226-249 | the measurement is dropped; the third time in a row the estimate is doubled up to its maximum |
| `TcpProcess.AcceptanceIsRfc` | src/socket/tcp.rs:1564-1624 | the window test on 32-bit numbers is the acceptability test of section 3.10.7.4 of RFC 9293 on the integers |
| `TcpProcess.Overlap` | src/socket/tcp.rs:1626-1638 | all indices are in bounds; the payload kept is the part inside the window, at its offset, and fits the free space |
| `TcpProcess.AckedBy` | src/socket/tcp.rs:1651-1682 | never more than is buffered is acknowledged; a FIN only with everything before it |
| `TcpPoll.NotDueDoesNothing` | src/socket/tcp.rs:2159-2236 | a socket whose `poll_at` is not due is left unchanged and sends nothing |
| `TcpPoll.DueActs` | src/socket/tcp.rs:2456-2494 | one that is due sends or changes |
| `TcpPoll.PollAtIsExact` | src/socket/tcp.rs:2456-2494 | at every time, in every reachable state: due if and only if `dispatch` acts |
| `TcpPoll.DispatchKeepsInv` | src/socket/tcp.rs:2159-2453 | `dispatch` keeps the invariant, whether or not the device takes the segment |
| `TcpPoll.DispatchRanks` | src/socket/tcp.rs:2187-2211 | a dispatch of a due socket lowers a rank over timers, unsent octets and FIN, pending acknowledgement and window update |
| `TcpPoll.PollingComesToRest` | src/socket/tcp.rs:2159-2453 | at a fixed time, repeated dispatch reaches a state that is not due, and stays there |
| `TcpPoll.RankBound` | src/socket/tcp.rs:2400-2450 | after at most twice the buffered octets plus six calls |
| `TcpInvariant.AckFacts` | src/socket/tcp.rs:1529-1561 | how far an accepted acknowledgement moves the send window, in every synchronised state |
| `TcpInvariant.AckDropsPrefix` | src/socket/tcp.rs:1893-1970 | an ACK drops a prefix of the transmit buffer, as long as it moves `local_seq_no`, less the SYN or FIN |
| `TcpInvariant.StorePayloadKeepsInv` | src/socket/tcp.rs:1977-2013 | recorded ranges stay inside the free window |
| `TcpInvariant.ProcessKeepsInv` | src/socket/tcp.rs:1447-2056 | `process` keeps the invariant for every segment |
| `TcpInvariant.ApplyKeepsInv` | src/socket/tcp.rs:794-1006 | so does every other call |
| `TcpInvariant.RunKeepsInv` | src/socket/tcp.rs:1447-2453 | after any events from any new socket: `local_seq_no <= remote_last_seq <= local_seq_no + len`, plus one only for a SYN, a FIN, an aborted socket or a listener a RST threw back; and recorded ranges lie in the free window |
| `TcpWindow.ShiftWithinRfc` | src/socket/tcp.rs:505-534 | the window shift is at most 14, section 2.3 of RFC 7323, if and only if the capacity is below 2^30 |
| `TcpWindow.ShiftAtGuard` | src/socket/tcp.rs:509-511 | the largest capacity the guard lets through gets 15 |
| `TcpWindow.ShiftedCapacityFits` | src/socket/tcp.rs:664-669 | the shifted capacity fits 16 bits |
| `TcpWindow.AdvertisedFits` | src/socket/tcp.rs:664-669 | a window shifted down and up again never exceeds the free space, and one unit more would, unless the field is full |
| `TcpWindow.OutgoingPromises` | src/socket/tcp.rs:2253-2290 | a sent segment acknowledges the next octet expected and offers the room behind it, no more, and all of it to within a unit of the field; a SYN offers the free space itself up to 65535 |
| `TcpWindow.AckSegmentPromises` | src/socket/tcp.rs:1346-1361 | so it is for a reply |
| `TcpWindow.RemoteWindowBound` | src/socket/tcp.rs:1879-1887 | a received window is at most 2^30 |
| `TcpEdge.EdgeMoves` | src/socket/tcp.rs:1200-1208 | one event moves the right edge of the receive window forward by the octets read or the FIN taken, or not at all |
| `TcpEdge.EdgeNeverMovesBack` | src/socket/tcp.rs:1564-1565 | over every run of a connection the edge never moves back |
| `TcpEdge.InsideStaysInside` | src/socket/tcp.rs:1564-1565 | so a segment that ended inside the window at one point of a connection is never cut on the right at a later one |
| `TcpEdge.EmitsPromise` | src/socket/tcp.rs:1346-1361 | whatever is emitted, on its own or in reply, acknowledges the next octet expected and advertises the free space, no more, and no less than the field and its unit can say |
| `TcpEdge.AdvertisedIsHonoured` | src/socket/tcp.rs:1626-1638 | a segment that ends within the acknowledgement plus the shifted window of any segment ever emitted is never cut on the right at any later point of the connection |
| `TcpChallenge.AckVerdict` | src/socket/tcp.rs:1522-1562 | in a connection an acknowledgement is taken if and only if it is of what is queued or a FIN that is wanted, in SYN-RECEIVED exactly of the SYN; one of more calls for a challenge, and in SYN-RECEIVED any other for a reset |
| `TcpChallenge.ChallengeAnswers` | src/socket/tcp.rs:1403-1417 | an unacceptable segment is acknowledged exactly if the last challenge ACK is a second ago, and moves neither stream |
| `TcpChallenge.ChallengesAreSpaced` | src/socket/tcp.rs:1403-1417 | over every run of a connection no two challenge ACKs go out within a second |
| `TcpStream.AckMovesAlong` | src/socket/tcp.rs:1893-1970 | an acknowledgement moves the sender along its stream: the transmit buffer is again the stream from the new position |
| `TcpStream.SenderAccepted` | src/socket/tcp.rs:1651-1970 | so does any segment, in any state |
| `TcpStream.StoreHolds` | src/socket/tcp.rs:1977-2013 | storing a piece of the peer's stream keeps queue and recorded ranges on the stream, and at offset 0 always succeeds |
| `TcpReceiver.OverlapOnStream` | src/socket/tcp.rs:1564-1638 | what the window test lets through is a piece of the peer's stream, placed where the stream puts it |
| `TcpReceiver.FinCompletesStream` | src/socket/tcp.rs:1690-1693 | a FIN that is acted on comes with all the rest of the stream, uncut |
| `TcpReceiver.ReceiverAccepted` | src/socket/tcp.rs:1695-2013 | the receive side stays on the peer's stream through any segment the peer may have sent |
| `TcpReceiver.ReceiverOpens` | src/socket/tcp.rs:1716-1788 | a SYN starts it at the first octet |
| `TcpSide.ProcessSide` | src/socket/tcp.rs:1447-2056 | delivery of any segment ever sent, however late and however often, keeps both streams and both windows, and every reply is a piece of the stream within the peer's room |
| `TcpEgress.PayloadOfStream` | src/socket/tcp.rs:2300-2341 | the payload of a data segment is the piece of the stream its number says; a FIN is only at the end of the stream |
| `TcpEgress.DispatchSide` | src/socket/tcp.rs:2159-2453 | so is everything `dispatch` sends |
| `TcpEgress.SendSide` | src/socket/tcp.rs:1133-1184 | the octets taken extend the stream |
| `TcpEgress.RecvSide` | src/socket/tcp.rs:1186-1248 | the octets handed out are the next of the peer's stream |
| `TcpEgress.ShutdownSide` | src/socket/tcp.rs:974-995 | closing, in any state, keeps both streams as they are; what it leads to is `TcpClosing.CloseLeadsToFin` |
| `TcpClosing.CloseLeadsToFin` | src/socket/tcp.rs:974-995 | closed in ESTABLISHED or CLOSE-WAIT, with room at the peer for all that is enqueued: all of it and a FIN behind the last octet go out within one dispatch more than there are unsent octets; with nothing unsent the next dispatch sends the FIN, whatever the window |
| `TcpClosing.CloseIsFinal` | src/socket/tcp.rs:974-995 | after `close` nothing can be enqueued; LISTEN and SYN-SENT end in CLOSED; exactly the closed and closing states are left as they are |
| `TcpCalls.ReadsToEnd` | src/socket/tcp.rs:1186-1250 | over every run: while the peer may send or anything is queued `recv_slice` hands out the front of the queue; with the queue empty it says `Finished` in a connection exactly if the peer has closed, and `InvalidState` before the connection is up |
| `TcpCalls.OpensOnce` | src/socket/tcp.rs:832-960 | `listen` and `connect` succeed exactly on a socket that is closed or in TIME-WAIT and addresses that can be reached, `listen` also again on the same endpoint; otherwise nothing changes |
| `TcpCalls.ListensWhereTold` | src/socket/tcp.rs:1419-1445 | after `listen` a segment opens a connection if and only if it is a SYN without acknowledgement to the endpoint given, and names no MSS of 0 |
| `TcpSystem.HappenOk` | src/iface/interface/tcp.rs:21-44 | every event at one end, a refusal by the interface included, keeps the invariant of the two |
| `TcpSystem.StartOk` | src/socket/tcp.rs:832-957 | a connecting and a listening socket start in it |
| `TcpSystem.AfterOk` | src/socket/tcp.rs:1447-2453 | every run of the system stays in it |
| `TcpGraceful.ProcessEffect` | src/socket/tcp.rs:1651-2013 | a segment moves `local_seq_no` only to what it acknowledges, never takes received octets back, and only one with a FIN at the window start completes the stream |
| `TcpGraceful.ProcessKeepsEarly` | src/socket/tcp.rs:1660-1672 | whether the acknowledged FIN is the real one or the SYN's number is settled by whether `close` was called in SYN-RECEIVED, and no segment changes it |
| `TcpGraceful.DispatchSays` | src/socket/tcp.rs:2253-2341 | what `dispatch` sends acknowledges exactly what has been received, and a FIN has the SYN's number exactly while the SYN is unacknowledged |
| `TcpAcknowledged.EventOk` | src/socket/tcp.rs:1447-2453 | every event at either end keeps this: no acknowledgement in flight runs ahead of the receiver, and a FIN received was sent in its place |
| `TcpAcknowledged.TraceFollows` | src/socket/tcp.rs:1447-2453 | so does every run |
| `TcpTheorems.PrefixSafety` | src/socket/tcp.rs:1564-2013 | in every reachable state of two sockets over a lossy, duplicating, reordering network, and in both directions: octets read, then octets queued, are a prefix of the octets the other application enqueued |
| `TcpTheorems.FinishedMeansComplete` | src/socket/tcp.rs:1186-1198 | there, `recv` says `Finished` only to an application that has been given exactly the peer's whole stream, closed by the peer |
| `TcpTheorems.RetransmissionConsistency` | src/socket/tcp.rs:2300-2341 | there, over everything ever transmitted: a sequence number always carries the same octet, all FINs have the same position, and no payload is cut on the right |
| `TcpTheorems.FinsAgree` | src/socket/tcp.rs:2331-2341 | all FINs of a connection have one position: behind the last octet, or the SYN's own if `close` was called in SYN-RECEIVED |
| `TcpTheorems.AcknowledgedIsHeld` | src/socket/tcp.rs:1893-1970 | in every reachable state of the two sockets, in both directions: every octet that was acknowledged, and so dropped from the transmit buffer, the peer has handed out or holds; an acknowledged FIN has been taken |
| `TcpTheorems.GracefulClose` | src/socket/tcp.rs:974-995 | in every reachable state an end in FIN-WAIT-2 or TIME-WAIT has sent a FIN behind its last octet, and the peer has taken it, if and only if its `close` was not called in SYN-RECEIVED |
| `TcpTheorems.LastAckIsGraceful` | src/socket/tcp.rs:1859-1868 | in every reachable state, if a segment other than a reset takes an end from LAST-ACK to CLOSED, the peer has taken its FIN and all before it |
| `TcpTheorems.PayloadWithinLimits` | src/socket/tcp.rs:2303-2327 | for any peer: no payload passes the remote window, the buffered data, the MSS the socket goes by or the MTU; that this is the MSS the peer named is `TcpPeer.PeerMssIsKept` |
| `TcpTheorems.LastIsPushed` | src/socket/tcp.rs:2328-2345 | a segment with data carries PSH or FIN if and only if it carries the last octet enqueued |
| `TcpPeer.PeerIsKnown` | src/socket/tcp.rs:1716-1788 | over every run, whatever arrives: the socket goes by the last MSS a SYN named since `listen` or `connect`, or 536; it reads windows with the scale of the last SYN, and scales its own with the initial shift if every SYN offered to, else not; its endpoints are those of the last SYN |
| `TcpPeer.PeerMssIsKept` | src/socket/tcp.rs:2303-2327 | over every run: no payload sent, probes included, exceeds that MSS, nor what our MTU leaves |
| `TcpPeer.MssExactly` | src/socket/tcp.rs:1719-1728 | that is the MSS of the opening SYN, or 536 if it names none, if and only if it names one or those before it left 536 |
| `TcpScenario.MssOutlivesReset` | src/socket/tcp.rs:1701-1706 | a run of a new socket, SYN, RST and SYN without MSS, after which it goes by the MSS of the first |
| `TcpPeer.OnlyThePeer` | src/socket/tcp.rs:1419-1445 | over every run: a connection is left as it is by any segment not from the endpoint whose SYN opened it to the one it was sent to, and everything it sends goes there |
| `TcpMtu.PacketsFit` | src/socket/tcp.rs:2385-2389 | over every run of two sockets that keep their MTUs: every packet with data fits both MTUs, headers included, and every SYN names as MSS what its sender's MTU leaves |
| `TcpTheorems.CloseInSynReceivedLosesFin` | src/socket/tcp.rs:1660-1672 | `close` in SYN-RECEIVED, then the ACK of the SYN, gives FIN-WAIT-2 whether or not a FIN was sent; without `close` it gives ESTABLISHED |
| `TcpKarn.OpenedBegins` | src/socket/tcp.rs:832-957 | a closed socket told to connect or to listen is at the beginning of a connection |
| `TcpKarn.SendMatches` | src/socket/tcp.rs:203-215 | sending starts a measurement only of an octet never sent before, also when old and new data share a segment |
| `TcpKarn.ProcessRtt` | src/socket/tcp.rs:1677-1680 | a segment changes the estimator exactly by the sample taken from it, if any |
| `TcpKarn.KarnsRule` | src/socket/tcp.rs:2187-2211 | in every reachable state of a connection, under arbitrary segments: a sample is the time since the one and only transmission of an octet this segment is the first to acknowledge (section 3 of RFC 6298); also for a listener used before, if nothing in its estimator can be mistaken |
| `TcpKarnRestart.OldMeasurementSampled` | src/socket/tcp.rs:217-224 | with a measurement left running there is an initial number, a run and an ACK that completes it with a time at which this connection did not send |
| `TcpKarnRestart.OldHighestMisleads` | src/socket/tcp.rs:203-215 | with a highest number left over there is an initial number and a run in which an octet sent twice is measured |
| `TcpKarnRestart.ClearRule` | src/socket/tcp.rs:203-224 | for one initial number the rule holds in every run if no measurement runs and the leftover is not half the space behind |
| `TcpKarnRestart.RuleExactly` | src/socket/tcp.rs:203-224 | for a listener the rule holds for all initial numbers and runs if and only if its estimator has neither |
| `TcpKarnRestart.ThrownBack` | src/socket/tcp.rs:1701-1706 | after a RST in SYN-RECEIVED this is decided by the estimator before the RST |
| `TcpTimer.SegmentTimer` | src/socket/tcp.rs:1790-1970 | any segment: nothing comes to be in flight by it, and with octets still in flight the timer runs after it exactly if it ran and no stopping arm took the segment, or the segment is taken as the third duplicate |
| `TcpTimer.AllAckedStops` | src/socket/tcp.rs:1790-1860 | a segment the state machine goes on with that acknowledges all that was sent stops the timer, in every state of a connection |
| `TcpTimer.EgressTimer` | src/socket/tcp.rs:2187-2440 | with octets in flight after `dispatch`, a timer runs if and only if one ran on or all that could be sent was sent |
| `TcpTimer.TimerRuns` | src/socket/tcp.rs:1790-2440 | over every run from any new socket: octets are in flight without a timer if and only if a stopping segment or a send with more to send left them so, and neither a third duplicate nor a send of all has come since |
| `TcpTimer.LostForever` | src/socket/tcp.rs:1855-1857 | in CLOSE-WAIT an ACK of a part of what is in flight leaves the rest in flight, and `dispatch` does nothing about it in any later context |
| `TcpEffect.ArriveEffect` | src/socket/tcp.rs:1694-1955 | any segment in a connection: the user timeout counts anew exactly if the state machine goes on with it; a retransmit timer is never moved; TIME-WAIT lasts 10 s from the segment that leads to it or the last out of the window; what the peer was told changes exactly by a reply |
| `TcpClock.DispatchTimer` | src/socket/tcp.rs:338-355 | the timer after any dispatch: after sending all that could be sent with no timer running it expires `1000 * min(max(rtt + max(5, 4 * deviation), 10), 10000)` µs later; one left to expire waits for its delay, then twice that; otherwise it stays |
| `TcpClock.RetransmitsOnTime` | src/socket/tcp.rs:2181-2208 | over every run: all is sent again if and only if there is nothing new to send, the user timeout has not passed, and the wait begun by the send that set the timer is over or fast retransmission was called for; without a third duplicate never before that wait of at least 10 ms |
| `TcpClock.GivesUpExactly` | src/socket/tcp.rs:2058-2063 | over every run: a connection is given up with a RST if and only if a timeout is set and nothing was heard for that long, counted from the first dispatch if the peer has not been heard since |
| `TcpClock.TimeWaitLasts` | src/socket/tcp.rs:361-365 | over every run: TIME-WAIT lasts 10 s, and two dispatches after that end in CLOSED; before, only giving up ends it |
| `TcpScenario.OctetForgotten` | src/socket/tcp.rs:1855-1857 | a run of a new socket, whatever its buffers: handshake, peer's FIN, two octets sent, one acknowledged; the other is in flight without a timer for good |
| `TcpRecovery.ResendsFirst` | src/socket/tcp.rs:2185-2208 | a retransmission starts at the first unacknowledged octet, SYN or FIN, and carries what is queued there |
| `TcpRecovery.ThreeDuplicates` | src/socket/tcp.rs:1913-1960 | in every state that may have data in flight, three repetitions of an acknowledgement lead to that at the next dispatch with nothing new to send; two leave the timer alone in ESTABLISHED and FIN-WAIT-1 |
| `TcpTold.NothingLeftUnsaid` | src/socket/tcp.rs:2140-2157 | over every run: if more was received than the last segment sent acknowledged, or there is more room than it said, the next dispatch after the acknowledgement delay acknowledges everything and offers all the room |
| `TcpAckTiming.DataStartsDelay` | src/socket/tcp.rs:2020-2039 | data in order is owed an acknowledgement and not answered at once: it starts the delay if none runs and ends it if one does |
| `TcpAckTiming.DataIsAcknowledged` | src/socket/tcp.rs:2132-2138 | it is acknowledged to its last octet by the first dispatch once the delay has passed, at once if data was waiting; no acknowledgement goes out for its own sake before |
| `TcpAckTiming.GapIsAnswered` | src/socket/tcp.rs:2042-2055 | data behind a hole or in one is answered at once with what is expected and all the room |
| `TcpKeepAlive.ProbesOnTime` | src/socket/tcp.rs:318-336 | over every run with one interval and a clock that does not go back: no probe before the interval has passed since the last send; with nothing else timed, something is sent once it has passed since anything happened |
| `TcpKeepAlive.ProbeNumber` | src/socket/tcp.rs:2352-2359 | a probe carries one octet with the number before the next; that number is acknowledged if and only if no octets are in flight without a timer |
| `TcpKeepAlive.ProbeIsAnswered` | src/socket/tcp.rs:1575-1647 | a peer that has that octet takes nothing from the probe and answers with what it expects |
| `TcpKeepAlive.ProbeTakenForData` | src/socket/tcp.rs:1575-1647 | a peer that lacks it takes the dummy octet for data |
| `TcpScenario.ProbeReplacesOctet` | src/socket/tcp.rs:2352-2359 | a run of a new socket that sends a probe with the number of an octet in flight |
| `TcpReset.ResetEnds` | src/socket/tcp.rs:1330-1344 | a RST in reply to whatever a connection sends ends it; a listener is back in LISTEN |
| `TcpReset.RefusalIsHeard` | src/socket/tcp.rs:1330-1344 | a RST in reply to the SYN of `connect` closes the socket |
| `TcpReset.HalfOpenIsReset` | src/socket/tcp.rs:1492-1528 | a socket that starts anew answers what the other end sends on the old connection with a RST, and that ends the old connection |
| `TcpNagle.NagleExactly` | src/socket/tcp.rs:2107-2131 | with the algorithm on and octets in flight, in every state that may send data, less than the MSS is sent if and only if that is what window, queue and ring end leave for one segment, and a FIN is wanted, an ACK or window update is due, or a full segment could be sent |
| `TcpScenario.SmallWithAck` | src/socket/tcp.rs:2217-2222 | a run of a new socket, whatever its buffers, that sends one octet with another in flight because the peer's FIN is to be acknowledged |
| `TcpScenario.SmallWithFin` | src/socket/tcp.rs:2119-2121 | and one that does so because the application has closed, with nothing to acknowledge |
| `TcpProgress.HandshakeConnects` | src/socket/tcp.rs:1716-1788 | any connecting and any matching listening socket are connected by three segments; each end then expects what the other sends next, goes by the MSS the other's MTU leaves, and reads its windows with the shift it applies |
| `TcpProgress.InOrderIsTaken` | src/socket/tcp.rs:1972-2013 | a segment at the window start that fits is appended whole to what the application can read |
| `TcpSocket.Socket.constructor` | src/socket/tcp.rs:498-552 | a new socket satisfies the invariant |
| `TcpSocket.Socket.Reset` | src/socket/tcp.rs:794-825 | the estimator, the assembler and both rings are cleared in place, and everything but the settings and the duplicate count is forgotten |
| `TcpSocket.Socket.Listen` | src/socket/tcp.rs:832-862 | in place: what the function says, errors included, and the invariant |
| `TcpSocket.Socket.Connect` | src/socket/tcp.rs:903-957 | likewise |
| `TcpSocket.Socket.SendSlice` | src/socket/tcp.rs:1133-1184 | the octets taken are written into the transmit array; what the function says, and the invariant |
| `TcpSocket.Socket.RecvSlice` | src/socket/tcp.rs:1186-1248 | the octets are copied out of the receive array; what the function says, `Finished` included |
| `TcpSocket.Socket.TakeControl` | src/socket/tcp.rs:1677-1874 | the estimator takes its sample in place, then the state machine moves; neither touches a buffer |
| `TcpSocket.Socket.TakeAck` | src/socket/tcp.rs:1876-1970 | acknowledged octets leave the transmit ring in place; window, numbers and duplicate count as the function says |
| `TcpSocket.Socket.Store` | src/socket/tcp.rs:1977-2013 | the assembler's array and the ring's array are written in place, or neither is when the assembler refuses |
| `TcpSocket.Socket.TakePayload` | src/socket/tcp.rs:1972-2055 | that, the delayed acknowledgement, and the reply to what is out of order |
| `TcpSocket.Socket.Process` | src/socket/tcp.rs:1447-2056 | in place: the new state and the reply are those of the function, and the invariant holds |
| `TcpSocket.Socket.Prepare` | src/socket/tcp.rs:2159-2211 | the clock, giving up and the rewind, with the estimator told in place |
| `TcpSocket.Socket.Emitted` | src/socket/tcp.rs:2400-2453 | the bookkeeping after a send as the function says, with the timeout computed in 32 bits; when the timer then expires is `TcpClock.DispatchTimer` |
| `TcpSocket.Socket.Dispatch` | src/socket/tcp.rs:2159-2453 | the new state and the segment sent are those of the function, and the invariant holds |
| `TcpSocket.Socket.PollAt` | src/socket/tcp.rs:2456-2494 | due if and only if `Dispatch` would act |
| `Fragments.ActOk` | src/iface/fragmentation.rs:79-181 | every action on a slot keeps each recorded offset equal to the last byte written there; a packet handed out is made of such bytes |
| `Fragments.Find` | src/iface/fragmentation.rs:215-225 | the slot that holds the key, or else a free one, or none if all hold others |
| `Fragments.StepOk` | src/iface/fragmentation.rs:210-238 | one operation under a key, or expiry, keeps the slots faithful to a plain map from keys to writes |
| `Datagrams.ReassemblyIsIsolated` | src/iface/fragmentation.rs:79-238 | for any interleaving under any keys: busy slots have distinct keys, and a packet consists of the bytes last written under its key since the slot was taken, whatever the buffer held |
| `Datagrams.ActGathers` | src/iface/fragmentation.rs:87-181 | every action about one datagram keeps the slot gathering it, whenever its size becomes known, unless the datagram comes out |
| `Datagrams.DatagramReassembled` | src/iface/fragmentation.rs:87-238 | pieces of one datagram under one key in any order, duplicated or overlapping, its size set at any point among them, anything under other keys and any expiry in between: `assemble` gives exactly the datagram if its size is known and every octet lies in a piece that was not refused, else nothing |
| `Datagrams.FragmentsComplete` | src/iface/interface/ipv4.rs:105-138 | in terms of the operations alone: if none failed and the slot did not expire, the datagram comes out if and only if its size was set and all its octets were taken |
| `Datagrams.RecordedIsTaken` | src/iface/fragmentation.rs:161-162 | the assembler has recorded exactly the octets of fragments that were not refused when they came |
| `Datagrams.NothingLost` | src/iface/fragmentation.rs:161-162 | if none was refused that is every octet that has come |
| `Datagrams.FewAreNeverRefused` | src/iface/fragmentation.rs:161-162 | four fragments are never too many |
| `Datagrams.InOrderIsNeverRefused` | src/iface/fragmentation.rs:161-162 | nor is any number of fragments in order |
| `Datagrams.FifthHoleIsLost` | src/iface/fragmentation.rs:141-187 | all ten octets of a datagram added, the last while four runs were recorded: every add is answered as done, and `assemble` says incomplete |
| `FragmentExpiry.HeldUntilDeadline` | src/iface/fragmentation.rs:210-239 | over every run: a slot is held for a key if and only if its packet has not come out and the time given with its first fragment had not passed at any `remove_expired` since |
| `FragmentExpiry.RefusesExactly` | src/iface/fragmentation.rs:87-165 | a size is refused exactly if another was announced or the buffer cannot hold it, a fragment exactly if the buffer cannot; what is refused changes nothing |
| `FragmentExpiry.SizeStays` | src/iface/fragmentation.rs:87-107 | whatever is done, an announced size stays while its slot is held |
| `PacketAssemblers.PacketAssembler.Reset` | src/iface/fragmentation.rs:79-84 | in place: the slot is free; the buffer keeps its bytes |
| `PacketAssemblers.PacketAssembler.SetTotalSize` | src/iface/fragmentation.rs:87-106 | in place: what the function says, in both kinds of build |
| `PacketAssemblers.PacketAssembler.AddWith` | src/iface/fragmentation.rs:113-133 | likewise, also when the closure fails after writing |
| `PacketAssemblers.PacketAssembler.Add` | src/iface/fragmentation.rs:141-163 | likewise |
| `PacketAssemblers.PacketAssembler.Assemble` | src/iface/fragmentation.rs:167-181 | likewise |
| `PacketAssemblers.PacketAssemblerSet.Get` | src/iface/fragmentation.rs:210-229 | the loop finds the slot the function finds, and takes it |
| `PacketAssemblers.PacketAssemblerSet.RemoveExpired` | src/iface/fragmentation.rs:232-238 | the loop frees exactly the expired slots |
| `DhcpClient.ParseAck` | src/socket/dhcpv4.rs:442-538 | a lease is granted exactly for a usable mask and address; it is for that address and mask, of that server, ends after the capped duration and starts in renewing |
| `DhcpLease.LeaseTerms` | src/socket/dhcpv4.rs:469-536 | lease, T1 and T2 in microseconds: as given, else 120 s, one half and seven eighths, or by the rules for one of them given, the lease capped |
| `DhcpLease.UnicastsInOrder` | src/socket/dhcpv4.rs:477-490 | the DNS servers kept are the single addresses, in order |
| `DhcpLease.ConfiguredIsGranted` | src/socket/dhcpv4.rs:732-751 | over every run: a configuration that `poll` reports has address, mask, router and DNS servers of the last ACK that granted a lease and the server of the OFFER taken, and is reported once |
| `DhcpLease.RequestsFollow` | src/socket/dhcpv4.rs:608-686 | over every run: a DISCOVER without an offer; a REQUEST to everyone for the address offered, naming the server; within a lease a REQUEST from the address granted, to that server before T2 and to everyone after |
| `DhcpLease.NextAfterSend` | src/socket/dhcpv4.rs:608-711 | when the next message is due: the discover timeout, a request timeout that doubles with every second request, half the time left until T2 or the end of the lease within the limits |
| `DhcpLease.DefaultSchedule` | src/socket/dhcpv4.rs:130-140 | the same with the settings of a new socket, in numbers |
| `DhcpLease.RequestsAreCounted` | src/socket/dhcpv4.rs:628-658 | as many requests as configured, then discovery again |
| `DhcpLease.RefusalIsHeard` | src/socket/dhcpv4.rs:334-433 | a NAK restarts discovery and ends the lease unless it is to be ignored; a message not for us, of another transaction or without server identifier does nothing |
| `DhcpLease.RenewalIsReported` | src/socket/dhcpv4.rs:402-427 | a renewal is reported if and only if it changes the configuration or a report was due |
| `DhcpLease.ReportsChanges` | src/socket/dhcpv4.rs:718-751 | over every run: `poll` reports something if and only if what holds has changed since it was last called, or it never was |
| `DhcpLease.OfferIsRequested` | src/socket/dhcpv4.rs:367-382 | an offer is answered with a request at once |
| `DhcpClient.LeaseOrdered` | src/socket/dhcpv4.rs:500-535 | its timers are in order if and only if the server did not give T1 > T2 |
| `DhcpClient.DefaultTimers` | src/socket/dhcpv4.rs:504-525 | without T2 from the server, T1 <= T2 <= lease |
| `DhcpClient.PollIsExact` | src/socket/dhcpv4.rs:290-302 | `poll_at` is due if and only if `dispatch` acts, if rebinding does not come before both renewing and expiry |
| `DhcpClient.PollLoops` | src/socket/dhcpv4.rs:290-302 | otherwise it is due at a time when nothing happens |
| `DhcpClient.GrantedIsSound` | src/socket/dhcpv4.rs:500-537 | the lease an ACK grants can be polled exactly if and only if the message does not give T2 < T1 with T2 before the end of the capped lease |
| `DhcpClient.SendMovesOn` | src/socket/dhcpv4.rs:608-711 | with positive timeouts every send moves the next poll strictly past now |
| `DhcpClient.BackoffDoesNotWrap` | src/socket/dhcpv4.rs:651-654 | the doubled timeout fits 64 bits if the last one does |
| `DhcpClient.RenewGaps` | src/socket/dhcpv4.rs:686-710 | renewals are at least the smaller of minimum and maximum apart, or end exactly at T2 |
| `DhcpClient.TwoCallsRest` | src/socket/dhcpv4.rs:608-711 | at one instant two calls of `dispatch` are enough |
| `DhcpClient.ScheduleIsSound` | src/socket/dhcpv4.rs:290-302 | over every run in which no server gives T1 > T2: `renew_at <= rebind_at`, and `poll_at` is exact |
| `DhcpClient.ScheduleIsExact` | src/socket/dhcpv4.rs:290-302 | over any run `poll_at` is exact in every state if and only if no lease was taken from such a message |
| `DhcpClient.ViewAgrees` | src/socket/dhcpv4.rs:732-751 | over every run: whenever no change is pending, the last event `poll` returned is the present configuration, or `Deconfigured` if there is none |
| `DhcpClient.LeaseEnds` | src/socket/dhcpv4.rs:659-666 | `dispatch` ends a lease if and only if it has expired, and flags it |
| `DhcpClient.OnlyAckExtends` | src/socket/dhcpv4.rs:338-340 | only an ACK with our own last transaction id moves the expiry |
| `DhcpSocket.Socket.Reset` | src/socket/dhcpv4.rs:718-726 | in place, what the function says |
| `DhcpSocket.Socket.Process` | src/socket/dhcpv4.rs:304-440 | likewise |
| `DhcpSocket.Socket.Dispatch` | src/socket/dhcpv4.rs:550-712 | likewise, with the message offered to the device |
| `DhcpSocket.Socket.Poll` | src/socket/dhcpv4.rs:732-751 | likewise, with the event |
| `NeighborCache.FillMeaning` | src/iface/neighbor.rs:79-131 | filling never fails: the address gets its entry, every other keeps its own, except that a full cache drops one that expires first |
| `NeighborRecency.FoundIsLatest` | src/iface/neighbor.rs:133-159 | over every run an address is found if and only if it is held and its latest fill since the last flush has not expired, and the answer is that fill; otherwise the silence alone decides |
| `NeighborRecency.DiscoveryIsLimited` | src/iface/interface/mod.rs:991-1066 | over every run no two discovery requests go out within a second, whatever the addresses |
| `NeighborRecency.HoldsMostRecent` | src/iface/neighbor.rs:66-131 | if each fill expires later than those before, the cache holds exactly the most recently filled distinct addresses it has room for |
| `NeighborCache.Cache.FindOldest` | src/iface/neighbor.rs:106-113 | the first entry that expires no later than any other |
| `NeighborCache.Cache.FillWithExpiration` | src/iface/neighbor.rs:79-131 | in place, what the function says; the second insertion cannot fail |
| `NeighborCache.Cache.FillNow` | src/iface/neighbor.rs:66-77 | for one minute |
| `NeighborCache.Cache.LookUp` | src/iface/neighbor.rs:133-151 | found, rate limited or not found |
| `NeighborCache.Cache.Flush` | src/iface/neighbor.rs:157-159 | nothing is held |
| `Ipv6Text.PartsBounds` | src/parsers.rs:163-246 | on every text the recursion ends, reads something, and fills at most eight head and six tail groups of 16 bits |
| `Ipv6RoundTrip.NumberParses` | src/parsers.rs:109-125 | any spelling of a number is read as that number, up to the first character that is no digit |
| `Ipv6RoundTrip.FullForm` | src/parsers.rs:163-281 | eight groups in any spelling parse to that address (section 2.2 of RFC 4291) |
| `Ipv6RoundTrip.ElidedForm` | src/parsers.rs:163-281 | any groups, a double colon, any groups: the address with the elided zeros if at most six are on either side and eight in all, and refused otherwise |
| `Ipv6Language.MappedForm` | src/parsers.rs:151-218 | the dotted form of a mapped address parses back to it, with its zero groups written out, partly written out or elided |
| `Ipv6RoundTrip.ThreeColonForm` | src/parsers.rs:169-190 | with three colons the same is accepted exactly if there are groups on both sides |
| `Ipv6Language.FormParses` | src/parsers.rs:151-281 | every form of the grammar in `Form` parses to the eight groups it stands for |
| `Ipv6Language.ParsedIsForm` | src/parsers.rs:151-281 | whatever parses is one of these forms, with that meaning |
| `Ipv6Language.ParseExactly` | src/parsers.rs:72-281 | so on every text: it parses to an address if and only if it is a form that means it |
| `Ipv6Language.CompatibleRefused` | src/parsers.rs:209-218 | octets right after the double colon are refused |
| `Ipv6Parser.Parser.AcceptNumber` | src/parsers.rs:109-125 | the loop with its rollback reads what the function reads |
| `Ipv6Parser.Parser.AcceptOctets` | src/parsers.rs:283-292 | four octets with dots, as two groups |
| `Ipv6Parser.Parser.AcceptSeparator` | src/parsers.rs:169-190 | a double colon, a colon or nothing, rolled back where the code rolls back |
| `Ipv6Parser.Parser.AcceptGroup` | src/parsers.rs:192-231 | in place in the head or tail array, what the function says |
| `Ipv6Parser.Parser.AcceptPart` | src/parsers.rs:163-246 | the recursion over the two arrays, what the function says, all indices in bounds |
| `Ipv6Parser.Parser.AcceptAddress` | src/parsers.rs:249-281 | the tail copied to the end gives the address |
| `Ipv6Parser.Parser.ParseIpv6` | src/parsers.rs:72-79 | only if the whole text is read |
| `DnsName.EncodeRoundTrip` | src/socket/dns.rs:223-275 | a name is accepted exactly if every label has 1 to 63 octets and the whole fits; what is sent reads back as the name without its trailing dot |
| `DnsName.TrailingDotIgnored` | src/socket/dns.rs:236-239 | a trailing dot makes no difference |
| `DnsClient.AtMostFour` | src/socket/dns.rs:558-585 | a fifth transmission to one server would come after the timeout |
| `DnsClient.EffortCountsSends` | src/socket/dns.rs:528-640 | the transmissions counted are exactly those `dispatch` makes |
| `DnsClient.EffortIsBounded` | src/socket/dns.rs:528-640 | over every run with a clock that does not go back: at most 4 transmissions to the present server, and 4 times the number of servers in all |
| `DnsClient.DelaysDouble` | src/socket/dns.rs:629-634 | over every run of that kind a query is sent again 1, 2, 4 and 8 s after it was last sent to the same server |
| `DnsServers.ServersInTurn` | src/socket/dns.rs:549-612 | over every run: a query is sent to its n-th server exactly after n - 1 timeouts, and each server before had more than 10 s |
| `DnsSchedule.UnansweredFail` | src/socket/dns.rs:534-640 | passes of `dispatch` over all slots, more than a timeout apart, as many as servers are left in all queries together: nothing is pending after them, whatever the device does |
| `DnsSchedule.ActsExactly` | src/socket/dns.rs:534-654 | `dispatch` acts if and only if `poll_at` is due or a timeout or server needs seeing to |
| `DnsSchedule.PollIsExactIff` | src/socket/dns.rs:642-654 | over every run with fixed servers: `poll_at` is exact if and only if it is due or no timeout of a pending query has passed |
| `DnsSchedule.TimeoutOverlooked` | src/socket/dns.rs:642-654 | a run after which the timeout of a query has passed and `poll_at` names a time up to five seconds later |
| `DnsSocket.EncodeName` | src/socket/dns.rs:223-275 | the loop over the labels builds what the function says |
| `DnsSocket.Socket.FindFreeQuery` | src/socket/dns.rs:200-216 | the first free slot, or a new one if slots may grow |
| `DnsSocket.Socket.StartQuery` | src/socket/dns.rs:281-306 | a fresh query in that slot, or no free slot |
| `DnsSocket.Socket.Dispatch` | src/socket/dns.rs:528-640 | the loop over the slots does what the function says, up to the first query sent |

## Left out

- Devices, sockets other than TCP, DHCP and DNS, the socket set, routes, the wire formats and checksums:
  segments, messages and records are datatypes here.
- Congestion control and selective acknowledgement: the controller is `None`, no SACK option is sent.
- Hop limits, wakers, logging, `peek`, the closure forms of `send` and `recv`: only slices are sent and read.
- Overflow of `Instant` and `Duration`: times are unbounded integers.
- A transmit buffer of 2^31 - 1 octets or more, for which adding its length to a sequence number panics.
- Keep-alive in the stream theorems, Karn's rule and Nagle's algorithm: a probe carries a dummy octet that is not
  of the stream, which `TcpKeepAlive` is about. `poll_at`, the invariant, the clocks and coming to rest cover it.
- More than one connection per socket pair in the stream theorems, and streams of 2^30 octets or more. A
  listener thrown back by a RST answers the next SYN with the same initial number there.
- TcpSystem: the interface may also refuse a segment with an unspecified address, which only adds behaviours.
- TcpPoll.PollingComesToRest: requires a keep-alive interval other than 0, without which a probe is always due.
- TcpEdge.AdvertisedIsHonoured: for segments not more than half the sequence space old, as 32-bit numbers cannot tell more.
- TcpAckTiming.DataIsAcknowledged: for data less than 2^30 octets past what was last acknowledged, as 32-bit numbers cannot
  tell much more.
- TcpKarnRestart.RuleExactly: for a transmit buffer of at least two octets, which its failing run fills.
- TcpSocket.Socket: what is neither buffer nor estimate is one record, the decisions that only read are functions
  of the object's value, and `close` and `abort`, which set one component, are not repeated. `Process` and
  `Dispatch` ask that the estimator's arithmetic has room, which `RttEstimation.OverflowExactly` settles.
- The DHCP receive packet buffer and outgoing options; a usable acknowledgement with only T1, beyond the lease,
  which panics (`DhcpClient.NoPanic`).
- DnsClient: answers are events that complete or fail a query; parsing them and following CNAMEs are left out.
- Ipv6Text: endpoints, CIDR blocks and Ethernet addresses.
- Forwarding of fragments and the sending side of fragmentation.
