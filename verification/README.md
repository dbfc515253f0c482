# A verified model of the ESP8266 multicast-DNS responder, OTA client and SPI link

The project models three parts of the repository and proves what they are for.

**The multicast-DNS responder** (`src/mdns.c`, `src/mdns_networking.c`):

- *Names on the wire* (`Bytes`, `Names`, `RoundTrip`, `Pointers`, `Search`, `Tidy`, `Encoder`, `Limits`, `TextLimits`).
  The encoder compresses a name by searching the packet for an earlier occurrence (section 4.1.4 of RFC 1035); the
  decoder follows pointers backwards. A packet under construction is seen through its `view`: the written bytes, with a
  HOLE wherever a value is still to be patched. Everything that is written stays readable while the packet grows and
  its holes are filled.
- *Records and packets* (`Records`, `TidyRecords`, `RecordWriter`, `PacketWriter`, `Dispatch`, `Tameness`, `Parser`,
  `PacketRoundTrip`, `Responses`, `Txt`, `TieBreak`, `Collisions`). What the serialiser writes and what the receiving
  walk makes of it, the response to a parsed packet, TXT data, the SRV tie-break, and where a record of the host's own
  leads to a service that is not there.
- *The probe/announce machine* (`TxQueue`, `Packets`, `Pcbs`, `Responder`, `Steps`, `Sending`, `Events`, `Deletion`,
  `Interfaces`, `Runs`, `Turns`, `HandOver`, `Progress`, `Repeats`, `Mishaps`, `Lists`, `MdnsServer`). Six PCBs share
  one queue sorted by send time. The timer task posts due packets, the service task sends them, and users, received
  packets and interfaces interfere at any point. `MdnsServer.Server` is the object with its fields updated in place;
  each of its methods is tied to a function on `Responder.State`, and the invariant is proved about those functions and
  carried to every reachable state. The PCB states, the packet size and the buffer sizes are those of
  `vendor/components/mdns/private_include/mdns_private.h`.
- *Both together* (`Transmission`). What a packet of the queue becomes on the wire, and what another host reads of it.

**The over-the-air client** (`Ota`, `OtaCuts`, `OtaLimits`): cuts one slice out of an HTTP body that arrives in chunks.

**The SPI link** (`Spi`, `SpiDelivery`): a byte stream from a master to a slave under a handshake line.

## What is taken for granted

- *Names.* A name is well formed if it has one to four labels of 1 to 63 bytes without NUL, none of them `_sub`, and a
  second label that the decoder keeps apart (it starts with `_`, or is `local`, `ip6` or `in-addr`).
- *Compression.* The encoder accepts a candidate without checking that it lies before the name that is being written,
  that the name it decodes ends inside the written part, in bytes that are final, and that it has exactly the labels
  wanted. `Pointers.PointerExact` shows on offsets that these three together are exactly what is needed; it leaves open
  only a candidate of which the end of the written part, or a value still to be patched, cuts a label or a pointer.
  `Writer.safe` notes whether every candidate pointed to met them, and `Writer.complete` whether no append has failed,
  not even one whose failure the code hides.
- *When packets are whole.* A packet that is tame and fits is written completely, all its pointers are safe, and another
  host understands it; the condition can be checked before the packet is built (`Tameness.FittingPacket`). Tame means:
  every name has at most four labels, all different, each of 2 to 31 printable characters without `=` and none `_sub`;
  priority and weight are zero; TXT items are printable and take less than 256 bytes; nothing in an address looks like a
  label; question types are below 256. In a buffer of zeros the packet fits if its size without compression is below
  1460. The buffer is static and is zero only before the first packet. In a buffer that still holds an earlier packet,
  whatever that is, a label that ends the written part might seem to go on in what is left there, so more is asked:
  labels of 2 to 11 characters, a size below 256, and no port or address that ends like the length of such a label
  (`TidyRecords.SteadyPort`, `Tidy.Tail`). `Encoder.TargetExact` says when exactly a pointer is safe there. For other
  packets the results have `complete` and `safe` as hypotheses; `Search.DropsExact` says when exactly a name is dropped
  although there is room for it.
- *Flags on the stack.* The `invalid` flag of each search starts as whatever was on the stack (`stack` in
  `Search.Encode`); the results hold for all its values, and the examples of `Limits` and `TextLimits` are about a flag
  that is not raised.
- *Responder.* A hostname is set, memory suffices except where an announcement is made from a probe, service types are
  unique, actions name registered services, the millisecond clock does not wrap, and packets are received on PCBs that
  are up. An address of a freed packet may be used again at once.
- *OTA.* The number of partitions is positive and the content length fits 32 bits. A response is said to declare its
  length if its header is whole and the first `Content-Length` line in it is complete and gives a positive number, with
  no zero byte before (`OtaCuts.Declares`).
- *SPI.* Transfers are lossless and in order, and the direction from the slave to the master is idle.

Where the code does less than its purpose asks for, the code is modelled as it is:

- Pointing to a candidate that matches part by part does not always give the name back. For the host name `local` in a
  buffer of zeros the encoder points into the very name it is writing (`Limits.LocalTwice`). A name spelled in a TXT
  value, in a packet as the serialiser writes it, may have a label too many (`TextLimits.SubInText`,
  `TextLimits.FifthInText`). `Pointers.PointerExact` says when pointing does give the name back.
- A name is dropped, although there is room, when the search meets a place that cannot be read before one that it takes
  (`Search.DropsExact`); the second name of the host `local` is (`Limits.LocalAgain`).
- An SRV or TXT record owned by the bare host name, of another class than IN, leads to a service that is not there, and a
  null pointer is followed; `Collisions.SrvNull` and `Collisions.TxtNull` say when, `Collisions.NullReceived` is a
  received packet.
- The SRV tie-break looks at lengths first, where section 8.2 of RFC 6762 compares byte by byte; `TieBreak.AgainstRfc`
  says when the two agree, `TieBreak.ShorterHostLoses` is a pair on which they do not.
- TXT strings come back as they were if and only if all are clean (`Txt.TextExact`).
- Any packet of an announcing PCB moves its announcements on. An announcement leaves at least twice, a second apart, if
  and only if at most one other packet of its PCB leaves before it (`Repeats.AnnouncedTwice`); `Mishaps.LeavesOnce` is a
  run in which two shared responses come first and it leaves once.
- Suppression follows a null pointer when a shared response has lost all its answers; `Mishaps.EmptiedExact` says when it
  comes to that, `Mishaps.NullFollowed` is a run.
- The OTA client's first write may go beyond its slice; `Ota.FirstWriteExact` says when it does not,
  `Ota.FirstWriteTooLong` is a part for which it does.
- What the OTA client takes for the content length may depend on the cut into chunks. `OtaLimits.CutsDiffer` has two
  cuts of one response that lead to different writes, `OtaLimits.ZeroByteCuts` two in which a zero byte at the start of a
  header line hides the end of the header or does not. For a response that declares its length all cuts agree
  (`OtaCuts.CutsAgree`); with parts of at least 1024 bytes that holds of all chunks that can be received
  (`OtaCuts.LargePartsAgree`). A response without any length is never written (`OtaCuts.WithoutLength`).
- The SPI slave looks for bytes where it would have to look for room before it raises the line again;
  `Spi.LossHappens` is a run that loses bytes, `Spi.RaisedTooEarly` says when none are lost. Nothing is lost in any run
  in which the reading task is not disturbed between reading and looking again (`SpiDelivery.UndisturbedConserved`).
- The response builder would turn round for ever on a question for a service that is not registered;
  `Responses.BuilderEnds` says so, and `Responses.ReceivedAnswerable` that no received packet leads there.

## Model

| member | source | states |
|---|---|---|
| `Names.ReadFqdn` | src/mdns.c:177-220 | Decoding ends on every packet, cyclic pointers included, because the start offset falls; the outcome and the stored parts, count and flags are the fold over the flattened label sequence |
| `Names.Store` | src/mdns.c:179-211 | One decoded label or pointer leaves at most four parts, each within its buffer |
| `Names.NameBuffer.Take` | src/mdns.c:179-211 | The name structure after one label or pointer |
| `Names.FlattenStable` | src/mdns.c:371-431 | A name that reads well in the written part reads the same in every later packet, whatever is appended or patched |
| `RoundTrip.FoldSpelled` | src/mdns.c:177-220 | Labels that spell a well-formed name decode to exactly its parts, up to case, with neither flag raised |
| `RoundTrip.PointerReadsBack` | src/mdns.c:371-431 | As item lists: some labels, a jump and the labels of a matching candidate decode to the name if and only if the candidate has exactly the wanted labels and, for a full name, no trailing pointer |
| `Pointers.PointerExact` | src/mdns.c:371-431 | On offsets, in every packet that comes of it: the name with a pointer to a match found at `o` reads back if and only if `o` lies before the name, the candidate ends inside the written part in final bytes, and it is exact |
| `RoundTrip.NameReadsBack` | src/mdns.c:177-220 | A name that stands in a packet decodes to exactly its parts, up to case, and the decoder returns the offset behind it |
| `Encoder.Writer.AppendU8` | src/mdns.c:247-255 | Appends one byte or leaves a full packet alone |
| `Encoder.Writer.AppendU16` | src/mdns.c:266-274 | Appends two bytes, high byte first, or nothing |
| `Encoder.Writer.AppendU32` | src/mdns.c:285-295 | Appends four bytes, high byte first, or nothing |
| `Encoder.Writer.SetU16` | src/mdns.c:229-236 | Patches two bytes wherever they are in the buffer and nothing else; an offset at the end of the buffer is ignored |
| `Encoder.Writer.AppendString` | src/mdns.c:348-358 | Appends a length byte and the string, or nothing; a string of 255 bytes reports a length of 0 |
| `Encoder.Writer.TryCandidate` | src/mdns.c:390-415 | A candidate is taken if and only if the flag is not raised and the name stands there, its first label byte for byte and its parts up to case; the flag is raised after it if and only if it was or the candidate has too many parts |
| `Encoder.Writer.FindName` | src/mdns.c:379-416 | The search takes, or gives up at, exactly the place that `Search.Find` says, whatever the flag on the stack |
| `Search.FindExact` | src/mdns.c:379-416 | The search gives up if and only if there is a place to give up at and nothing before it to take; it takes a place if and only if it could and nothing before it is to be given up at or taken |
| `Search.DropsExact` | src/mdns.c:379-431 | The encoding of a name fails if and only if for one of its labels, with those before it written out, the search gives up, or there is no room |
| `Encoder.Writer.AppendFqdn` | src/mdns.c:371-431 | With room for the name nothing fails unless the name is dropped (`Search.Drops`), and what is written is its encoding; if all pointers were safe, the name stands at the old index and ends at the new one; a tame name keeps a tidy packet tidy |
| `Encoder.Writer.AppendName` | src/mdns.c:371-431 | A tame name with room for it is written completely into a tidy packet, whatever flags were raised, with safe pointers only, and leaves it tidy; if nothing before looks like a label it is written out |
| `Encoder.NeatEncodes` | src/mdns.c:379-431 | A tame name in a tidy packet is never dropped if there is room, whatever flags are raised |
| `Encoder.TargetExact` | src/mdns.c:379-431 | Whatever the buffer held before: what is found for a tame name in a tidy packet is a safe target if and only if its first label ends in the written part |
| `Tidy.CandidateBefore` | src/mdns.c:379-415 | In a tidy packet a label that is found, and that the name does not have yet, starts a whole name that lies before it |
| `Tidy.TameExact` | src/mdns.c:390-415 | Among whole names of tame labels every match is exact |
| `Limits.LocalTwice` | src/mdns.c:371-431 | The host name `local`, written by the encoder into a buffer of zeros, cannot be read |
| `Limits.LocalAgain` | src/mdns.c:401-404 | The next name of that host is dropped although there is room, because the first one cannot be read |
| `TextLimits.TextCandidate` | src/mdns.c:371-431 | A name spelled in a TXT value is found as a candidate; a name behind it that points to it reads back if and only if the spelled name is exact |
| `TextLimits.SubInText` | src/mdns.c:371-431 | The serialiser writes a TXT record with a value that spells a candidate with a trailing `_sub` label, and then a name: it points into the value, and cannot be read back |
| `TextLimits.FifthInText` | src/mdns.c:371-431 | The same with a fifth label |
| `Records.RecordsStable` | src/mdns.c:930-973 | Records that stand in a packet keep standing while it grows and its open fields are patched |
| `Records.FinishRecord` | src/mdns.c:307-337 | Name, fixed part, RDATA and patched RDLENGTH make a record whose RDLENGTH is the size of its RDATA |
| `RecordWriter.AppendType` | src/mdns.c:307-337 | Appends type, class and TTL and leaves RDLENGTH open, if and only if there is room |
| `RecordWriter.AppendPointerRecord` | src/mdns.c:443-528 | Writes a PTR record with the given names; one that is tame and fits is written, and a failure leaves the packet marked incomplete |
| `RecordWriter.AppendLocationRecord` | src/mdns.c:612-670 | Writes an SRV record with the given names and numbers; one that is tame and fits is written |
| `RecordWriter.AppendSrvRecord` | src/mdns.c:612-670 | Writes the SRV record of a service under its instance name, or nothing if there is none; one that is tame and fits is written |
| `RecordWriter.AppendTxtData` | src/mdns.c:574-596 | Writes the character strings of the items, or a single zero byte; data below 256 bytes for which there is room is written |
| `RecordWriter.AppendTxtRecord` | src/mdns.c:540-600 | Writes the TXT record of a service, or nothing if it has no instance name; one with a tame name that fits is written, and byte for byte so if nothing before looks like a label |
| `RecordWriter.AppendAddressRecord` | src/mdns.c:680-768 | Writes the address record of the host; one that is tame and fits is written |
| `PacketWriter.AppendPtrRecord` | src/mdns.c:443-480 | Writes the PTR record of an instance, never with the cache-flush bit; one that is tame and fits is written |
| `PacketWriter.AppendSdPtrRecord` | src/mdns.c:490-528 | Writes the discovery pointer to a service type; one that is tame and fits is written |
| `PacketWriter.AppendAnswer` | src/mdns.c:854-922 | An answer becomes exactly the records it stands for, and the result is their number; records that are tame and fit are all written |
| `PacketWriter.AppendAnswers` | src/mdns.c:945-969 | A list of answers becomes exactly their records, one after the other; records that are tame and fit are all written |
| `PacketWriter.AppendQuestion` | src/mdns.c:773-800 | A question stands at the old index with its type and its unicast bit; one that is tame and fits is written |
| `Dispatch.QuestionsLong` | src/mdns.c:935-945 | Questions take at least six bytes each, so their number fits the byte that counts them |
| `Dispatch.DispatchTxPacket` | src/mdns.c:930-973 | A message that is tame and fits is written completely into a buffer that held an earlier packet: header with the right counts, questions and three sections without a gap to the last byte; any other if nothing failed and all pointers were safe |
| `Tameness.PacketTame` | src/mdns.c:930-973 | Services, host and addresses that meet a checkable condition make every packet about them a tame message |
| `Tameness.ExampleFits` | src/mdns.c:930-973 | A probe for a host name with its address is tame and fits in any buffer |
| `Parser.ParseFqdn` | src/mdns.c:2333-2364 | The parsed name, its parts moved to the buffers of their roles, or a rejection outside `local` and `arpa` |
| `Parser.WalkQuestions` | src/mdns.c:2629-2701 | The question loop visits the questions of the header's count, kept in a byte, and registers those that are for this host |
| `Parser.WalkRecords` | src/mdns.c:2705-2738 | The record loop visits records until the packet ends, with sections by their index |
| `Parser.Expand` | src/mdns.c:2651-2675 | A discovery question becomes one question for each registered service |
| `Parser.FindService` | src/mdns.c:100-110 | The first registered service of that type, up to case, or none if there is none |
| `Parser.ParsePacket` | src/mdns.c:2573-2738 | The whole walk, with the packets that are dropped and the point where it stops |
| `PacketRoundTrip.NameParses` | src/mdns.c:2333-2364 | A name that stands in a packet parses to its labels in the buffers of their roles |
| `PacketRoundTrip.RecordParses` | src/mdns.c:2710-2738 | A record that stands in a packet is read with its name, type, class, TTL and RDATA |
| `PacketRoundTrip.PacketReadsBack` | src/mdns.c:2629-2738 | The walk over a dispatched packet consumes every byte, visits exactly the questions and records of the header, in the section they were written in, with every RDLENGTH the size of its RDATA and all names read back |
| `PacketRoundTrip.SendAndReceive` | src/mdns.c:930-973 | What one host dispatches another host's walk understands, for every packet that is tame and fits, whatever the buffer held before; for others if nothing failed and all pointers were safe |
| `Transmission.ProbeOnWire` | src/mdns.c:1313-1384 | The message of a queued probe has one question of type ANY for each probed service and the host, and one SRV record for each service and the addresses as proposed |
| `Transmission.AnnouncementOnWire` | src/mdns.c:1420-1450 | The message of an announcement has the four records of each service and the addresses |
| `Transmission.SendProbe` | src/mdns.c:3611-3634 | In every run: what a probing PCB has in the queue, once sent, is the message of exactly that probe and is read as such by another host, if it is tame and fits |
| `Transmission.SendAnnouncement` | src/mdns.c:3636-3657 | In every run: what a PCB schedules after its last probe, once sent, is the announcement of exactly what was probed for and is read as such, if it is tame and fits |
| `Responses.GetServiceItem` | src/mdns.c:100-110 | The registered service of that type, if there is one |
| `Responses.ParsedAnswerable` | src/mdns.c:2252-2298 | The ownership test and the discovery expansion let only questions through that name no service or a registered one |
| `Responses.ReceivedAnswerable` | src/mdns.c:2629-2701 | So it is for the questions of every received packet |
| `Responses.BuilderEnds` | src/mdns.c:1220-1277 | The builder's loop, which does not move past a question for an unknown service, ends if and only if there is none |
| `Responses.AnswerQuestions` | src/mdns.c:1220-1277 | The loop of the builder gives the answers of all questions |
| `Responses.ResponseExact` | src/mdns.c:1220-1277 | The response has a record of a type about a service or the host if and only if some question asks for it |
| `Responses.CreateAnswer` | src/mdns.c:1205-1291 | A shared response is a packet that the queue can take: no question, no repetition, only registered services |
| `Txt.ItemsCount` | src/mdns.c:2430-2452 | The number of strings, or -1 if the last one is cut off |
| `Txt.ItemNameLength` | src/mdns.c:2457-2469 | The key ends at the first equals sign |
| `Txt.CreateTxtResult` | src/mdns.c:2474-2550 | The items of TXT data |
| `Txt.TxtRoundTrip` | src/mdns.c:571-600 | Parsing the emitted data gives the items back in list order, with empty values absent |
| `Txt.TextExact` | src/mdns.c:2474-2550 | For every list of items whose strings are shorter than 256 bytes: decoding gives the list as it is to be shown if and only if every item is clean |
| `Txt.AllocateTxt` | src/mdns.c:1809-1836 | The list of a new service is the caller's array backwards |
| `Txt.NewServiceTxt` | src/mdns.c:1809-1836 | What others see of a new service is the caller's array backwards |
| `TieBreak.CheckSrvCollision` | src/mdns.c:2039-2091 | The verdict on another host's SRV record |
| `TieBreak.OppositeVerdicts` | src/mdns.c:2039-2091 | Two hosts that judge each other's claims come to opposite verdicts |
| `TieBreak.SameVerdict` | src/mdns.c:2039-2091 | There is no conflict exactly when priority, weight, port and host are the same |
| `TieBreak.VerdictsChain` | src/mdns.c:2039-2091 | A host that wins against a winner wins |
| `TieBreak.AgainstRfc` | src/mdns.c:2039-2091 | The verdict is that of section 8.2 of RFC 6762 if and only if the host names are equally long or the fields in front of them do not speak for the shorter one |
| `TieBreak.ShorterHostLoses` | src/mdns.c:2039-2091 | A pair of claims on which the code and section 8.2 of RFC 6762 disagree |
| `Collisions.SrvNull` | src/mdns.c:2814-2862 | An SRV record of the host's own makes the code follow a null pointer if and only if it is owned by the bare host name, has a class above IN or, without a port, class zero, and comes in a probe or a response in which it takes nothing back |
| `Collisions.TxtNull` | src/mdns.c:2902-2918 | The same for a TXT record |
| `Collisions.NullReceived` | src/mdns.c:2705-2862 | A received packet that leads there |
| `TxQueue.InsertPlace` | src/mdns.c:1011-1029 | A packet goes behind everything due no later and before everything due later |
| `TxQueue.InsertElements` | src/mdns.c:1011-1029 | Scheduling adds the packet and loses none |
| `TxQueue.InsertGood` | src/mdns.c:1011-1029 | Scheduling keeps the order and leaves the queued packets in front |
| `TxQueue.ClearedMine` | src/mdns.c:1050-1070 | Clearing a PCB takes out its packets and leaves those of every other PCB in their order |
| `TxQueue.ThinsGood` | src/mdns.c:1050-1070 | Taking packets out, or contents out of packets, keeps the order of the queue and of the pending actions |
| `TxQueue.MarkGood` | src/mdns.c:3937-3967 | Marking the first packet that is not queued keeps the queued ones in front, in the order of their actions |
| `TxQueue.SkipAction` | src/mdns.c:3884-3896 | An action that does not meet the head belongs to no queued packet |
| `Packets.ProbeExact` | src/mdns.c:1313-1384 | A probe asks exactly once for each service and for the host, and proposes one SRV record for each service and the addresses of the protocols that are up |
| `Packets.AnnounceExact` | src/mdns.c:1420-1450 | The announcement made from a probe has SDPTR, PTR, SRV and TXT once for each probed service and A and AAAA as probed, without repetition |
| `Packets.UnionNoDup` | src/mdns.c:1547-1566 | Restarting while probing goes for the union of old and new services, each once |
| `Packets.AddAnswerHas` | src/mdns.c:1154-1177 | Adding an answer makes the list have it and changes nothing else |
| `Packets.AddAnswerSound` | src/mdns.c:1154-1177 | Answer lists stay free of repetition by type and service |
| `Pcbs.BeginOk` | src/mdns.c:1480-1527 | Whatever a PCB was doing, starting to probe leaves it with one packet, the probe for exactly what it probes for, and a new episode |
| `Pcbs.ProbeDone` | src/mdns.c:3636-3657 | After the third probe, sent at least 250 ms after the second, the PCB announces exactly what it was probing for |
| `Pcbs.PlainSent` | src/mdns.c:3652-3664 | Sending any packet of an announcing PCB leaves it with a packet to go on with |
| `Pcbs.AnnounceMoreOk` | src/mdns.c:1623-1643 | Adding to the next packet of an announcing PCB keeps it announcing and its lists free of repetition |
| `Pcbs.PurgeOk` | src/mdns.c:1924-2005 | Deleting a service keeps every PCB's probe, packets and state consistent with the services that are left |
| `Responder.InitProbeOk` | src/mdns.c:1480-1571 | Starting to probe on one PCB changes nothing for the others |
| `Steps.ProbeAllOk` | src/mdns.c:1660-1677 | Probing on all PCBs keeps the invariant |
| `Steps.RestartAllOk` | src/mdns.c:1780-1799 | Dropping all packets and starting over on all PCBs keeps the invariant |
| `Steps.AddNewServiceOk` | src/mdns.c:3747-3752 | Adding a service keeps the invariant |
| `Sending.TimerOk` | src/mdns.c:3937-3967 | The timer task keeps the invariant, whether or not posting succeeds |
| `Sending.HandledOk` | src/mdns.c:3611-3666 | Sending a packet keeps its PCB as it should be in every state of the machine, with and without memory |
| `Sending.TxOk` | src/mdns.c:3884-3896 | Taking an action keeps the invariant, also when it is stale |
| `Events.AnnouncePcbOk` | src/mdns.c:1616-1655 | Announcing on a PCB keeps the invariant in every state of the PCB |
| `Events.RespondInv` | src/mdns.c:1283-1286 | Scheduling a shared response past probing keeps the invariant |
| `Events.SuppressInv` | src/mdns.c:1093-1120 | Taking an answer out of shared responses keeps the invariant |
| `Deletion.DeletionComplete` | src/mdns.c:3837-3874 | After a service is deleted no question, answer, server or additional record of any packet and no PCB refers to it |
| `Deletion.DeletionExact` | src/mdns.c:1924-2005 | Deleting a service takes out what is about it and nothing else, and keeps the order of the rest |
| `Deletion.ClearServicesOk` | src/mdns.c:3862-3874 | Clearing all services keeps the invariant |
| `Interfaces.IsInUse` | src/mdns_networking.c:181-191 | Whether some PCB has a socket |
| `Interfaces.EnableOk` | src/mdns.c:3045-3053 | Bringing a PCB up keeps the invariant, also if it cannot get a socket |
| `Interfaces.DisableOk` | src/mdns.c:3058-3070 | Taking a PCB down keeps the invariant; a sibling that was its duplicate comes up |
| `Interfaces.DuplicateOk` | src/mdns.c:2149-2164 | Giving way to the other interface keeps the invariant |
| `Runs.StepKeeps` | src/mdns.c:3720-3905 | Every step keeps the invariant |
| `Runs.ProbingExclusive` | src/mdns.c:1480-1571 | In every reachable state a probing PCB has exactly one packet, its probe, whose questions are exactly the probed services and the host; `probe_running` holds exactly when probing |
| `Runs.NeverStranded` | src/mdns.c:3611-3666 | In every reachable state a probing or announcing PCB has a packet in the queue |
| `Runs.ThreeProbesFirst` | src/mdns.c:3611-3666 | Every turn from probing to announcing is preceded, since probing last began on that PCB, by at least three probes, each 250 ms or more after the one before |
| `Turns.TurnIsNoted` | src/mdns.c:3611-3666 | Whatever the step, a PCB comes from probing to announcing only by the service task sending its packet in PROBE_3, and the history that the other results speak of notes it |
| `Runs.NothingEarly` | src/mdns.c:3884-3896 | Nothing leaves through the queue before its send time, and no response leaves on a probing PCB |
| `Runs.ReferencesHold` | src/mdns.c:1924-2005 | In every reachable state nothing refers to a service that is not registered |
| `Runs.SocketsShared` | src/mdns_networking.c:181-240 | In every reachable state the main socket exists exactly when a PCB is up, and a duplicate is down while its sibling is up |
| `HandOver.QueuedInFront` | src/mdns.c:3937-3967 | In every reachable state the queue is sorted, the queued packets are in front and due, and their actions are pending in the same order |
| `HandOver.DrainSendsQueued` | src/mdns.c:3884-3896 | Taking all pending actions sends exactly the queued packets, each once, in order, whatever stale actions are among them |
| `Progress.AlwaysSettles` | src/mdns.c:3611-3666 | From every reachable state the clock and the two tasks alone can bring every PCB to rest with an empty queue |
| `Repeats.RepeatsExact` | src/mdns.c:3652-3664 | With tasks, time and shared responses only: a packet of a PCB past probing never leaves twice within a second, and by the time it has left for good it has left at least twice if and only if it first left in ANNOUNCE_1 or ANNOUNCE_2 |
| `Repeats.AnnouncedTwice` | src/mdns.c:3652-3664 | With tasks, time and shared responses only: an announcement leaves at least twice, a second or more apart, if and only if at most one other packet of its PCB leaves before it, counted from ANNOUNCE_1 |
| `Repeats.ThreeAnnouncements` | src/mdns.c:3652-3664 | An announcement that is all its PCB has to send leaves exactly three times, each a second or more after the one before |
| `Mishaps.LeavesOnce` | src/mdns.c:3652-3664 | A run from the start in which the announcement leaves only once |
| `Mishaps.EmptiedExact` | src/mdns.c:1093-1120 | Suppression makes the next one follow a null pointer if and only if it takes the only answer out of some shared response of the PCB |
| `Mishaps.NullFollowed` | src/mdns.c:1093-1120 | A run from the start that leads there |
| `Lists.AllocAnswer` | src/mdns.c:1154-1177 | The loop that adds an answer unless it is there |
| `Lists.DeallocAnswer` | src/mdns.c:1125-1149 | The loop that takes the first matching answer out |
| `Lists.DeallocServiceAnswers` | src/mdns.c:1899-1919 | The two loops that take all answers about a service out |
| `Lists.CreateProbePacket` | src/mdns.c:1313-1384 | The loop that builds a probe |
| `Lists.CreateAnnounceFromProbe` | src/mdns.c:1420-1450 | The loop that turns a probe into an announcement |
| `Lists.NewServices` | src/mdns.c:1547-1562 | The loops that pick the services not probed for yet |
| `MdnsServer.Server.Schedule` | src/mdns.c:1011-1029 | Scheduling is the sorted insertion |
| `MdnsServer.Server.ClearPcbTxQueue` | src/mdns.c:1050-1070 | Clearing is the order-preserving filter |
| `MdnsServer.Server.NextPcbPacket` | src/mdns.c:1078-1088 | The first packet of the PCB |
| `MdnsServer.Server.RemoveScheduledAnswer` | src/mdns.c:1093-1120 | Takes an answer out of the shared responses of a PCB and keeps the invariant |
| `MdnsServer.Server.InitPcbProbe` | src/mdns.c:1480-1571 | Starts to probe |
| `MdnsServer.Server.ProbeAllPcbs` | src/mdns.c:1660-1677 | Starts to probe on every PCB with a socket |
| `MdnsServer.Server.RestartAllPcbs` | src/mdns.c:1780-1799 | Starts over on every PCB and keeps the invariant |
| `MdnsServer.Server.AnnounceOnPcb` | src/mdns.c:1616-1655 | Announces on a PCB, whatever its state |
| `MdnsServer.Server.AnnounceAllPcbs` | src/mdns.c:1682-1690 | Announces on all PCBs and keeps the invariant |
| `MdnsServer.Server.SchedulerRun` | src/mdns.c:3937-3967 | The timer task |
| `MdnsServer.Server.TxHandlePacket` | src/mdns.c:3611-3666 | Sends a packet and moves the machine of its PCB on |
| `MdnsServer.Server.ExecuteTx` | src/mdns.c:3884-3896 | The service task takes one action and keeps the invariant |
| `MdnsServer.Server.RemoveScheduledServicePackets` | src/mdns.c:1924-2005 | Takes a deleted service out of the queue and the PCBs |
| `MdnsServer.Server.AddService` | src/mdns.c:3747-3752 | Adds a service and keeps the invariant |
| `MdnsServer.Server.DelService` | src/mdns.c:3837-3861 | Deletes a service and keeps the invariant |
| `MdnsServer.Server.ClearAllServices` | src/mdns.c:3862-3874 | Deletes all services and keeps the invariant |
| `MdnsServer.Server.InitPcb` | src/mdns_networking.c:221-240 | A PCB gets the main socket |
| `MdnsServer.Server.DeinitPcb` | src/mdns_networking.c:196-216 | A PCB gives its socket back, and the last one closes the main socket |
| `MdnsServer.Server.EnableOnPcb` | src/mdns.c:3045-3053 | Brings a PCB up and keeps the invariant |
| `MdnsServer.Server.DisableOnPcb` | src/mdns.c:3058-3070 | Takes a PCB down and keeps the invariant |
| `MdnsServer.Server.DupInterface` | src/mdns.c:2149-2164 | Gives way to the other interface and keeps the invariant |
| `Ota.ReadUntil` | examples/system/ota/native_ota/1MB_flash/new_to_new_no_old/main/ota_example_main.c:68-76 | The length of a line with its newline |
| `Ota.ScanAppend` | examples/system/ota/native_ota/1MB_flash/new_to_new_no_old/main/ota_example_main.c:121-163 | A header that ends in a chunk ends there whatever follows; one that goes on goes on in the next chunk |
| `Ota.BodyStepOk` | examples/system/ota/native_ota/1MB_flash/new_to_new_no_old/main/ota_example_main.c:178-204 | Another part of the body extends what is written by exactly what of it lies in the slice |
| `Ota.FirstWriteExact` | examples/system/ota/native_ota/1MB_flash/new_to_new_no_old/main/ota_example_main.c:178-190 | The first write is right if and only if the part that reaches the slice does not reach beyond it |
| `Ota.FirstWriteTooLong` | examples/system/ota/native_ota/1MB_flash/new_to_new_no_old/main/ota_example_main.c:178-190 | A first part of the body that is written beyond the slice |
| `Ota.StaysSized` | examples/system/ota/native_ota/1MB_flash/new_to_new_no_old/main/ota_example_main.c:121-163 | The slice is always the one that the content length and the number of the part give |
| `Ota.ChunkingIndependent` | examples/system/ota/native_ota/1MB_flash/new_to_new_no_old/main/ota_example_main.c:331-364 | However the response is cut, the writes are the part of body[offset .. offset + size) that has arrived, and all of it once the client says so, with size = content length / parts and offset = size * part |
| `OtaCuts.FatalExact` | examples/system/ota/native_ota/1MB_flash/new_to_new_no_old/main/ota_example_main.c:121-163 | With a content length to be had, the client gives up on a chunk of the header if and only if it ends inside a line |
| `OtaCuts.CutIsSlice` | examples/system/ota/native_ota/1MB_flash/new_to_new_no_old/main/ota_example_main.c:331-364 | A response that declares its length, however it is cut: the client gives up if and only if a chunk of the header ends inside a line, and otherwise it writes exactly its part of the body |
| `OtaCuts.CutsAgree` | examples/system/ota/native_ota/1MB_flash/new_to_new_no_old/main/ota_example_main.c:331-364 | Two such cuts of one response lead to the same bytes |
| `OtaCuts.LargePartIsSlice` | examples/system/ota/native_ota/1MB_flash/new_to_new_no_old/main/ota_example_main.c:331-364 | With a part of at least 1024 bytes, for all chunks of 1 to 1024 bytes of a response that declares its length: the client gives up if and only if a chunk of the header ends inside a line, and otherwise it writes exactly its part of the body |
| `OtaCuts.LargePartsAgree` | examples/system/ota/native_ota/1MB_flash/new_to_new_no_old/main/ota_example_main.c:331-364 | Then two cuts that leave the lines of the header whole lead to the same bytes |
| `OtaCuts.WithoutLength` | examples/system/ota/native_ota/1MB_flash/new_to_new_no_old/main/ota_example_main.c:121-163 | A response without any length is never written, however it is cut |
| `OtaLimits.CutsDiffer` | examples/system/ota/native_ota/1MB_flash/new_to_new_no_old/main/ota_example_main.c:121-163 | Two cuts of one response with two lines about the length that lead to different writes |
| `OtaLimits.ZeroByteCuts` | examples/system/ota/native_ota/1MB_flash/new_to_new_no_old/main/ota_example_main.c:121-163 | Two cuts of one response with a zero byte at the start of a header line: in one the client is still in the header |
| `Ota.LoopEnds` | examples/system/ota/native_ota/1MB_flash/new_to_new_no_old/main/ota_example_main.c:218-230 | The loop over a chunk ends if and only if the slice was not complete before or the chunk is empty |
| `Ota.Client.LookForLength` | examples/system/ota/native_ota/1MB_flash/new_to_new_no_old/main/ota_example_main.c:129-139 | The search for the content length in a chunk, and the slice it gives |
| `Ota.Client.ReadHeader` | examples/system/ota/native_ota/1MB_flash/new_to_new_no_old/main/ota_example_main.c:121-163 | The header loop |
| `Ota.Client.TakeBody` | examples/system/ota/native_ota/1MB_flash/new_to_new_no_old/main/ota_example_main.c:178-204 | The bytes to write for a part of the body |
| `Ota.Client.TakeChunk` | examples/system/ota/native_ota/1MB_flash/new_to_new_no_old/main/ota_example_main.c:218-230 | The bytes to write for a chunk |
| `Ota.Client.Run` | examples/system/ota/native_ota/1MB_flash/new_to_new_no_old/main/ota_example_main.c:331-364 | The receive loop and its writes |
| `Spi.Master.HandleGpio` | examples/peripherals/spi/high_performance/spi_master/main/spi_master_example_main.c:113-196 | The interrupt handler: announce, send a block, or end |
| `Spi.Slave.HandleEvent` | examples/peripherals/spi/high_performance/spi_slave/main/spi_slave_example_main.c:91-128 | The callback: take the length, or the counting bytes of a block |
| `Spi.Slave.TakeBytes` | examples/peripherals/spi/high_performance/spi_slave/main/spi_slave_example_main.c:181-197 | The reading task takes bytes from the front of the ring |
| `Spi.Slave.LookAgain` | examples/peripherals/spi/high_performance/spi_slave/main/spi_slave_example_main.c:199-205 | The reading task raises the line if it was held and more than 64 bytes are left |
| `Spi.StepOk` | examples/peripherals/spi/high_performance/spi_slave/main/spi_slave_example_main.c:91-128 | Every step of both sides keeps the stream whole and the two lengths in agreement, as long as the line is raised again only with room for a block |
| `Spi.StreamConserved` | examples/peripherals/spi/high_performance/spi_master/main/spi_master_example_main.c:113-196 | In every such run the accepted bytes are the delivered ones, the slave's ring, the wire and the master's ring, in this order, and the lengths agree whenever the wire is empty |
| `Spi.RaisedTooEarly` | examples/peripherals/spi/high_performance/spi_slave/main/spi_slave_example_main.c:199-205 | After the line is raised again the next block gets through whole if and only if there is room for it |
| `Spi.LossHappens` | examples/peripherals/spi/high_performance/spi_slave/main/spi_slave_example_main.c:199-205 | A run of the code that loses bytes |
| `SpiDelivery.UndisturbedConserved` | examples/peripherals/spi/high_performance/spi_slave/main/spi_slave_example_main.c:181-205 | In every run in which nothing comes between reading and looking again nothing is lost, without any further condition |
| `SpiDelivery.DeliveryExact` | examples/peripherals/spi/high_performance/spi_master/main/spi_master_example_main.c:113-196 | From a state of a careful run all accepted bytes can be delivered without loss if and only if the reading task is not about to raise the line over a full ring |
| `SpiDelivery.UndisturbedDelivers` | examples/peripherals/spi/high_performance/spi_slave/main/spi_slave_example_main.c:181-205 | From every state of an undisturbed run all accepted bytes can be delivered |

## Left out

- Pointers.PointerExact: leaves open a candidate of which the end of the written part, or a value still to be patched, cuts a label or a pointer, because what it reads then depends on bytes that are not there yet.
- Encoder.Writer.AppendFqdn: says nothing of what a name reads as if an append failed or a pointer had an unsafe target, because the code then writes names that do not read back (`Limits`, `TextLimits`).
- Dispatch.DispatchTxPacket: says nothing of the packet if it is not tame or does not fit and an append failed or a pointer had an unsafe target, or if a name is not well formed and in the domain `local`, for the same reason.
- PacketRoundTrip.PacketReadsBack: is about receivers that do not drop the packet and, if it has questions, find one of them to be theirs, because others stop before the records.
- Parser.ParsePacket: is the walk without the handlers of the records, without the removal of questions that a record answers, and without the early exit when an interface gives way to another.
- MdnsServer.Server.RemoveScheduledAnswer: leaves a shared response without answers alone, where the code follows a null pointer (`Mishaps.NullFollowed`).
- Ota.ChunkingIndependent: is about chunks in which no header line starts with a zero byte and the first part of the slice does not reach beyond it, because the code does something else then (`OtaLimits.ZeroByteCuts`, `Ota.FirstWriteTooLong`).
- OtaCuts.CutIsSlice: is about chunks of which the first part of the slice does not reach beyond it; with parts of at least 1024 bytes all are (`OtaCuts.LargePartIsSlice`). Of responses that have a length but do not declare it, the cut may matter (`OtaLimits.CutsDiffer`); it is not said for which exactly.
- OtaCuts.CutsAgree: is about such chunks as well; `OtaCuts.LargePartsAgree` is not.
- Runs.StepKeeps: takes collisions of registered services only; a record of the bare host name follows a null pointer in the code (`Collisions.SrvNull`, `Collisions.TxtNull`).
- Spi.StreamConserved: is about runs in which the reading task raises the line only with room for a block, because the code loses bytes otherwise (`Spi.LossHappens`); `SpiDelivery.UndisturbedConserved` needs no such condition.
- Repeats.RepeatsExact: is about runs of the two tasks, the clock and shared responses, because other steps take announcements back or start them anew.
- Reads behind the end of a received packet are an outcome of their own (`OutOfBounds`, `OffEnd`) and not followed.
- Packets in which some append failed: the index is not rolled back, and nothing is claimed of them.
- What the parser does with a record (collisions, suppression, search results) is not part of the walk; its effects on the responder are steps of `Runs` that may happen at any time. A walk that is cut short because an interface gives way in the middle is not modelled.
- A responder without a hostname, which goes to RUNNING without probing.
- Goodbye packets, unshared responses and searches, which are sent at once and not through the queue.
- `_mdns_mangle_name`, `_mdns_check_txt_collision` and the address collision tests: their outcomes are choices of the steps.
- `mdns_init`, `mdns_free`, task and timer start, semaphores, actions other than TX in the action queue, and lwIP calls.
- The addresses of an interface are a parameter of the packet serialiser.
- Search results and their completion, and `mdns_debug_packet`.
- OTA: sockets, flash errors, a sign in the content length, and the two sibling examples.
- SPI: the direction from slave to master, which the defined macros leave idle, and the normal-performance examples.
