# Verified model of the Realtek Bluetooth UART stack

The package `rtl8821cs-bluetooth` drives a Realtek controller over a serial line. This project models
its five hard parts in Dafny and proves what they are for.

* **The H5 link** (`H5Link`, `H5LinkLaws`, `H5Codec`, `H5Header`, `H5Known`, `H5Device`, `H5RoundTrip`,
  `Crc`, `H5Network`, `H5Reliable`, `H5Progress`, `H5Datagrams`). `H5Link` and `H5Codec` say what each
  locked section and each received octet does; `H5LinkLaws`, `H5Header` and `H5Known` say what that
  comes to, in channels, numbers and octets; `H5Device` is the driver's own object, with its loops and
  buffers, proved to do exactly that. `H5Network` joins two endpoints, each of them host or controller,
  by lossy lines and lets every interleaving run; `H5Reliable` proves in-order, exactly-once delivery
  over all runs, `H5Progress` that delivery always stays possible, and `H5Datagrams` what holds for the
  packets that are not acknowledged.
* **The transmit scheduler** (`TxSched`, `TxSettles`, `HciUart`). Any number of callers and one worker
  around two bits and a work item, all interleavings of their atomic steps, where a caller is whoever
  queues, receives or times out and asks for transmission as the link layer says; and the line
  discipline's object.
* **Download and hand-over** (`Download`, `StopAndWait`, `Attach`). Cutting the image into packets,
  getting them across with a wrapping index, and leaving the sequence number at zero.
* **Configuration and patch files** (`Ring`, `ConfigMerge`, `ConfigLists`, `Config`, `Patch`,
  `PatchFile`, `PatchLists`, `PatchOverlap`). Circular linked lists on the heap, merging and sorting in place on
  them, and the file formats in both directions.
* **Coexistence** (`Coex`, `CoexLaws`, `CoexHandles`, `CoexRun`, `CoexEvents`, `HciEvents`,
  `CoexDevice`, `Reassembly`, `EventPipe`, `CoexPipe`, `CoexQueue`). The event handlers, each with what
  it means for connections and channels, the bookkeeping of profiles per connection, and the path
  of events through reassembly, filter, 32 buffers and a worker, as a machine over all interleavings and
  as the driver's own objects.

Conventions. Octets are integers below 256; the check register is a 16-bit vector; sequence numbers
are integers below 8. Integer widths the source relies on (16-bit lengths and counters, 32-bit sums,
8-bit reference counts) are written out. Refused allocations, short writes, lost frames and timer
expiry are inputs. Ghost parameters such as the walk of a linked list exist for the proofs only.

Where code and intention differ the model follows the code: merging does not stop at a match that
makes way, so with repeated base offsets an extra ends at the last of them; a connection response is
judged by the low octet of its result; connection handles are stored as they come and compared
masked; the download pointer is advanced by comparing the wrapped index octet.

Seven intended properties hold only under a condition, which is proved exact: the hand-over number
(`Attach.HandOver`, with the failing case in `Attach.AnsweredTwice`), profile bits against 8-bit
counters over whole runs (`CoexRun.ProfilesAgree`, `CoexRun.AnsweredTooOften`), the configuration
file against its 16-bit length (`Config.ProducedExactly`, `Config.TooLargeFile`), the download against
its 16-bit counters (`Download.WholeImage`, `Download.OneOctetSent`), the patch image against its
32-bit length (`PatchLists.BuiltExactly`, `PatchOverlap.TooLargeImage`), one record per connection
handle over whole runs (`CoexHandles.OneRecordPerHandle`, `CoexHandles.WideTwice`), and the independence
of events from what their buffers held before (`CoexEvents.StaleExactly`, `CoexPipe.StaleOctetsMatter`).

## Model

| member | source | states |
|---|---|---|
| `H5Reliable.Delivery` | package/rtl8821cs-bluetooth/src/hci_rtk_h5.c:305-366 | in every run of two endpoints over lossy first-in-first-out lines, each sending as a host (commands and data) and as a controller (events and data), the reliable packets handed up at each end are a prefix of those queued at the other: in order, each exactly once and as the kind it was queued, in spite of retransmission, lost acknowledgements and numbers modulo 8 |
| `H5Reliable.Conservation` | package/rtl8821cs-bluetooth/src/hci_rtk_h5.c:806-834 | in every run and in both directions the queued stream is acknowledged ++ unacknowledged ++ waiting, at most four are unacknowledged, only packets the peer accepted are ever dropped, retransmission is armed while anything is unacknowledged, and a cleared acknowledgement request means the last frame acknowledged everything received |
| `H5Reliable.InFlight` | package/rtl8821cs-bluetooth/src/hci_rtk_h5.c:246-268 | in every run each reliable frame under way on either line, first or repeated, carries the packet of its position p under number p mod 8, and p lies in [expected - 4, expected + 3] |
| `H5Reliable.RunKeeps` | package/rtl8821cs-bluetooth/src/hci_rtk_h5.c:570-598 | the joint invariant of both directions survives every interleaving of submit, report, send (with refused allocations), arrive, finish, lose, timer start and roll-back |
| `H5Reliable.CullExact` | package/rtl8821cs-bluetooth/src/hci_rtk_h5.c:375-418 | an acknowledgement inside the window clears exactly the packets before it and any other clears none, even an old one arriving after a roll-back; so nothing unaccepted is dropped |
| `H5Reliable.AdmittedIsNext` | package/rtl8821cs-bluetooth/src/hci_rtk_h5.c:715-729 | within the window the sequence number test admits a reliable frame exactly when its packet is the next one expected |
| `H5Reliable.SentCarries` | package/rtl8821cs-bluetooth/src/hci_rtk_h5.c:332-351 | whatever allocations are refused, a reliable frame goes out under the number of its packet's position and acknowledges everything accepted so far |
| `H5Progress.DeliveryPossible` | package/rtl8821cs-bluetooth/src/hci_rtk_h5.c:806-834 | from every reachable state one continuation hands up everything queued so far at either end to the other, in order, and has it all acknowledged: no run gets stuck |
| `H5Progress.OneRound` | package/rtl8821cs-bluetooth/src/hci_rtk_h5.c:806-834 | from any settled state a timeout, retransmission and one acknowledgement clear at least one more packet |
| `H5Progress.ArrivesAsOctets` | package/rtl8821cs-bluetooth/src/hci_rtk_h5.c:677-803 | the network model's arrive and finish steps leave the link exactly as receiving the encoded octets of the frame does |
| `H5Progress.UsedUp` | package/rtl8821cs-bluetooth/src/hci_rtk_h5.c:806-834 | a timeout is spent by firing and its roll-back by rolling back, once each |
| `H5Datagrams.Datagrams` | package/rtl8821cs-bluetooth/src/hci_rtk_h5.c:305-366 | in every run and both directions the audio and vendor packets handed up are packets the other end queued, at rising places: each at most once, in order and unchanged; and none leaves the queue without being framed |
| `H5LinkLaws.ComesUp` | package/rtl8821cs-bluetooth/src/hci_rtk_h5.c:596-627 | a packet framed at one end comes up at the other as the kind it was, events included, exactly if it is in order; acknowledgements and link establishment end there |
| `H5LinkLaws.NothingElse` | package/rtl8821cs-bluetooth/src/hci_rtk_h5.c:596-627 | a frame comes up exactly on channels 3 and 14, and on 1, 2 and 4 if it is reliable |
| `H5LinkLaws.AsksForWork` | package/rtl8821cs-bluetooth/src/hci_rtk_h5.c:570-594 | every frame received and every timeout asks the transmit worker to run, every reliable frame makes an acknowledgement owed, and after a timeout with anything unacknowledged there is something to send |
| `H5LinkLaws.SentAgain` | package/rtl8821cs-bluetooth/src/hci_rtk_h5.c:806-834 | a roll-back puts what was unacknowledged before what waits, under the numbers it had |
| `H5LinkLaws.Priority` | package/rtl8821cs-bluetooth/src/hci_rtk_h5.c:305-366 | for every pattern of refused memory: unreliable before reliable before a bare acknowledgement, reliable ones only with fewer than four unacknowledged, each frame acknowledging everything received, and what cannot go stays |
| `H5LinkLaws.SomethingToSend` | package/rtl8821cs-bluetooth/src/hci_rtk_h5.c:305-366 | with memory a frame goes out exactly if an unreliable packet waits, a reliable one waits inside the window, or an acknowledgement is owed |
| `H5LinkLaws.QueuedAs` | package/rtl8821cs-bluetooth/src/hci_rtk_h5.c:163-195 | commands and data go to the reliable queue, the other kinds the driver sends to the unreliable one, and exactly events and packets of more than 4095 octets are dropped |
| `H5LinkLaws.TimerStops` | package/rtl8821cs-bluetooth/src/hci_rtk_h5.c:375-418 | an acknowledgement stops the timer exactly if it leaves nothing unacknowledged |
| `H5LinkLaws.AtOpen` | package/rtl8821cs-bluetooth/src/hci_rtk_h5.c:836-862 | a freshly opened link has nothing to send, repeat or hand up and starts at number zero |
| `H5RoundTrip.RoundTrip` | package/rtl8821cs-bluetooth/src/hci_rtk_h5.c:677-803 | for any frames and any cutting of their octets into chunks, receiving the chunks has exactly the effect of the frames (payloads, numbers, sequence gating) and ends waiting for a frame |
| `H5RoundTrip.AnyChunking` | package/rtl8821cs-bluetooth/src/hci_rtk_h5.c:677-803 | the receiver cannot tell how a stream was cut into chunks |
| `H5RoundTrip.AfterGarbage` | package/rtl8821cs-bluetooth/src/hci_rtk_h5.c:688-800 | after arbitrary octets in any receiver state a well-formed frame is received in full, up to the sequence check |
| `H5RoundTrip.Resync` | package/rtl8821cs-bluetooth/src/hci_rtk_h5.c:688-800 | one delimiter brings every reachable receiver state to the start of a frame, for every memory supply |
| `H5RoundTrip.HeaderRoundTrip` | package/rtl8821cs-bluetooth/src/hci_rtk_h5.c:252-277 | the four header octets give back flags, numbers, channel and length, and pass the checksum (where each field stands, and what the checksum is, is `H5Header.Layout`) |
| `H5Header.Layout` | package/rtl8821cs-bluetooth/src/hci_rtk_h5.c:246-275 | every field of a frame stands in its bits of the header and the four octets add up to 0xff modulo 256 |
| `H5Header.Channels` | package/rtl8821cs-bluetooth/src/hci_rtk_h5.c:207-240 | the channel number and the reliable bit of every packet kind, and the acknowledgement and check bits, as they stand in the octets |
| `H5Header.HeaderRefused` | package/rtl8821cs-bluetooth/src/hci_rtk_h5.c:703-713 | a header whose octets do not add up to 0xff is refused, whatever follows it up to the next delimiter: the link is unchanged and the receiver waits for a frame |
| `H5Header.DamagedHeader` | package/rtl8821cs-bluetooth/src/hci_rtk_h5.c:703-713 | so a header damaged in any one octet is always refused, whatever the payload |
| `H5Header.HeaderTaken` | package/rtl8821cs-bluetooth/src/hci_rtk_h5.c:703-732 | one that adds up is refused only for its number, which makes an acknowledgement owed and asks the worker to run, and otherwise announces the payload of the length it states |
| `H5Known.Escapes` | package/rtl8821cs-bluetooth/src/hci_rtk_h5.c:138-161 | the four escaped octets on the line |
| `H5Known.SyncOnLine` | package/rtl8821cs-bluetooth/src/hci_rtk_h5.c:197-302 | a synchronisation message on the line, octet by octet |
| `H5Known.AckOnLine` | package/rtl8821cs-bluetooth/src/hci_rtk_h5.c:197-302 | an acknowledgement with its check on the line, octet by octet |
| `H5RoundTrip.EncodeShape` | package/rtl8821cs-bluetooth/src/hci_rtk_h5.c:246-301 | a frame takes at most (len + 6) * 2 + 2 octets, 0xc0 stands only first and last, 0x11 and 0x13 nowhere |
| `H5RoundTrip.RxBound` | package/rtl8821cs-bluetooth/src/hci_rtk_h5.c:502-568 | on every octet stream the packet being assembled stays within the 0x1005 octets allocated |
| `H5RoundTrip.DamagedPayload` | package/rtl8821cs-bluetooth/src/hci_rtk_h5.c:742-756 | a frame with a check whose payload is damaged in one octet or in two adjacent ones changes nothing but, if out of order, the owed acknowledgement |
| `H5RoundTrip.DamagedTrailer` | package/rtl8821cs-bluetooth/src/hci_rtk_h5.c:742-756 | check octets other than the ones sent are always refused |
| `H5RoundTrip.DamagedFrame` | package/rtl8821cs-bluetooth/src/hci_rtk_h5.c:742-756 | the same for damage within any two adjacent octets behind the header, also across the border between payload and check octets |
| `H5Codec.Recv` | package/rtl8821cs-bluetooth/src/hci_rtk_h5.c:677-803 | the receive routine ends on every input (bytes left, then rank of the zero-count state) and keeps the receiver state sound |
| `H5Codec.Slip` | package/rtl8821cs-bluetooth/src/hci_rtk_h5.c:138-161 | escaped text holds no delimiter and no flow-control octet and at most doubles in length |
| `Crc.SumIsBitSerial` | package/rtl8821cs-bluetooth/src/hci_rtk_h5.c:99-127 | the nibble-table check register equals the reflected bit-serial CRC-CCITT register for every message and start value |
| `Crc.UpdateInjective` | package/rtl8821cs-bluetooth/src/hci_rtk_h5.c:119-127 | one table step is a bijection on the register |
| `Crc.BurstDetected` | package/rtl8821cs-bluetooth/src/hci_rtk_h5.c:119-127 | two messages of equal length that differ only in one octet or in two adjacent ones never have the same check |
| `Crc.BorderDetected` | package/rtl8821cs-bluetooth/src/hci_rtk_h5.c:119-127 | a changed last octet with a changed first check octet never gives the check of the message |
| `Crc.TrailerJoin` | package/rtl8821cs-bluetooth/src/hci_rtk_h5.c:293-298 | the two trailer octets written, read back as a big-endian word, are the bit-reversed register |
| `H5Device.WriteFrame` | package/rtl8821cs-bluetooth/src/hci_rtk_h5.c:197-302 | the buffer written octet by octet, of the size the driver allocates, holds exactly the encoding of the frame |
| `H5Device.SlipAll` | package/rtl8821cs-bluetooth/src/hci_rtk_h5.c:277-291 | the escaping loop appends the escaped octets and runs the register over exactly them |
| `H5Device.SlipOneByte` | package/rtl8821cs-bluetooth/src/hci_rtk_h5.c:138-161 | one octet is appended in escaped form after what is there |
| `H5Device.Device.Enqueue` | package/rtl8821cs-bluetooth/src/hci_rtk_h5.c:163-195 | the queues after an enqueue are those of the link model; over-long packets change nothing |
| `H5Device.Device.PreparePkt` | package/rtl8821cs-bluetooth/src/hci_rtk_h5.c:197-302 | framing takes the number, clears the owed acknowledgement and writes the frame of the old link state |
| `H5Device.Device.Dequeue` | package/rtl8821cs-bluetooth/src/hci_rtk_h5.c:305-366 | the object's new state and the octets returned are those of the link model, for every pattern of refused allocations |
| `H5Device.Device.PktCull` | package/rtl8821cs-bluetooth/src/hci_rtk_h5.c:375-418 | the counting loop and the unlinking loop drop exactly the prefix the closed form of the acknowledgement gives |
| `H5Device.Device.TimedEvent` | package/rtl8821cs-bluetooth/src/hci_rtk_h5.c:806-834 | popping the unacknowledged queue from its tail restores the waiting queue in order and the number modulo 8, and asks the worker to run (`H5LinkLaws.AsksForWork`, `H5LinkLaws.SentAgain`) |
| `H5Device.Device.UnslipOneByte` | package/rtl8821cs-bluetooth/src/hci_rtk_h5.c:502-568 | one received octet updates packet, escape state, count and register as the receiver model does, including a bad escape |
| `H5Device.Device.CompleteRxPkt` | package/rtl8821cs-bluetooth/src/hci_rtk_h5.c:570-669 | accepting a packet is the composition of the two locked sections, the request to the worker and handing up by channel (what comes up is `H5LinkLaws.ComesUp` and `H5LinkLaws.NothingElse`) |
| `H5Device.Device.HeaderDone` | package/rtl8821cs-bluetooth/src/hci_rtk_h5.c:704-732 | header checksum, sequence test and length are decided as in the receiver model (`H5Header.HeaderRefused`, `H5Header.HeaderTaken`) |
| `H5Device.Device.CheckDone` | package/rtl8821cs-bluetooth/src/hci_rtk_h5.c:742-756 | a matching trailer completes the packet without it, a wrong one drops it |
| `H5Device.Device.Recv` | package/rtl8821cs-bluetooth/src/hci_rtk_h5.c:677-803 | the receive loop on the object computes the recursive receiver model for every chunk, state and memory supply |
| `TxSched.NoLostWakeup` | package/rtl8821cs-bluetooth/src/hci_ldisc.c:222-310 | over all interleavings of any number of callers and the worker, a caller asking for transmission exactly where the link layer does: when nobody is inside a call and the work is neither queued nor running, both bits are clear, and with no frame half written an attempt to take a frame followed every caller's change, whatever memory did, and there is something to send exactly if that attempt was refused memory |
| `TxSched.Drained` | package/rtl8821cs-bluetooth/src/hci_ldisc.c:276-310 | if every allocation succeeds and every write is whole, then at rest nothing is left to send and the line carries exactly the frames taken |
| `TxSched.LineOctets` | package/rtl8821cs-bluetooth/src/hci_ldisc.c:276-296 | however writes are cut short, written octets plus the held rest are the frames taken, whole, once and in order |
| `TxSched.RunKeeps` | package/rtl8821cs-bluetooth/src/hci_ldisc.c:222-310 | after every run neither bit is left set with nobody to clear it, nothing sendable and no caller's request is left with nobody on the way to another attempt, refused memory or not, and the octets written are whole frames in order |
| `TxSched.ChangeKeeps` | package/rtl8821cs-bluetooth/src/hci_ldisc.c:480-494 | queueing, accepting in its two sections, repeating and timing out never make a sendable link unsendable |
| `TxSched.ReceivedWhole` | package/rtl8821cs-bluetooth/src/hci_rtk_h5.c:570-594 | a caller's two sections for a frame in order come to receiving it and end with a request for transmission |
| `TxSched.RepeatedWhole` | package/rtl8821cs-bluetooth/src/hci_rtk_h5.c:715-729 | a frame out of order ends with one too |
| `TxSched.WorkAsked` | package/rtl8821cs-bluetooth/src/hci_ldisc.c:222-274 | whoever leaves something to send asks for transmission |
| `TxSettles.AllSent` | package/rtl8821cs-bluetooth/src/hci_ldisc.c:222-327 | from every reachable state of any number of callers some continuation ends at rest with nothing left to send and no frame half written |
| `HciUart.Uart.TxWakeup` | package/rtl8821cs-bluetooth/src/hci_ldisc.c:222-274 | the call is its three atomic steps, one after the other |
| `HciUart.Uart.Dequeue` | package/rtl8821cs-bluetooth/src/hci_ldisc.c:203-219 | the rest of a half-written frame comes first, then the driver's next frame |
| `HciUart.Uart.Pull` | package/rtl8821cs-bluetooth/src/hci_ldisc.c:292-308 | one round of the drain loop writes what fits and keeps the rest |
| `HciUart.Uart.Drain` | package/rtl8821cs-bluetooth/src/hci_ldisc.c:291-309 | the drain loop ends and is the repeated pull |
| `HciUart.Uart.WriteWork` | package/rtl8821cs-bluetooth/src/hci_ldisc.c:276-327 | the work item with its restart: while callers come between the rounds, each with a packet, a timeout or just room in the device, the object goes through exactly the rounds of the scheduler model and falls asleep |
| `HciUart.RoundsEnd` | package/rtl8821cs-bluetooth/src/hci_ldisc.c:276-327 | however often callers come between the rounds, the work item keeps the scheduling invariant and ends asleep with both bits clear and an attempt made after the last caller |
| `HciUart.PrepareIs` | package/rtl8821cs-bluetooth/src/hci_ldisc.c:480-494 | a packet queued, a timeout and the serial device each change the link and ask for transmission |
| `HciUart.CallIs` | package/rtl8821cs-bluetooth/src/hci_ldisc.c:222-274 | undisturbed, a call sets both bits and queues the work if nobody was sending |
| `HciUart.DrainAllEnds` | package/rtl8821cs-bluetooth/src/hci_ldisc.c:291-309 | draining keeps the scheduling invariant and stops only because nothing is left, memory was refused or a write was cut short |
| `Ring.ListUnlink` | package/rtl8821cs-bluetooth/src/rtk_hciattach/rtb_fwc.c:372-376 | from a sound circular list, unlinking leaves the sound circular list without that entry |
| `Ring.ListDel` | package/rtl8821cs-bluetooth/src/rtk_hciattach/rtb_fwc.c:399-404 | the same, and the entry points nowhere |
| `Ring.ListDelInit` | package/rtl8821cs-bluetooth/src/rtk_hciattach/rtb_fwc.c:391-395 | the same, and the entry is a list of its own |
| `Ring.ListReplaceInit` | package/rtl8821cs-bluetooth/src/rtk_hciattach/rtb_fwc.c:427-441 | the new entry stands in the old one's place and the old one is a list of its own |
| `Ring.ListAdd` | package/rtl8821cs-bluetooth/src/rtk_hciattach/rtb_fwc.c:357-370 | an entry put between neighbours leaves a sound circular list with it there |
| `Ring.ListSpliceTailInit` | package/rtl8821cs-bluetooth/src/rtk_hciattach/rtb_fwc.c:406-425 | all entries of one list stand behind those of the other and the emptied head is a list again |
| `ConfigLists.MergeConfigs` | package/rtl8821cs-bluetooth/src/rtk_hciattach/rtb_fwc.c:663-721 | on the linked lists, in place: the base list then shows the merge of the two item lists, both are sound circles, and the extras are empty, whether or not offsets repeat |
| `ConfigLists.MergeOne` | package/rtl8821cs-bluetooth/src/rtk_hciattach/rtb_fwc.c:684-708 | one extra against the base list: overwritten front, or standing at the last match that makes way, or left alone |
| `ConfigMerge.MergeIsFold` | package/rtl8821cs-bluetooth/src/rtk_hciattach/rtb_fwc.c:663-721 | for a base list with distinct offsets and any extras: each base item is the left fold of its extras in its old place, and unmatched extras follow in order |
| `ConfigMerge.LastExtraWins` | package/rtl8821cs-bluetooth/src/rtk_hciattach/rtb_fwc.c:691-705 | the last extra for an item stands at its front and no item ever gets shorter |
| `ConfigMerge.LastOctetWins` | package/rtl8821cs-bluetooth/src/rtk_hciattach/rtb_fwc.c:691-705 | an item after its extras is, octet by octet, what the last extra that reaches the octet says |
| `ConfigMerge.AbsorbExactly` | package/rtl8821cs-bluetooth/src/rtk_hciattach/rtb_fwc.c:684-708 | with repeated offsets too: matches before the place of the extra make way, the one there is combined with it, all else stays |
| `ConfigMerge.MergeOffsets` | package/rtl8821cs-bluetooth/src/rtk_hciattach/rtb_fwc.c:663-721 | no offset is lost and none made up, also when offsets repeat |
| `Config.ParsePrinted` | package/rtl8821cs-bluetooth/src/rtk_hciattach/rtb_fwc.c:1046-1070 | the file format: parsing the file of some items gives the items exactly while the 16-bit length field can hold their length, and is refused beyond (what the code makes of them is `Config.ProducedExactly`) |
| `Config.PrintedParse` | package/rtl8821cs-bluetooth/src/rtk_hciattach/rtb_fwc.c:727-776 | the file of the items read from any accepted buffer is the buffer, octet for octet, and the code produces it exactly if it is shorter than 65536 octets |
| `Config.ParseExactly` | package/rtl8821cs-bluetooth/src/rtk_hciattach/rtb_fwc.c:727-776 | a buffer parses to some items exactly if it is what they print to |
| `Config.ProducedExactly` | package/rtl8821cs-bluetooth/src/rtk_hciattach/rtb_fwc.c:982-1076 | with the 16-bit length the code allocates and hands on, what it produces is the file of the items exactly if that is shorter than 65536 octets; otherwise it writes past the buffer |
| `Config.ProducedReads` | package/rtl8821cs-bluetooth/src/rtk_hciattach/rtb_fwc.c:982-1076 | what the code produces, whenever it fits, reads back as the same items |
| `Config.TooLargeFile` | package/rtl8821cs-bluetooth/src/rtk_hciattach/rtb_fwc.c:982-1076 | an accepted file of 254 items and 65538 octets for which it does not: the buffer has room for two |
| `Config.WholeWay` | package/rtl8821cs-bluetooth/src/rtk_hciattach/rtb_fwc.c:970-1076 | for every accepted file and all extras the code produces the file of their merge exactly if it is shorter than 65536 octets; that file reads back as the merge, and without extras it is the file read |
| `Config.KnownFile` | package/rtl8821cs-bluetooth/src/rtk_hciattach/rtb_fwc.c:1046-1070 | a file of two items, octet by octet |
| `Config.ParseConfig` | package/rtl8821cs-bluetooth/src/rtk_hciattach/rtb_fwc.c:727-776 | the reading loop computes the parse, with its three refusals and its 16-bit counter |
| `Config.MeasureConfig` | package/rtl8821cs-bluetooth/src/rtk_hciattach/rtb_fwc.c:982-1045 | the two 16-bit lengths are the true sums modulo 65536, which is the length announced |
| `Config.PrintConfig` | package/rtl8821cs-bluetooth/src/rtk_hciattach/rtb_fwc.c:1046-1070 | the writing loops, into a buffer of the 16-bit measured length, produce what is specified for every list of items, running over included |
| `Patch.Arranged` | package/rtl8821cs-bluetooth/src/rtk_hciattach/rtb_fwc.c:1206-1221 | after any insertions the list is ascending in priority, a permutation of what was inserted, and among equals in reverse order of arrival |
| `Patch.OneOrder` | package/rtl8821cs-bluetooth/src/rtk_hciattach/rtb_fwc.c:1206-1221 | these three facts leave only one possible order |
| `Patch.ImageLength` | package/rtl8821cs-bluetooth/src/rtk_hciattach/rtb_fwc.c:1543-1580 | the image is the ordered payloads followed by the configuration, of length exactly the sum |
| `PatchFile.PieceAt` | package/rtl8821cs-bluetooth/src/rtk_hciattach/rtb_fwc.c:1223-1275 | a snippet of a file is its two key octets, two more, a 32-bit length and exactly the payload behind these eight |
| `PatchFile.FileRoundTrip` | package/rtl8821cs-bluetooth/src/rtk_hciattach/rtb_fwc.c:1277-1362 | reading a written file of any sections, of snippets or others, gives all snippets in the order written, whatever stands in the unused octets and behind the sections |
| `PatchFile.ChosenExactly` | package/rtl8821cs-bluetooth/src/rtk_hciattach/rtb_fwc.c:1223-1275 | the snippets chosen are exactly those of the chip version, each as often as it is there |
| `PatchFile.OnePiece` | package/rtl8821cs-bluetooth/src/rtk_hciattach/rtb_fwc.c:1525-1594 | the image of a file with one snippet is its payload and the configuration, if it is for the chip version |
| `PatchLists.InsertQueueSort` | package/rtl8821cs-bluetooth/src/rtk_hciattach/rtb_fwc.c:1206-1221 | on the linked list the new node stands before the first one whose priority is not lower |
| `PatchLists.InsertPatch` | package/rtl8821cs-bluetooth/src/rtk_hciattach/rtb_fwc.c:1223-1275 | the snippet loop inserts exactly the snippets for this chip version and adds up their lengths in 32 bits (where a snippet and its payload stand is `PatchFile.PieceAt` and `PatchFile.FileRoundTrip`) |
| `PatchLists.GetPatchHeader` | package/rtl8821cs-bluetooth/src/rtk_hciattach/rtb_fwc.c:1277-1362 | the section loop without a key leaves the list and length that inserting all chosen snippets of the file in order gives |
| `PatchLists.BuildImage` | package/rtl8821cs-bluetooth/src/rtk_hciattach/rtb_fwc.c:1525-1594 | the list, its 32-bit length and the writing loop give what is specified: an image, none, or one that runs over the memory asked for |
| `PatchLists.BuiltExactly` | package/rtl8821cs-bluetooth/src/rtk_hciattach/rtb_fwc.c:1525-1594 | for every file and configuration the specified image is made exactly if the snippets chosen from the file and the configuration have less than 2^31 octets together, and there is none if no octet was chosen |
| `PatchLists.BuiltCases` | package/rtl8821cs-bluetooth/src/rtk_hciattach/rtb_fwc.c:1525-1594 | beyond that, for every total: no image exactly if the length is zero in 32 bits or, taken for signed, gives no size, and an overrun exactly if the memory is too small |
| `PatchOverlap.TooLargeImage` | package/rtl8821cs-bluetooth/src/rtk_hciattach/rtb_fwc.c:1223-1275 | a file of 1343489 octets, whatever stands before and behind its sections, whose payloads overlap and come to more than that: its image is specified and is not made |
| `PatchOverlap.OverlappingTotal` | package/rtl8821cs-bluetooth/src/rtk_hciattach/rtb_fwc.c:1223-1362 | sections are stepped by their own length and payloads taken by the snippet's, so n sections of 20 octets have n * 32769 octets of payload |
| `Download.Partition` | package/rtl8821cs-bluetooth/src/rtk_hciattach/hciattach_rtk.c:1480-1589 | the chunks of the packets together are the image |
| `Download.FullChunks` | package/rtl8821cs-bluetooth/src/rtk_hciattach/hciattach_rtk.c:1537-1572 | every chunk before the last has 252 octets and the last is not empty |
| `Download.Marks` | package/rtl8821cs-bluetooth/src/rtk_hciattach/hciattach_rtk.c:1537-1572 | packet i has index i up to 127 and ((i - 1) mod 127) + 1 from there, at most 252 octets, and only the last bears 0x80; neighbours never share an index |
| `Download.Round` | package/rtl8821cs-bluetooth/src/rtk_hciattach/hciattach_rtk.c:1537-1589 | one round sends packet i and leaves the buffer pointer at chunk i + 1, although the advance compares the wrapped index, also where the counts have wrapped |
| `Download.Count` | package/rtl8821cs-bluetooth/src/rtk_hciattach/hciattach_rtk.c:1480-1517 | for every size and command count the 16-bit counts are the intended ones of the part of the image they can reach, the last of them modulo 65536 |
| `Download.Download` | package/rtl8821cs-bluetooth/src/rtk_hciattach/hciattach_rtk.c:1462-1612 | for every image the packets sent are specified, up to the first that is not confirmed; the whole image is sent exactly if the last packet's number is below 0xffff and all packets are confirmed |
| `Download.WholeImage` | package/rtl8821cs-bluetooth/src/rtk_hciattach/hciattach_rtk.c:1480-1589 | with all packets confirmed the loop ends and has sent the whole image exactly if the last packet's number is below 0xffff: at 0xffff it begins again, beyond it ends early |
| `Download.OneOctetSent` | package/rtl8821cs-bluetooth/src/rtk_hciattach/hciattach_rtk.c:1480-1589 | of an image one octet longer than 65536 full packets one octet is sent |
| `StopAndWait.DownloadArrives` | package/rtl8821cs-bluetooth/src/rtk_hciattach/hciattach_rtk.c:1132-1295 | however packets and answers are lost and repeated, the host is never past a packet the controller has not taken, and when it is done the whole image was taken in order |
| `StopAndWait.DownloadPossible` | package/rtl8821cs-bluetooth/src/rtk_hciattach/hciattach_rtk.c:1132-1295 | from every reachable state of the download some continuation brings the whole image across |
| `StopAndWait.Neighbours` | package/rtl8821cs-bluetooth/src/rtk_hciattach/hciattach_rtk.c:1537-1543 | a repeated answer for the packet before is never taken for the answer to this one |
| `Attach.HandOver` | package/rtl8821cs-bluetooth/src/rtk_hciattach/hciattach_rtk.c:1480-1509 | after download and reset the next number is the zero the driver starts with, for every image size, exactly if commands sent and completions counted agree modulo 8 |
| `Attach.NormalHandOver` | package/rtl8821cs-bluetooth/src/rtk_hciattach/hciattach_rtk.c:562-638 | if every command is of a counted kind and is answered once with success, the hand-over number is zero |
| `Attach.AnswersCounted` | package/rtl8821cs-bluetooth/src/rtk_hciattach/hciattach_rtk.c:562-638 | a completion is counted exactly if it succeeds, is for the command sent last and is for one of five commands |
| `Attach.AnsweredTwice` | package/rtl8821cs-bluetooth/src/rtk_hciattach/hciattach_rtk.c:562-638 | a command whose completion is seen twice makes it non-zero for every image |
| `Attach.Host.InitCc` | package/rtl8821cs-bluetooth/src/rtk_hciattach/hciattach_rtk.c:562-638 | a completion is counted exactly if it succeeds, is for the command waited for and is of a counted kind |
| `Attach.Host.SendCommand` | package/rtl8821cs-bluetooth/src/rtk_hciattach/hciattach_rtk.c:1300-1339 | a command takes one number and becomes the one waited for |
| `Attach.Host.DownloadAndReset` | package/rtl8821cs-bluetooth/src/rtk_hciattach/hciattach_rtk.c:1462-1612 | whichever packets are confirmed: without a failure the reset follows and the number ends at the hand-over number, with one it has moved by the packets sent and there is no reset; the image is sent whole exactly as for the download |
| `CoexPipe.PipeIsDirect` | package/rtl8821cs-bluetooth/src/rtk_coex.c:2352-2538 | for every chunking of a stream of settled events and every interleaving of receiver, worker and L2CAP packets, at rest and if a buffer was never missing, the state is the one that handling all events directly gives, with the packets in between at the places where they came; and if no counter wraps, profile bits and counters agree there |
| `EventPipe.BuffersKept` | package/rtl8821cs-bluetooth/src/rtk_coex.c:183-212 | at every moment of every run each of the 32 buffers is in exactly one of the free list, the used list and a hand |
| `EventPipe.HandledInOrder` | package/rtl8821cs-bluetooth/src/rtk_coex.c:2352-2373 | at every moment the state is that of the events and signals dealt with, in order, and these events are a prefix of the ones that got a buffer |
| `EventPipe.Refines` | package/rtl8821cs-bluetooth/src/rtk_coex.c:2441-2465 | the same refinement for any filter, reader, handler and signals, if sound events are read alike over any stale octets and only idle ones are dropped |
| `CoexPipe.CoexLocal` | package/rtl8821cs-bluetooth/src/rtk_coex.c:2452-2460 | cutting events to 32 octets over stale octets is invisible to the handlers of settled events |
| `CoexEvents.FilteredIsNothing` | package/rtl8821cs-bluetooth/src/rtk_coex.c:2375-2439 | the filter drops only events whose handler would change nothing |
| `CoexEvents.FilterLosesNothing` | package/rtl8821cs-bluetooth/src/rtk_coex.c:2375-2439 | whatever the filter sees behind a settled event, dropping the event loses nothing |
| `HciEvents.FilterSharp` | package/rtl8821cs-bluetooth/src/rtk_coex.c:2375-2439 | and it is no coarser than it must be: an event is dropped exactly if no event alike in what the filter looks at does anything |
| `CoexEvents.StaleExactly` | package/rtl8821cs-bluetooth/src/rtk_coex.c:2441-2465 | what a handler makes of an event copied into a buffer is independent of the buffer's old octets exactly if the event is settled, which only its own octets decide |
| `CoexPipe.StaleOctetsMatter` | package/rtl8821cs-bluetooth/src/rtk_coex.c:2352-2538 | for a short event two runs of the pipe on one stream, differing only in what the buffers held before, end in different states |
| `Reassembly.CutAnywhere` | package/rtl8821cs-bluetooth/src/rtk_coex.c:2488-2532 | the events found in a stream do not depend on where it is cut |
| `Reassembly.EventsTile` | package/rtl8821cs-bluetooth/src/rtk_coex.c:2488-2532 | the events found and what is left are the stream, octet for octet; each event has the length its second octet says, and what is left is less than one |
| `Reassembly.Assembler.ParseEvent` | package/rtl8821cs-bluetooth/src/rtk_coex.c:2468-2538 | the reassembly loop hands out exactly the whole events and keeps the rest |
| `CoexQueue.EventQueue.Enqueue` | package/rtl8821cs-bluetooth/src/rtk_coex.c:2441-2465 | on the lists and buffers: the pipe's look step, then its hand-over step, the filter seeing what stands behind the event in the receiver's buffer |
| `CoexQueue.EventQueue.Receive` | package/rtl8821cs-bluetooth/src/rtk_coex.c:2468-2538 | the receiving loop is a chunk step followed by looks and hand-overs until every event of the chunk is dealt with |
| `CoexQueue.EventQueue.WorkOne` | package/rtl8821cs-bluetooth/src/rtk_coex.c:2361-2372 | taking a buffer, handling it on the coexistence object and giving it back are the pipe's three worker steps |
| `CoexQueue.EventQueue.Work` | package/rtl8821cs-bluetooth/src/rtk_coex.c:2352-2373 | the worker repeats these three steps until nothing is queued |
| `CoexQueue.EventQueue.Serve` | package/rtl8821cs-bluetooth/src/rtk_coex.c:2352-2538 | in place and end to end: after any sequence of chunks received, wake-ups of the worker and L2CAP packets, with the worker run last, and if events are settled, the coexistence object holds what direct handling of the events that found a buffer gives, and of the whole stream if a buffer was never missing; the pipe invariant is kept in any case |
| `CoexQueue.EventQueue.constructor` | package/rtl8821cs-bluetooth/src/rtk_coex.c:87-140 | a new queue satisfies the pipe invariant, all buffers being free |
| `CoexRun.ProfilesAgree` | package/rtl8821cs-bluetooth/src/rtk_coex.c:728-823 | over every run of events, L2CAP signals and media packets: throughout the run a profile's bit is set exactly if its count is not zero and the interval bit goes with HID, if and only if no step is a successful response whose counter is at 255 |
| `CoexRun.StepExactly` | package/rtl8821cs-bluetooth/src/rtk_coex.c:728-901 | one step keeps it exactly if it is not such a response |
| `CoexRun.AnsweredTooOften` | package/rtl8821cs-bluetooth/src/rtk_coex.c:864-901 | a run that breaks it: one channel whose successful response is seen 256 times |
| `CoexRun.DropChansKeep` | package/rtl8821cs-bluetooth/src/rtk_coex.c:1990-2048 | counting down all channels of a connection keeps bits and counters in agreement |
| `CoexRun.AddExactly` | package/rtl8821cs-bluetooth/src/rtk_coex.c:738-749 | counting up keeps that exactly if the 8-bit counter is not at 255 |
| `CoexRun.ApplyKeeps` | package/rtl8821cs-bluetooth/src/rtk_coex.c:1826-1968 | every event keeps it, including connections begun again under an old handle |
| `CoexRun.DisconReqKeeps` | package/rtl8821cs-bluetooth/src/rtk_coex.c:903-942 | releasing a channel keeps it, also where A2DP takes the sink with it |
| `CoexRun.MediaKeeps` | package/rtl8821cs-bluetooth/src/rtk_coex.c:1006-1009 | marking a connection as sink keeps it |
| `CoexHandles.OneRecordPerHandle` | package/rtl8821cs-bluetooth/src/rtk_coex.c:1826-1968 | over every run: throughout the run there is at most one record per handle, of 12 bits, if and only if no record is ever added under a wider handle |
| `CoexHandles.WideTwice` | package/rtl8821cs-bluetooth/src/rtk_coex.c:1851-1879 | a run that breaks it: a wide handle that connects twice has two records |
| `CoexHandles.CountedDown` | package/rtl8821cs-bluetooth/src/rtk_coex.c:1990-2048 | when an L2CAP connection goes, each profile is given up once per channel of the connection |
| `CoexHandles.DropSink` | package/rtl8821cs-bluetooth/src/rtk_coex.c:1990-2048 | and a media channel gives up one use of the sink |
| `CoexLaws.Flags` | package/rtl8821cs-bluetooth/src/rtk_coex.c:1558-1622 | which events begin and end inquiry, pairing and paging, and that nothing else changes |
| `CoexLaws.Disconnection` | package/rtl8821cs-bluetooth/src/rtk_coex.c:2050-2102 | with status zero: the first record of the masked handle goes, with every channel of the handle if it is an L2CAP connection, and nothing else |
| `CoexLaws.NoRecordRemains` | package/rtl8821cs-bluetooth/src/rtk_coex.c:2050-2102 | with distinct handles the connection is gone then, and of an L2CAP one all channels |
| `CoexLaws.DisconnectionFailed` | package/rtl8821cs-bluetooth/src/rtk_coex.c:2050-2102 | with any other status no connection and no channel goes |
| `CoexLaws.TakenDown` | package/rtl8821cs-bluetooth/src/rtk_coex.c:1990-2048 | the record that goes is counted down by its channels, its audio or its HID use, by its kind |
| `CoexLaws.Connection` | package/rtl8821cs-bluetooth/src/rtk_coex.c:1826-1891 | with status zero a fresh record stands in place of the old one of the handle or behind all others, of the kind of the link type, and without memory only an old one is used |
| `CoexLaws.ConnectionFailed` | package/rtl8821cs-bluetooth/src/rtk_coex.c:1826-1955 | with any other status only paging ends |
| `CoexLaws.LeConnection` | package/rtl8821cs-bluetooth/src/rtk_coex.c:1893-1955 | a low energy connection counts as HID and is active from the start exactly if its interval is below 60 |
| `CoexLaws.Intervals` | package/rtl8821cs-bluetooth/src/rtk_coex.c:780-823 | a changed interval makes a HID connection active exactly if it is below 60, and no other |
| `CoexLaws.Asked` | package/rtl8821cs-bluetooth/src/rtk_coex.c:825-862 | a channel is recorded once, under the identifier of the side that asks, with the profile of its protocol, and as media exactly if the connection has an AVDTP channel already |
| `CoexLaws.Answered` | package/rtl8821cs-bluetooth/src/rtk_coex.c:864-901 | a response that succeeds completes the channel with the other identifier and counts one more use of its profile on the connection, and any other changes nothing |
| `CoexLaws.ReleasedLaw` | package/rtl8821cs-bluetooth/src/rtk_coex.c:903-942 | a release removes exactly the channel with both identifiers and gives up one use of its profile, A2DP with its sink |
| `CoexLaws.MediaLaw` | package/rtl8821cs-bluetooth/src/rtk_coex.c:971-1044 | an incoming packet on a media channel makes an L2CAP connection a sink, once, while A2DP is idle, and nothing else does |
| `CoexLaws.OpenAndClose` | package/rtl8821cs-bluetooth/src/rtk_coex.c:825-942 | a channel asked for, granted and released leaves connections and channels as they were |
| `HciEvents.ConnectionRead` | package/rtl8821cs-bluetooth/src/rtk_coex.c:1826-1891 | status, handle and link type of a written connection event are read back |
| `HciEvents.DisconnectionRead` | package/rtl8821cs-bluetooth/src/rtk_coex.c:2050-2102 | status and handle of a written disconnection event are read back |
| `HciEvents.ModeRead` | package/rtl8821cs-bluetooth/src/rtk_coex.c:1623-1650 | handle and interval of a written mode change are read back |
| `HciEvents.CompletedRead` | package/rtl8821cs-bluetooth/src/rtk_coex.c:1739-1788 | which command completions matter, by opcode and status |
| `HciEvents.VersionRead` | package/rtl8821cs-bluetooth/src/rtk_coex.c:1739-1788 | revision and subversion of a written version answer are read back |
| `HciEvents.StatusRead` | package/rtl8821cs-bluetooth/src/rtk_coex.c:1790-1825 | which command statuses matter, by opcode and status |
| `HciEvents.LeConnectionRead` | package/rtl8821cs-bluetooth/src/rtk_coex.c:1893-1955 | status, handle and interval of a written low energy connection event are read back |
| `HciEvents.LeEnhancedRead` | package/rtl8821cs-bluetooth/src/rtk_coex.c:1893-1955 | the same of its longer form, where two addresses precede the interval |
| `HciEvents.LeUpdateRead` | package/rtl8821cs-bluetooth/src/rtk_coex.c:1957-1968 | handle and interval of a written connection update are read back |
| `HciEvents.BareEvents` | package/rtl8821cs-bluetooth/src/rtk_coex.c:2120-2183 | the event codes that matter by themselves |
| `HciEvents.OthersIdle` | package/rtl8821cs-bluetooth/src/rtk_coex.c:2120-2183 | every other event code and low energy event is of no interest |
| `CoexDevice.Btcoex.FindConnection` | package/rtl8821cs-bluetooth/src/rtk_coex.c:341-355 | the walk finds the first connection with the masked handle |
| `CoexDevice.Btcoex.UpdateProfileConnection` | package/rtl8821cs-bluetooth/src/rtk_coex.c:728-778 | bit and counter change as specified, the interval bit going with the last HID use |
| `CoexDevice.Btcoex.UpdateHidActiveState` | package/rtl8821cs-bluetooth/src/rtk_coex.c:780-823 | the interval bit follows the interval of a HID connection |
| `CoexDevice.Btcoex.ConnectionUp` | package/rtl8821cs-bluetooth/src/rtk_coex.c:1851-1879 | a connection record is made or begun again |
| `CoexDevice.Btcoex.DisconnAcl` | package/rtl8821cs-bluetooth/src/rtk_coex.c:2019-2048 | the connection's record is counted down channel by channel and exactly the channels of the handle are removed, the others keeping their order |
| `CoexDevice.Btcoex.DisconnectComplete` | package/rtl8821cs-bluetooth/src/rtk_coex.c:2050-2102 | a disconnection ends pairing, counts down by the kind of connection and deletes the record, as specified (what that means is `CoexLaws.Disconnection`, `CoexLaws.DisconnectionFailed` and `CoexLaws.TakenDown`) |
| `CoexDevice.Btcoex.ParseEventData` | package/rtl8821cs-bluetooth/src/rtk_coex.c:2120-2183 | the dispatch and all handlers, on the octets of an event, have the specified effect |
| `CoexDevice.Btcoex.L2capConReq` | package/rtl8821cs-bluetooth/src/rtk_coex.c:825-862 | a new channel is recorded once, the second AVDTP channel as media |
| `CoexDevice.Btcoex.L2capConRsp` | package/rtl8821cs-bluetooth/src/rtk_coex.c:864-901 | a successful response completes the channel and counts its profile |
| `CoexDevice.Btcoex.L2capDisconReq` | package/rtl8821cs-bluetooth/src/rtk_coex.c:903-942 | a channel found under a live connection is released and removed |
| `CoexDevice.Btcoex.PacketsCount` | package/rtl8821cs-bluetooth/src/rtk_coex.c:971-1044 | an incoming media packet on an idle A2DP channel makes the connection a sink |

## Left out

- CoexQueue.EventQueue.Serve: receiver, worker and packets take turns as whole calls; their finer interleavings are covered by `CoexPipe.PipeIsDirect`.
- HciUart.Uart.WriteWork: callers come between the rounds, with a whole call each; all other interleavings, and callers that accept a frame in two sections, are covered by `TxSched`.
- HciUart.Uart.TxWakeup: its three steps run undisturbed; interference between them is covered by `TxSched`.
- PatchLists.BuildImage: firmware whose sections or snippets reach past the end of the file has no image in the model; a size that does not fit 31 bits counts as refused memory.
- Config.ParseConfig: a buffer whose items do not tile it ends as a separate outcome where the source would read on past its end; items dropped for want of memory are not modelled.
- Config.PrintConfig: an empty allocation counts as one that is run over; what stands in memory after running over is not modelled.
- Config.ParsePrinted: speaks of the file format alone; the 16-bit length the code works with is in `Config.ProducedExactly`.
- Download.Download: demands at least one octet; where the loop begins again its second pass is not followed.
- StopAndWait.DownloadArrives: the controller is an assumption (it answers a packet with the packet's index, in order); any number of retries is allowed, of which the source's three are a part.
- H5Network: dequeuing a frame is one atomic step, receiving one is two, as the locks divide them; a frame damaged on the line counts as lost, which the check proofs justify for one octet of the header and for two adjacent octets behind it.
- TxSched: taking a frame and writing it is one step of the worker; tty writes do not fail.
- Security-header (key) path of patch assembly, old-format firmware, OTA sections, and the choice of files and chips.
- `profile_status`, packet counters and their timers, notifications to firmware and WiFi, and the counter of the HID interval pseudo-profile, on which no invariant is stated.
- Command parsing in the coexistence module, which sets the inquiry and paging flags.
- `hci_h4.c`, the H4 attach path beyond packet numbering, and the disabled link-establishment handler: easier cousins of what is modelled.
- Opening, closing and flushing, memory barriers, spinlocks and the protocol read lock; atomic locked sections and sequentially consistent bit operations are taken for granted.
- tty, epoll, timers, file reading, baud rates and chip tables.
- The Buildroot makefiles, device trees, scripts and documentation of the repository.
