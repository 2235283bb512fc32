# no2usb, modelled and proved in Dafny

no2usb is a USB full-speed device controller: a bit and packet layer, a small processor that runs a
microcode ROM for every transaction, and C drivers that share buffer descriptors with it. This project
models the layers from the wire to the drivers and proves what they are for: what the device puts on the
wire is what it should be, packets move exactly once and in order between host and driver whatever the
bus loses, and firmware images arrive in flash as they were sent.

`dafny verify dfyconfig.toml` checks everything.

## How it is put together

| files | what they hold |
|---|---|
| `Isa`, `Assembler` | instruction words, the assembler as loops over its lists, and the proof that it preserves meaning |
| `Engine`, `Core` | the transaction engine's registers as values and as a class, the receive timeout counter |
| `Microcode`, `Blocks`, `Rom` | the microcode, transcribed section by section; every build assembles and runs as its blocks do |
| `BlockSteps`, `Transactions` | one equation per block; the protocol machine that the ROM follows over every sequence of inputs |
| `Decision` | one decision per transaction in USB's terms, and that every transaction from IDLE to IDLE is that decision |
| `Safety`, `Lockout` | what holds over every run: nothing accepted is dropped, only ready descriptors are used, the lockout |
| `Window` | which received bytes reach the buffer |
| `Bytes`, `InDriver`, `InPath` | the TinyUSB driver's IN side in place, and host to driver end to end over a lossy bus |
| `OutDriver`, `OutPath`, `OutFaults`, `OutProgress` | the same for OUT, with transfers put together again; where the OUT side fails, and that it does not fail otherwise; that it goes on |
| `EndToEnd` | whole runs of those systems on the assembled ROM |
| `Ep0`, `Ep0Bus`, `Ep0Progress` | the control endpoint's engine, whole runs of it with a host on the assembled ROM, and that they go on |
| `Crc`, `LineCode`, `Packet`, `PacketExact` | CRC, bit stuffing with NRZI, packets: transmitter against receiver, and exactly which packets are taken |
| `Dfu`, `DfuHost`, `Descriptors` | the flash writer, whole downloads and reads by a host, descriptor search and buffer memory |

The chain of refinements for a transaction is: the assembler's output runs like the symbolic program
(`Assembler`), the symbolic program like its blocks (`Blocks`, `Rom`), the blocks like the protocol machine
(`Transactions`), one transaction of the protocol machine like the decision (`Decision`), and the systems
of `InPath` and `OutPath` use that decision for the hardware's part. `EndToEnd` puts the chain together: over
every run of those systems the ROM, from reset, takes the run's bus traffic and register writes, and ends
with the system's registers. `Ep0Bus` does the same for the control endpoint.

Each object that the sources update in place is a class whose methods are tied to functions on values
(`Core.UsbTrans`, `Window.RxWindow`, `Crc.UsbCrc`, `LineCode.UsbTxLl`, `LineCode.UsbRxLl`,
`Packet.UsbTxPkt`, `Packet.UsbRxPkt`, `InDriver.InEndpoint`, `OutDriver.OutEndpoint`, `Dfu.DfuWriter`,
`Ep0.Engine0`, `Descriptors.Allocator`); the theorems are about those functions.

## What is assumed

- The build has ADDR_MATCH, and the firmware has the address check on, as both firmwares do: tokens for other
  addresses are then no tokens to the engine (`Decision.ElsewhereIgnored`). The bus may carry other devices'
  transactions between any two events of `EndToEnd` and `Ep0Bus`.
- The engine's events are delivered one at a time, each at a load of the event register; the endpoint's
  status and descriptor are fetched at the token at once. A timeout is an event of the bus:
  `rtl/usb_trans.v:254` loads the counter without its enabling bit, so it never fires (`Core.RtoNeverFires`;
  with that bit it would, `Core.RtoFires`), and the path at `utils/microcode.py:386-388` never loads it.
- `Transactions.RomFollowsProtocol` and `Safety.NeverDropped` hold for every sequence of inputs.
  `Safety.OnlyReadyUsed` excludes tokens where they do harm, and only there: in place of a SETUP's or an
  isochronous endpoint's data in a build that reports errors (`Safety.TokenMisplaced`,
  `Safety.TokenInsteadOfData`), and while the device itself sends (`Safety.TokenWhileSending`); and firmware
  writes to the very descriptor the engine is at work with. `Lockout.LockoutHolds` needs no token while the
  device itself sends, `EndToEnd.RomDelivers` none in place of a handshake.
- Calls of the TinyUSB driver are single steps of `InPath` and `OutPath`: the hardware does nothing between two
  of their register accesses. A transaction is a single step there too: the driver is not called between a
  token and the end of its transaction on the same endpoint (`Transactions` and `Safety` do let the firmware
  write there). In `Ep0` and `Ep0Bus` the hardware may act between any two turns of the poll's loop, not within
  one, and the firmware between any two transactions.
- TinyUSB driver: packet sizes are multiples of 4, because buffers are not rounded up
  (`fw/tinyusb/dcd_no2usb.c:202-208`); at most 1023 bytes for IN and 1021 for OUT, because the length field
  has ten bits and counts the CRC. Endpoints of any size can be opened; those with these sizes are the ones in
  order. A transfer is submitted when none is in progress, and the word after its buffer can be read. In the
  systems of `InPath` it is empty if it has no buffer; with a length and no buffer it never ends
  (`InDriver.NeverEnds`). Host packets are no longer than the packet size.
- Receive errors with two OUT descriptors, in builds that report them: `fw/tinyusb/dcd_no2usb.c:365` always
  makes `bd[0]` ready again. As long as no data is damaged or missing when `bd[1]` is the ready descriptor due,
  every packet is taken once and in order (`OutPath.TakenOnceInOrder`). The first time it is, the endpoint is
  finished: at most one more packet is ever taken (`OutFaults.HitEnds`), and if the host's retry comes before
  the driver runs, that packet is acknowledged and then overwritten (`OutFaults.HitLoses`). Errors in `bd[0]`
  lose nothing, but leave the fill index behind: a driver call starves the endpoint for ever if and only if it
  finds `bd[0]` failed and the fill index at it, while the hardware is due at `bd[1]` and that is free, or holds a
  packet the call is to take (`OutFaults.StarvesExactly`, over runs `OutFaults.StarvedExactly`,
  `OutFaults.StarvedForGood`); every other call with more to receive leaves the descriptor due ready
  (`OutFaults.ReadyExactly`). With IGNORE_RX_ERR, with one descriptor, or with no damage none of this happens
  (`OutFaults.KeptReady`).
- Clearing a halt: `fw/tinyusb/dcd_no2usb.c:807-826` leaves the data toggle as it is while USB 2.0 section
  9.4.5 resets the host's. Host and device stay in step for good if and only if the host was due DATA0;
  otherwise they stay one packet apart: one lost if the device was due DATA1, one repeated if it was due DATA0
  (`InPath.ClearedHalt`, `OutFaults.ClearedHalt`, and the two lemmas after each).
- DFU: the host waits for dfuDNLOAD_IDLE (DFU 1.1 section 6.1), but may give up a block whose data it is still
  sending; blocks are at most 4096 bytes, zones are whole 4096-byte sectors. Blocks are refused by what has been
  erased, not by what has been programmed (`fw/v0/src/usb_dfu.c:237`): once the last sector is erased every
  further block is, also one that fits (`Dfu.AcceptedExactly`, `Dfu.LastSectorRefuses`). The code itself accepts
  ABORT and DNLOAD in dfuDNLOAD_SYNC (`fw/v0/src/usb_dfu.c:47-52`). ABORT is harmless if and only if nothing of
  the block has been programmed (`Dfu.AbortBeforeProgramming`, `Dfu.AbortWhileProgramming`,
  `Dfu.ResendAfterAbort`); after DNLOAD the ticks that come before its data store the block before it in the new
  one's place, and if something of that had been programmed a command is not allowed (`Dfu.DnloadInSync`).
- End of packet: after a packet's last bit the bit offered to the line transmitter is not defined
  (`rtl/usb_tx_pkt.v:166`), and SE0 may last three bit times instead of two (`rtl/usb_tx_ll.v:95`); both are
  accepted by the receiver.
- The packet receiver takes up to one bit too many or too few before the end of packet, by the number of SE0 it
  sees (`rtl/usb_rx_pkt.v:234`, `PacketExact.ReceivedExactly`). After an error found at the end of a packet it
  rests only after seven times J; a packet that begins earlier is passed over (`PacketExact.NextAfterError`).
- The control endpoint: a host writes no more than it announced, in packets of at most 64 bytes, repeats a
  packet until it is acknowledged, and sends no data between a SETUP that failed and the next one accepted
  (`Ep0Bus.Fair`). What request handlers answer is a parameter, and may be different each time. No other
  endpoint's traffic comes in between in `Ep0Bus`; it would leave EP0's registers alone
  (`Decision.TransactionDecided`).

## Model

| member | source | states |
|---|---|---|
| Isa.DecodeEncode | utils/microcode.py:17-62 | the engine's decoder reads every instruction the encoders can write back as itself |
| Isa.DecodeJmp | utils/microcode.py:53-62 | an aligned jump survives encoding if and only if its target lies in the 256-word ROM |
| Assembler.ScanSelects | utils/microcode.py:94-112 | the stack of conditions selects exactly the sections that the nesting makes active |
| Assembler.FirstPass | utils/microcode.py:90-112 | the first loop lays the selected items out, pads before labels, and fails exactly on unbalanced sections or a duplicate label |
| Assembler.Assemble | utils/microcode.py:90-116 | the two loops compute the image of the selected program, or fail exactly when there is none |
| Assembler.LabelsAligned | utils/microcode.py:97-102 | every label's address is a multiple of four |
| Assembler.RomFollowsSource | rtl/usb_trans.v:168-179 | whatever the symbolic program does in n steps, the ROM does in at most n clocks |
| Assembler.SourceFollowsRom | rtl/usb_trans.v:168-179 | every clock of the ROM is a point of the symbolic run |
| Assembler.AssemblerPreservesMeaning | utils/microcode.py:90-116 | for every well-nested source and definitions, ROM and selected program execute the same non-jump instructions in the same order to the same effect; labels are aligned |
| Microcode.SelectListing | utils/microcode.py:172-487 | in each build the listing selects its labelled blocks, in order |
| Rom.RomExists | utils/microcode.py:490-499 | all builds of the microcode assemble into fewer than 256 words, with every label of the build aligned |
| Rom.RomRunsBlocks | utils/microcode.py:172-487 | from reset the assembled ROM reaches any state that its blocks reach, about to run the block they lead to |
| BlockSteps.RunCheck | utils/microcode.py:200-216 | the type tests lead where isochronous, absent, halted and locked endpoints belong |
| BlockSteps.RunOutRespond | utils/microcode.py:361-383 | the answer to good data, as one choice among STALL, NAK, ACK of a repeat, and acceptance |
| Transactions.Turn | utils/microcode.py:172-487 | from each place where the microcode waits, one input leads to the protocol's next phase and registers |
| Transactions.RomFollowsProtocol | utils/microcode.py:172-487 | over every sequence of bus and firmware events, the assembled ROM takes every input and ends in the protocol's registers and phase |
| Decision.TransactionDecided | utils/microcode.py:172-487 | every transaction from IDLE back to IDLE sends, notifies, writes back, toggles and locks as the one decision of token, type, halt, lockout, descriptor, toggle and reception says, and leaves other endpoints alone |
| Decision.AnswersAsUsb | utils/microcode.py:200-401 | the decision gives the answers that USB 2.0 sections 8.4.6.1 and 8.4.6.3 ask of a function, NAK while locked, and none to a SETUP that it cannot take |
| Decision.ElsewhereIgnored | rtl/usb_trans.v:237-245 | whatever the bus carries for other addresses between the engine's own transactions, nothing is sent or reported, and status memory and lockout stay |
| Decision.OtherDevice | rtl/usb_trans.v:237-245 | so with every transaction of another device, of any kind |
| Decision.EndpointDecided | utils/microcode.py:200-401 | the same for one endpoint by itself |
| Safety.NeverDropped | utils/microcode.py:386-388 | over every run, a packet the engine accepts is data and was stored as far as its descriptor has room, never dropped by ZL |
| Safety.OnlyReadyUsed | utils/microcode.py:304-401 | at every step of every orderly run, firmware writes in between, only descriptors ready at that time are written back, and they become done |
| Safety.TokenMisplaced | utils/microcode.py:292-325 | a token in place of a SETUP's or an isochronous endpoint's data marks its own descriptor as failed: in order if and only if that is ready, or is marked in just that way already |
| Safety.TokenWhileSending | utils/microcode.py:254-290 | a token while an isochronous packet is sent makes its own descriptor done |
| Safety.TokenInsteadOfData | utils/microcode.py:317-321 | a token in place of a SETUP packet's data makes that token's descriptor failed, ready or not |
| Lockout.LockoutHolds | rtl/usb_trans.v:384-393 | while locked, over every run, control endpoints send NAK, STALL or nothing, report no success, and none of their descriptors becomes DONE_OK |
| Lockout.SetupLocks | utils/microcode.py:309-314 | accepting a SETUP packet starts the lockout |
| Core.UsbTrans.OnToken | rtl/usb_trans.v:281-376 | a token latches endpoint, lockout, status and current descriptor |
| Core.UsbTrans.OnPacket | rtl/usb_trans.v:224-245 | a packet sets its event, its identifier if good, and the counters |
| Core.UsbTrans.Clock | rtl/usb_trans.v:163-405 | what the bits of the instruction word do to program counter, A register, event latch, endpoint registers, lockout and status memory in one clock is the step of the ROM's machine |
| Core.RtoFires | rtl/usb_trans.v:248-261 | the timeout counter fires if and only if its enabling bit was loaded, once, after timeout + 1 clocks |
| Core.RtoNeverFires | rtl/usb_trans.v:253-254 | as it is loaded it never fires, whatever is received |
| Window.WritesWhatFits | rtl/usb_trans.v:413-452 | exactly the first bytes that fit are written, in order from the pointer on; all are counted modulo 1024 |
| Window.NothingAfterZl | rtl/usb_trans.v:420-425 | after ZL nothing is written |
| Window.CountersAgree | rtl/usb_trans.v:420-452 | the engine model's counters of stored and counted bytes are the byte-level ones |
| Window.RxWindow.OnData | rtl/usb_trans.v:413-452 | one received byte in place |
| Bytes.WriteWords | fw/tinyusb/dcd_no2usb.c:133-144 | the copy writes whole words: the packet, and what follows it up to the last word's end |
| Bytes.ReadBytes | fw/tinyusb/dcd_no2usb.c:146-167 | the copy out of the buffer writes exactly the packet's bytes |
| InDriver.RetireBounded | fw/tinyusb/dcd_no2usb.c:220-250 | the retire loop goes round no more often than there are descriptors |
| InDriver.FillBounded | fw/tinyusb/dcd_no2usb.c:256-305 | so does the fill loop |
| InDriver.NeverEnds | fw/tinyusb/dcd_no2usb.c:256-305 | a transfer with a length but no buffer queues empty packets only, and is never finished |
| InDriver.InEndpoint.constructor | fw/tinyusb/dcd_no2usb.c:673-735 | an opened IN endpoint of any type and size: bulk ones doubled, nothing filled; it is in order if and only if its buffers lie apart and hold whole words |
| InDriver.InEndpoint.AdvanceXferIn | fw/tinyusb/dcd_no2usb.c:211-306 | the loops compute retiring, then filling |
| InDriver.InEndpoint.EdptStall | fw/tinyusb/dcd_no2usb.c:774-826 | halting and resuming change the status word's halt bit only |
| InDriver.InEndpoint.EdptXfer | fw/tinyusb/dcd_no2usb.c:738-772 | a transfer starts from its first byte and is advanced at once |
| InPath.RetireRing | fw/tinyusb/dcd_no2usb.c:220-250 | retiring catches up with the hardware, keeps the ring, and never meets DONE_ERR |
| InPath.FillRing | fw/tinyusb/dcd_no2usb.c:256-305 | filling keeps retire <= hardware <= fill <= retire + size with each descriptor's state and data, loses no byte of the transfer, and stops only when it is queued or the ring is full |
| InPath.AdvanceCatchesUp | fw/tinyusb/dcd_no2usb.c:211-306 | after a driver call every packet acknowledged is retired, no descriptor is left done, and a transfer not finished fills the ring |
| InPath.SubmitCatchesUp | fw/tinyusb/dcd_no2usb.c:738-772 | so after a new transfer is started |
| InPath.TokenKeeps | utils/microcode.py:200-252 | a transaction, whatever is lost, keeps host and hardware level or the host one packet ahead |
| InPath.EventKeeps | fw/tinyusb/dcd_no2usb.c:211-306 | so does every driver call, halt and resume |
| InPath.FlatAllChunks | fw/tinyusb/dcd_no2usb.c:263-279 | the packets of transfers hold the transfers' bytes |
| InPath.DeliveredInOrder | fw/tinyusb/dcd_no2usb.c:211-306 | in every run, whatever is lost or damaged, the host's packets and bytes are a prefix of those submitted, and all of them once nothing is left to send |
| InPath.RunReports | fw/tinyusb/dcd_no2usb.c:284-300 | in every run each transfer is reported once, in turn, with its length |
| InPath.HaltStalls | fw/tinyusb/dcd_no2usb.c:774-826 | a halted endpoint answers STALL and moves nothing; once resumed it is as before |
| InPath.RoundDelivers | fw/tinyusb/dcd_no2usb.c:211-306 | with packets left, a driver call and an undisturbed transaction have one more acknowledged, and the host has all of those |
| InPath.RoundsDeliver | fw/tinyusb/dcd_no2usb.c:211-306 | from any point of any run, as many such rounds as packets are left finish the transfers: the host has every byte |
| InPath.CleanTransaction | utils/microcode.py:219-247 | an undisturbed transaction gets the next packet through |
| InPath.HardwareAgrees | utils/microcode.py:200-252 | the system's hardware step is what the protocol run over the transaction's bus traffic does |
| InPath.ClearedHalt | fw/tinyusb/dcd_no2usb.c:807-826 | in every run after the host's toggle is reset, what the host has is what was sent if and only if it was due DATA0; if not, it is one packet short or one too many, for good |
| InPath.ClearedHaltLoses | fw/tinyusb/dcd_no2usb.c:807-826 | if both were due DATA1 the next packet is lost |
| InPath.ClearedHaltRepeats | fw/tinyusb/dcd_no2usb.c:807-826 | if only the host was, it takes its last packet twice |
| OutDriver.OutEndpoint.constructor | fw/tinyusb/dcd_no2usb.c:673-735 | an opened OUT endpoint of any type and size has its descriptors ready; it is in order if and only if its buffers lie apart, hold whole words, and its packets with their CRC fit the length field |
| OutDriver.OutEndpoint.TakePacket | fw/tinyusb/dcd_no2usb.c:328-360 | a received packet is copied as far as wanted, its descriptor freed, and the transfer finished if short or full |
| OutDriver.OutEndpoint.AdvanceXferOut | fw/tinyusb/dcd_no2usb.c:308-400 | the loops compute retiring, then making descriptors ready |
| OutDriver.OutEndpoint.EdptXfer | fw/tinyusb/dcd_no2usb.c:738-772 | a transfer takes packets already waiting at once |
| OutPath.RetireKeeps | fw/tinyusb/dcd_no2usb.c:317-374 | retiring, errors in the first descriptor included, keeps ring and transfers' books, and leaves no packet while a transfer waits |
| OutPath.AdvanceKeeps | fw/tinyusb/dcd_no2usb.c:308-400 | a driver call keeps both, and stops filling only at a descriptor that is not free |
| OutPath.StoredRing | rtl/usb_trans.v:447-452 | storing a packet in the ready buffer disturbs no packet waiting in the other |
| OutPath.TokenKeeps | utils/microcode.py:327-401 | a transaction, whatever is lost or damaged but for a second descriptor, keeps the packets taken equal to those acknowledged, or one more |
| OutPath.TakenOnceInOrder | utils/microcode.py:327-401 | in every run in which no error meets a ready second descriptor, the packets taken are the host's, in order, once each; every finished transfer has exactly its own group of packets, cut at the first short one or when full; and the bytes are the host's |
| OutPath.FlowControl | utils/microcode.py:343-379 | with no descriptor ready nothing is taken or touched, and a repeat is still acknowledged |
| OutPath.CleanTransaction | utils/microcode.py:327-383 | an undisturbed transaction gets a packet through to a ready descriptor |
| OutPath.HardwareAgrees | utils/microcode.py:327-401 | the system's hardware step is what the protocol run over the transaction's bus traffic does |
| OutFaults.HitEnds | fw/tinyusb/dcd_no2usb.c:361-366 | after an error in a ready second descriptor at most one more packet is ever taken, whatever happens |
| OutFaults.HitLoses | fw/tinyusb/dcd_no2usb.c:361-366 | and if the retry comes before the driver runs, its packet is acknowledged and lost |
| OutFaults.StarvesExactly | fw/tinyusb/dcd_no2usb.c:317-399 | a driver call leaves the endpoint starved if and only if it was before, or the call finds the first descriptor failed and the fill index at it, the hardware due at the second, and that free or with a packet to be taken |
| OutFaults.ReadyExactly | fw/tinyusb/dcd_no2usb.c:376-399 | a driver call with more to receive leaves the descriptor due ready if and only if that is not so |
| OutFaults.StarvedExactly | fw/tinyusb/dcd_no2usb.c:308-400 | in every run in which no error meets a ready second descriptor, the endpoint ends starved if and only if some driver call of the run met that condition |
| OutFaults.FailureStarves | fw/tinyusb/dcd_no2usb.c:361-399 | on the bus it comes to this when the first descriptor fails with the fill index at it, while the second is free or holds a packet that a transfer waits for |
| OutFaults.StarvedForGood | fw/tinyusb/dcd_no2usb.c:376-399 | from a starved endpoint no run of events lets a packet through |
| OutFaults.KeptReady | fw/tinyusb/dcd_no2usb.c:308-400 | without damage, without reports or with one descriptor, a driver call leaves every descriptor ready or full, in every run |
| OutFaults.ClearedHalt | fw/tinyusb/dcd_no2usb.c:807-826 | in every run after the host's toggle is reset, packets taken and acknowledged stay in step if and only if it was due DATA0; if not, they stay one apart |
| OutFaults.ClearedHaltLoses | fw/tinyusb/dcd_no2usb.c:807-826 | if both were due DATA1 the next packet is acknowledged and lost |
| OutFaults.ClearedHaltRepeats | fw/tinyusb/dcd_no2usb.c:807-826 | if only the host was, its last packet is taken twice |
| OutProgress.HaltStalls | fw/tinyusb/dcd_no2usb.c:774-826 | a halted endpoint answers data with STALL and takes none; once resumed it is as before |
| OutProgress.SubmitTakes | fw/tinyusb/dcd_no2usb.c:738-772 | a new transfer takes every packet that waits, at once, and frees their descriptors, or is finished |
| OutProgress.PollAble | fw/tinyusb/dcd_no2usb.c:308-400 | a driver call of an endpoint neither halted nor starved leaves it so, with every packet taken and the descriptor due ready if a transfer waits for more |
| OutProgress.RoundTakes | fw/tinyusb/dcd_no2usb.c:308-400 | then an undisturbed transaction gets one more packet through and acknowledged |
| OutProgress.TransferFinishes | fw/tinyusb/dcd_no2usb.c:308-400 | so every transfer is finished, with exactly its own packets, after at most two rounds more than it has full packets |
| EndToEnd.RomDelivers | utils/microcode.py:200-252 | over every run of driver, bus with other devices, and host the assembled ROM takes the traffic and ends with the IN system's registers and packets sent, and the host has the transfers' first bytes |
| EndToEnd.RomTakes | utils/microcode.py:327-401 | the same for OUT: the packets taken are those the host saw acknowledged, or one more |
| EndToEnd.StoredAgrees | rtl/usb_trans.v:413-452 | the bytes the OUT system stores are as many as the engine counts |
| Crc.UsbCrc.Clock | rtl/usb_crc.v:36-44 | the register holds the complement of the message's remainder at every bit |
| Crc.UsbCrc.Output | rtl/usb_crc.v:46-50 | the bits put out are the message's CRC |
| Crc.HwStepRefines | rtl/usb_crc.v:36-40 | the inverted register refines the textbook one preset to ones |
| Crc.RunLinear | rtl/usb_crc.v:36-44 | the register is linear in its start and its input |
| Crc.ResidueExact | rtl/usb_crc.v:46 | the residue is reached if and only if a message is followed by its CRC |
| Crc.MatchMeans | rtl/usb_crc.v:46 | the match output says exactly that |
| Crc.Residues | rtl/usb_rx_pkt.v:251-278 | the two comparison values are the residues of their polynomials |
| Crc.BurstDetected | rtl/usb_crc.v:36-46 | a non-zero error within as many consecutive bits as the CRC has is always detected, for words of any length |
| LineCode.SendIsStandard | rtl/usb_tx_ll.v:58-130 | the transmitter stuffs and encodes as USB 2.0 sections 7.1.8 and 7.1.9 ask, and ends with two or three SE0 and J |
| LineCode.Unstuffs | rtl/usb_rx_ll.v:103-183 | decoding gives the stuffed bits back without a stuffing error, also after six ones |
| LineCode.LineRoundTrip | rtl/usb_rx_ll.v:103-183 | a packet's bits come out of the receiver as they went into the transmitter, after the synchronisation pattern |
| LineCode.EopSeen | rtl/usb_rx_ll.v:123-134 | the end of packet is seen at its first J and not before |
| LineCode.NoSevenEqual | rtl/usb_tx_ll.v:58-130 | whatever is sent, from the synchronisation pattern to the end of packet, the transmitter's wire never keeps one level across seven bit intervals |
| LineCode.SyncSound | rtl/usb_rx_ll.v:136-157 | a synchronisation pattern that is detected was on the wire |
| LineCode.SyncExactly | rtl/usb_rx_ll.v:136-157 | the pattern is detected at its last symbol and not before if and only if what came before it is no alternation that it continues |
| LineCode.EopSound | rtl/usb_rx_ll.v:123-134 | an end of packet that is seen was on the wire: two SE0 and a J |
| LineCode.UsbTxLl.Tick | rtl/usb_tx_ll.v:58-130 | one bit time of the transmitter in place |
| LineCode.UsbRxLl.Sample | rtl/usb_rx_ll.v:106-183 | one symbol of the receiver in place |
| Packet.TransmitsBody | rtl/usb_tx_pkt.v:85-223 | the transmitter's bits are synchronisation, identifier, payload and CRC, for every payload including the empty one |
| Packet.DataReceived | rtl/usb_rx_pkt.v:208-295 | whole bytes of data are signalled in order, and the CRC result is that of all of them |
| Packet.PacketRoundTrip | rtl/usb_rx_pkt.v:113-193 | for every handshake and data packet, what the transmitter puts on the wire is received as that packet with its two CRC bytes and a good end, never through the error state |
| Packet.CrcDecides | rtl/usb_rx_pkt.v:166-193 | whatever bytes, none included, are on the wire as a data packet, at its end of packet it is good if and only if it ends in the CRC of what came before; otherwise an error is reported |
| Packet.TokenDecides | rtl/usb_rx_pkt.v:166-193 | whatever sixteen bits are on the wire as a token or start of frame, at its end of packet it is good if and only if the last five are the CRC of the eleven before; otherwise an error is reported |
| Packet.TokenDamageReported | rtl/usb_rx_pkt.v:178-184 | a token on the wire with up to five consecutive bits changed is reported as an error |
| Packet.DamageReported | rtl/usb_rx_pkt.v:178-184 | a packet on the wire with up to sixteen consecutive bits of payload and CRC changed is reported as an error |
| PacketExact.Identifiers | rtl/usb_defs.vh:16-27 | the nine packet identifiers, by their bits on the wire |
| PacketExact.ReceivedExactly | rtl/usb_rx_pkt.v:113-193 | whatever bits are on the wire, the packet is signalled as good if and only if they are, up to the bits the end of packet reads as, a good packet's whole bytes: identifier with its complement, nothing behind a handshake, two bytes with CRC5 behind a token, CRC16 at the end of data; and as an error, once, if not |
| PacketExact.BadIdentifier | rtl/usb_rx_pkt.v:304-316 | a first byte whose halves are not complements, or that is none of the nine identifiers: whatever follows, an error is reported, and no start |
| PacketExact.StuffingError | rtl/usb_rx_pkt.v:184-191 | a stuffing error in data is reported as an error of the packet, and nothing more until its end |
| PacketExact.ErrorLasts | rtl/usb_rx_pkt.v:145-148 | an error found at the end of a packet holds the receiver until seven times J, and not longer |
| PacketExact.NextAfterError | rtl/usb_rx_pkt.v:145-148 | then the next packet is received as from rest; one that begins earlier is passed over without a word |
| Packet.UsbTxPkt.Next | rtl/usb_tx_pkt.v:85-223 | one acknowledged bit of the transmitter in place |
| Packet.UsbRxPkt.Symbol | rtl/usb_rx_pkt.v:113-357 | one symbol of the receiver in place |
| Dfu.DfuWriter.OnTick | fw/v0/src/usb_dfu.c:121-165 | one tick in place |
| Dfu.DfuWriter.CtrlReq | fw/v0/src/usb_dfu.c:197-324 | each request in place, reading flash included |
| Dfu.SelectStarts | fw/v0/src/usb_dfu.c:326-347 | with nothing under way, selecting a zone of whole sectors begins a download, and changes no byte of the flash |
| Dfu.TickKeeps | fw/v0/src/usb_dfu.c:121-165 | a tick keeps everything, issues at most one command, and none while the flash is busy |
| Dfu.ProgramKeeps | fw/v0/src/usb_dfu.c:149-163 | a program command stays in one page, on erased bytes, and stores the block's bytes |
| Dfu.EraseKeeps | fw/v0/src/usb_dfu.c:130-140 | an erase command stays in the zone and meets nothing programmed |
| Dfu.DownloadStored | fw/v0/src/usb_dfu.c:121-324 | however ticks, busy times, requests and packets interleave, unless a block is being written the zone begins with exactly the blocks sent; every command was allowed; nothing outside the zone changed |
| Dfu.RefusedExactly | fw/v0/src/usb_dfu.c:26-87 | a request leads to dfuERROR if and only if neither DFU 1.1 appendix A.2 nor one of four extras lets its state take it, or it is a block that does not fit; CLRSTATUS leads out |
| Dfu.StateFollows | fw/v0/src/usb_dfu.c:224-318 | where each request that is taken leads, and that only DNLOAD touches the flash operation and only UPLOAD the place to read from |
| Dfu.AcceptedExactly | fw/v0/src/usb_dfu.c:229-245 | a block is accepted if and only if it fits what has not been erased yet; if not the writer goes to dfuERROR |
| Dfu.LastSectorRefuses | fw/v0/src/usb_dfu.c:237 | with programming in the last sector, a block that fits behind it is refused |
| DfuHost.SelectedBetween | fw/v0/src/usb_dfu.c:326-347 | a zone just selected is a state between blocks |
| DfuHost.AcceptedBySectors | fw/v0/src/usb_dfu.c:229-245 | between blocks, one is accepted if and only if it fits behind the sector in which the bytes sent so far end |
| DfuHost.DownloadCompletes | fw/v0/src/usb_dfu.c:121-324 | a host that sends such blocks one after the other, cut into packets anyhow and with four ready ticks more than each has whole pages, has all of them accepted and stored in order, by allowed commands, and nothing else changed |
| DfuHost.StatusTells | fw/v0/src/usb_dfu.c:275-308 | GETSTATUS answers dfuDNBUSY exactly as long as a block is being written, then dfuDNLOAD_IDLE with all blocks stored |
| DfuHost.ErrorReported | fw/v0/src/usb_dfu.c:290-323 | in every run the status is an error exactly in dfuERROR, and GETSTATUS reports it |
| DfuHost.UploadsRead | fw/v0/src/usb_dfu.c:255-274 | reads give the zone's bytes one after the other, as many as asked for or as there are |
| DfuHost.ArmedWhenStored | fw/v0/src/usb_dfu.c:144-148 | in every run the writer is armed if and only if it has stored a block |
| Dfu.TickProgresses | fw/v0/src/usb_dfu.c:121-165 | every tick that finds the flash ready does exactly one step: a sector, a page, or the end in dfuDNLOAD_IDLE |
| Dfu.AbortBeforeProgramming | fw/v0/src/usb_dfu.c:313-316 | after ABORT in dfuDNLOAD_SYNC with nothing of the block programmed, every run is as right as before, without that block |
| Dfu.AbortWhileProgramming | fw/v0/src/usb_dfu.c:313-316 | with some of it programmed, in no run is a block stored any more without a command that is not allowed |
| Dfu.ResendAfterAbort | fw/v0/src/usb_dfu.c:47-52 | the block sent again at once begins with an allowed command if and only if nothing of it had been programmed |
| Dfu.DnloadInSync | fw/v0/src/usb_dfu.c:47-52 | DNLOAD in dfuDNLOAD_SYNC, erasing or programming: if nothing of the block before had been programmed, all ticks until the data comes store that block in the new one's place with allowed commands; if something had, no block is stored by allowed commands |
| Ep0.TurnDecreases | fw/v0/src/usb_ctrl_ep0.c:238-381 | every turn of the loop that is followed by another leaves less to do, so the poll ends |
| Ep0.Engine0.PollAll | fw/v0/src/usb_ctrl_ep0.c:232-382 | the do-while loop computes the poll |
| Ep0.Engine0.HandleControlData | fw/v0/src/usb_ctrl_ep0.c:93-149 | one packet of a data stage in place |
| Ep0.Engine0.HandleControlRequest | fw/v0/src/usb_ctrl_ep0.c:151-204 | a request is refused with STALL or its data stage opened |
| Ep0.SendKeeps | fw/v0/src/usb_ctrl_ep0.c:97-118 | the packets of a read, sent and waiting, are full ones and one for the rest, and hold the handler's data |
| Ep0.TakeKeeps | fw/v0/src/usb_ctrl_ep0.c:121-148 | the packets that came for a write fill the handler's buffer in order, and nothing behind them changes |
| Ep0.PollKeeps | fw/v0/src/usb_ctrl_ep0.c:232-382 | the poll keeps every stage right, and leaves the endpoint unlocked |
| Ep0.PollSettles | fw/v0/src/usb_ctrl_ep0.c:232-382 | the poll leaves nothing undone: no descriptor done, and each stage with the descriptor ready that it goes on with |
| Ep0.SetupFirst | fw/v0/src/usb_ctrl_ep0.c:321-351 | a SETUP that waits is handled before any data of the request before it |
| Ep0.RefusedExactly | fw/v0/src/usb_ctrl_ep0.c:151-204 | a request is refused if and only if no handler has a buffer for it or it writes more than that holds; any other has its first descriptor ready |
| Ep0.StagesRight | fw/v0/src/usb_ctrl_ep0.c:93-204 | in every interleaving with the hardware, for the request in hand and its handler's buffer: of a read only the buffer's first min(wLength, length) bytes go on the bus, queued by its status stage as floor(n/64) full packets and the rest; a write has the packets that came in the buffer, in order, wLength bytes exactly; each request reported once, each completion after its own |
| Ep0.NothingStale | fw/v0/src/usb_ctrl_ep0.c:333-346 | no packet moves through a descriptor queued for an earlier request than the latest SETUP accepted |
| Ep0.LockedMovesNothing | utils/microcode.py:212-216 | while locked, a control endpoint's decision completes nothing |
| Ep0.StatusReported | fw/v0/src/usb_ctrl_ep0.c:247-288 | a finished status stage is reported by the next poll, once, and before a newer SETUP is handled |
| Ep0Bus.InVerdict | utils/microcode.py:200-252 | an IN transaction moves EP0's packet only if it is ready and the endpoint unlocked, with the toggle due: DATA1 first after SETUP, then in turn |
| Ep0Bus.OutVerdict | utils/microcode.py:327-383 | an OUT transaction is taken only if the host's toggle is the one due, and acknowledged without being taken only if it is not |
| Ep0Bus.TransactionStep | utils/microcode.py:200-401 | every transaction on EP0, decided by the protocol, is one of the happenings that `Ep0` admits or none, and leaves registers, toggles and host in step with the engine |
| Ep0Bus.DriverStep | fw/v0/src/usb_ctrl_ep0.c:232-382 | so does a poll or a turn of its loop, with the writes to descriptors, IN status and lockout that it makes |
| Ep0Bus.RunHappens | fw/v0/src/usb_ctrl_ep0.c:232-382 | every run of host, bus and firmware is a run of `Ep0`, so its theorems hold of it |
| Ep0Bus.HostReads | fw/v0/src/usb_ctrl_ep0.c:97-118 | of a read the host has, whatever was lost or damaged, the first of the handler's bytes in order, and all min(wLength, length) of them once it has a short packet |
| Ep0Bus.HostWrites | fw/v0/src/usb_ctrl_ep0.c:121-148 | of a write the packets that came are those the host saw acknowledged or one more; once the host has the status packet the handler's buffer begins with exactly the wLength bytes, and its rest is untouched |
| Ep0Bus.OpenedSound | fw/v0/src/usb_ctrl_ep0.c:209-230 | after a reset engine, registers and host are in step |
| Ep0Bus.RomControls | utils/microcode.py:172-487 | over every run of host, bus and firmware on EP0 the assembled ROM takes the traffic, ends with registers and toggles in step with the engine, and what host and handlers have of the request in hand is right |
| Ep0Progress.SetupRound | fw/v0/src/usb_ctrl_ep0.c:321-351 | a SETUP that arrives undisturbed is in hand after the next poll, unless its handlers refuse it |
| Ep0Progress.ReadFinishes | fw/v0/src/usb_ctrl_ep0.c:93-118 | from any point of any run, as many rounds of a poll and an undisturbed transaction as a read has packets left give the host all of the data |
| Ep0Progress.WriteFinishes | fw/v0/src/usb_ctrl_ep0.c:120-148 | and of a write as many as the host has packets left, and one more, put all of its data in the handler's buffer and give it the status packet |
| Descriptors.DescFind | fw/v0/src/usb.c:72-82 | the pointer walk is a search of the parsed list |
| Descriptors.DescFindIntf | fw/v0/src/usb.c:100-134 | the loop finds the first interface descriptor that matches, and the last alternate setting 0 before it |
| Descriptors.LargestPacket | fw/v0/src/usb.c:640-655 | the scan finds the least size that holds the endpoint's packets in every setting |
| Descriptors.EpOfIs | fw/v0/src/usb.c:645-654 | the inner loop finds the first endpoint descriptor with the address among as many as the interface declares |
| Descriptors.SettingsAre | fw/v0/src/usb.c:640-644 | the outer loop goes through the interface descriptors up to the first of another number |
| Descriptors.Allocator.AllocBuf | fw/v0/src/usb.c:570-576 | buffers given out are aligned, beyond EP0's, and disjoint in each direction |
| Descriptors.Allocator.EpBoot | fw/v0/src/usb.c:629-675 | an endpoint gets one or two buffers of exactly its largest packet's size, or none if no setting has it |

## Left out

- PHY pads, glitch filter and bit-clock recovery (`rtl/usb_phy.v`, `rtl/usb_rx_ll.v:67-98`): one symbol a bit time.
- Block RAM primitives and status RAM latency (`rtl/usb_ep_buf.v`, `rtl/usb_ep_status.v`): byte memories and an atomic fetch.
- Wishbone, CSR, interrupts, the event FIFO, suspend and reset timers in `rtl/usb.v`: plumbing around the model.
- The packet receiver's inhibit input, which keeps a device from hearing itself.
- How many packets with an inserted or lost bit pass the CRC: which ones do is exact, but the bound on bursts is about changed bits.
- The firmware's read-modify-write of a status word is one step; a write-back by the hardware in its middle is not modelled.
- The transmitter's length counter has eleven bits; it is an integer here, equal for payloads up to 1023 bytes.
- Tokens from the transmitter: a device sends none. Token contents (address, endpoint, frame number) are inputs to `Engine`.
- EP0 in the TinyUSB driver (`fw/tinyusb/dcd_no2usb.c:402-471`): the control endpoint is modelled with the other firmware's engine.
- Isochronous endpoints end to end: their transactions are decided, but delivery is not guaranteed by USB.
- `fw/v0/src/usb_ctrl_std.c`, `usb_ep_reconf`, driver registration and callback dispatch: short handlers without state of their own.
- DFU vendor requests and runtime mode, reboot: they share the buffer or end the session.
- Packet sizes that are not multiples of 4 in the runs of `InPath` and `OutPath`: copies then reach into the other buffer.
- Descriptors.LargestPacket: an interface that declares more endpoints than follow it yields none here, where the code would follow a null pointer.
- Buffer memory that runs out: addresses only grow, and the code does not check them either.
