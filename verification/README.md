# A model of SBEMU's device emulations and driver bookkeeping

SBEMU lets DOS programs play Sound Blaster sound through modern cards. It consists of emulated devices (an 8237 DMA
controller, a Sound Blaster DSP with its ADPCM decoder, an OPL3 chip), of the pump that moves sound from the guest's
DMA ring to the card, and of drivers. This project models the parts of it that carry state from one event to the next
and proves what they promise over all inputs and all runs.

| file | what it models |
|---|---|
| `Pump.dfy` | one card interrupt's transfer: DMA ring, SB block, ADPCM, virtual interrupts |
| `Mixer.dfy` | volumes and the mixing of digital sound with OPL output |
| `Vdma.dfy` | the emulated DMA controller, its byte-pair registers and delayed updates |
| `SbDsp.dfy`, `Adpcm.dfy` | the DSP's command interpreter and the ADPCM decoder it shares state with |
| `OplOperator.dfy`, `OplChannel.dfy`, `OplLfo.dfy` | the OPL3's envelopes, the shortcut for silent channels, the block-wise oscillator |
| `ImapRing.dfy` | the X-Fi's input mapper: a sorted linked list mirrored into a ring in card RAM |
| `Resource.dfy` | the X-Fi's bitmap allocator with rollback |
| `XfiTimer.dfy` | the X-Fi's interval timer, whose reprogramming interleaves with its own callback |
| `VmAllocator.dfy` | the X-Fi's allocator of device addresses |
| `Pitch.dfy` | the X-Fi's fixed-point division and conversion ROM choice |
| `TrapChain.dfy` | the chains of port traps of QEMM and HDPMI |
| `EnvBlock.dfy` | the in-place editor of the DOS environment block |
| `CInt.dfy`, `Arith.dfy` | C integer arithmetic; facts of non-linear arithmetic |

Each module has a specification on values, theorems about it, and a class or methods in the program's own imperative
form whose contracts tie every call to that specification. Objects that the program links by pointers (mapper entries,
trap links) are linked objects here too; tables and lists that it rewrites are fields that the methods reassign.
Integer widths, truncating divisions and wrap-around are written out where they matter.

Some things the program is meant to do it does only under a condition. The theorems then state that condition, exactly:

- The mixer multiplies two operands of up to 65535 in an `int`. The product overflows for loud pairs
  (`Mixer.Mix32InRangeIff`), and where it does not the clamp to 65535 is never needed (`Mixer.NoOverflowNoClamp`). The
  store to 16 bits undoes an overflow at master volumes 0, 128 and 256 and at no other (`Mixer.StoredIsIntendedIff`).
- A DMA ring in the first 4 KB of memory is played as zero bytes (`Pump.ReachableIff`), and a ring above 1 MB that falls
  into the window of an earlier one below is read from linear memory (`Pump.HearsRingIff`, `Pump.StaleWindowExample`).
- `put_vm_block` merges the released block with every free block below it, gaps included
  (`VmAllocator.UnmapTilesIff`, `VmAllocator.EveryRunTilesIff`, `VmAllocator.DoubleAllocationExample`).
- `setenv` does not look at the string that follows a removed one, and leaves an empty string in front when the block
  was empty (`EnvBlock.EditIsExactIff`, `EnvBlock.ReadAfterwards`).
- QEMM's uninstallation clears a port that a later installation shares (`TrapChain.UninstallIsRightIff`).
- The OPL's silent shortcut drops the delayed sample of the additive modes (`OplChannel.SkipIsExactIff`), and until the
  next key press or register write that is all it changes (`OplChannel.ShortcutOverRun`). It also stops the envelopes
  of operators that are not heard, which the next key press can reveal (`OplChannel.SkippedUntilPressIff`).
- The timer's callback can leave an update unsignalled that an update section found (`XfiTimer.CallbackDeliversIff`),
  and a start drops the time the other streams had played (`XfiTimer.StartDropsElapsedTime`): the test in
  `ct_xfitimer_start` looks at the stream's own list node, not at the list of running streams.
- The ROM for the ratio 1.8375 is found only at low rates (`Pitch.Rom18375Iff`).
- Some DSP bytes wedge the command interpreter, and the high-speed commands make it deaf to bytes until a reset or the
  end of the transfer (`SbDsp.RecoverableIff`); command 0xB4 is not taken as auto-initialised
  (`SbDsp.NoFifo16IsNotAuto`), and three of the nine ADPCM commands select another width than theirs
  (`SbDsp.WidthIsDocumentedIff`).
- The pitch truncates remainder and output rate to hundreds (`Pitch.PitchOfAnyRates`).

Outside effects are parameters: guest memory, the mapper of linear memory, the resampler's frame count, the card's free
space, the wall clock and the hardware positions of streams, the OPL's waveforms, rate tables and phase increments.

## Model

| member | source | states |
|---|---|---|
| Pump.WantsSomething | main.c:1284-1291 | for up to 8192 wanted frames and any 16-bit rate the product of the two stays below 2^32, the frame count before clipping is at least 1, and at a higher rate it is at least what was wanted |
| Pump.ChunkFits | main.c:1292-1297 | a chunk is whole frames and at least one; it passes the end of the DMA ring, or of the SB block, if and only if less than a frame is left of it, and then it is a single frame; for PCM and ADPCM and any rests |
| Pump.TickMoves | sbemu/vdma.c:192-222 | reporting a chunk to an auto-initialised channel advances its index by exactly the chunk and restarts it at the end of the ring |
| Pump.CursorMoves | main.c:1325-1333 | one cursor moving by whole frames: remainder and quotient by its period say where it is and whether it reached its end |
| Pump.PassMoves | main.c:1323-1354 | one pass keeps both cursors aligned, moves both by the same bytes modulo their own periods, and ends a block exactly when the block position wraps |
| Pump.MovedCompose | main.c:1267-1354 | passes compose: bytes and interrupts of two passes add up, each modulo its own period |
| Pump.ManyMoved | main.c:1267-1354 | after any number of passes or interrupts the DMA index is (start + total) mod ring, the SB position (start + total) mod block, and the interrupts raised are floor((start + total) / block), however the bytes were split |
| Pump.CyclicReadCompose | main.c:1299-1304 | two cyclic reads, the second starting where the first stopped, are one cyclic read |
| Pump.ChunkIsCyclicRead | main.c:1299-1304 | a chunk that does not pass the end of the ring is a cyclic read of it |
| Pump.PassesPlay | main.c:1267-1357 | any passes of admissible sizes over an auto-initialised transfer in whole frames move both cursors and the interrupts as their byte total says and copy one cyclic read of the ring from one source |
| Pump.SingleCyclePass | main.c:1267-1357 | without auto-initialisation a pass reads on to at most the end of the buffer; at the end the channel is complete and its counter starts over from 64K |
| Pump.PassesAreOneStream | main.c:1305-1306 | however the bytes were split into passes, the ADPCM decoder ends in the state of decoding them all at once |
| Pump.PlanIsUnique | main.c:1267-1357 | there is one plan of passes for an interrupt: the bytes of each are determined, and so is where they end |
| Pump.WantedIs | main.c:1284-1291 | the frames wanted are those at the guest's rate that make what is left at the card's, rounded down, at a lower rate at least two if two are left, and just what is left within 50 Hz |
| Pump.ChunkIsLargest | main.c:1292-1293 | PCM: a pass takes as many frames as wanted unless one more would not fit into the ring or the block |
| Pump.AdpcmChunk | main.c:1294-1297 | ADPCM: a pass takes the most bytes that unpack to no more samples than that, and at least one |
| Pump.FramesAreThere | main.c:1305-1306 | the frames counted for a pass are the whole frames in its bytes, or the samples the decoder makes of them |
| Pump.ConvertedIff | main.c:1285-1291 | the rate is converted if and only if it is not within 50 Hz of the card's; else just what is left is wanted |
| Pump.AlignedGoesOnIff | main.c:1335-1357 | an auto-initialised transfer in whole frames goes on while sound is wanted and no block end has been reached or the blocks are automatic and longer than 32 bytes |
| Pump.QuarterRateExample | main.c:1284-1357 | 11025 Hz on a card at 44100: 256 bytes fill a buffer of 1024 frames in one pass |
| Pump.ReachableIff | main.c:1269-1281 | a ring that no window covers can be read exactly if it is below 1 MB but not in the first 4 KB, whose identity mapping is address 0 and so reads as none, or above and the mapper succeeds |
| Pump.FreshWindowIs | main.c:1274-1281 | a fresh window starts at the ring's page and is whole pages, 128 KB at least and else no page longer than the ring needs |
| Pump.WindowShowsRing | main.c:1299-1301 | what is copied of a ring the window covers are the ring's bytes, in physical memory if the window was mapped, in linear memory if it is an identity window, and zero bytes if there is none |
| Pump.HearsRingIff | main.c:1269-1301 | a ring that can be read is heard right, whatever linear memory holds above 1 MB, if and only if a window was mapped for it or it ends by 1 MB |
| Pump.StaleWindowExample | main.c:1269-1281 | an identity window of at least 128 KB is kept for a later ring inside it that lies above 1 MB and so is not read right |
| Pump.HeardCompose | main.c:1299-1304 | two stretches of what is heard, the second starting where the first stopped, are one, from whichever source |
| Pump.Engine.EnsureMapped | main.c:1269-1281 | the window is kept if it covers the ring and renewed if not, as an identity window below 1 MB and else by the mapper |
| Pump.Engine.ChunkSize | main.c:1284-1297 | the frame count is the wanted count clipped by ring, block and ADPCM ratio, and resampling is decided by the 50 Hz band |
| Pump.Engine.FramesOf | main.c:1305-1306 | ADPCM chunks are decoded through the running decoder state; a chunk yields at least one frame unless it was the reference byte alone |
| Pump.Engine.Fetch | main.c:1299-1304 | what is copied is what linear memory shows through that window from the index on, and as many zero bytes if there is none |
| Pump.Engine.MoveBlock | main.c:1325-1335 | the block position moves; at its end it restarts, a single-cycle transfer stops, and an interrupt is pending |
| Pump.Engine.Finish | main.c:1323-1335 | the end of a pass moves the channel by the bytes and the block position as well, and raises one interrupt if the block ends; for all states |
| Pump.Engine.Pass | main.c:1267-1354 | one whole pass from any state: it moves just the bytes for what is still wanted, gives as many frames as those bytes hold, converted to the card's rate if the rates differ by more than 50 Hz, and moves channel, block position, window, interrupts, copied bytes and decoder as `PassOn` says |
| Pump.Engine.PlayDigital | main.c:1244-1358 | a whole card interrupt from any state: the loop ends; its passes are those of the plan, each following because sound was still wanted and could go on and the last because it was not or could not; the frames they give are counted; for an auto-initialised transfer in whole frames the bytes copied are one gapless cyclic read of the ring and both cursors and the interrupt count exact; the ADPCM decoder ends as after one stream |
| Mixer.MixInRange | main.c:1406-1408 | with both operands in 0..65535 and an exact product the mix lies in 0..65536 |
| Mixer.ClampNeededIff | main.c:1408-1409 | the value 65536, the only one clamped, arises exactly when the product of the distances from full scale is below half a scale |
| Mixer.MixCommutes | main.c:1408 | mixing is commutative |
| Mixer.SilenceIsIdentity | main.c:1408 | mixing with silence is the identity, in 32-bit arithmetic as well |
| Mixer.LoudForm | main.c:1408 | above silence the mix is full scale minus the scaled product of the distances from full scale |
| Mixer.OverflowIsLoud | main.c:1408 | the product of two operands leaves 32 bits only if both are above silence |
| Mixer.OverflowShiftsMix | main.c:1408 | what the wrapped product makes of the mix: two full scales more, less one unless the product is whole |
| Mixer.Mix32InRangeIff | main.c:1406-1409 | the code's 32-bit mix lies in 0..65536 if and only if the product fits into an int, and then it is the exact mix |
| Mixer.NoOverflowNoClamp | main.c:1408-1409 | without overflow the value 65536 does not arise, so in 32 bits the clamp never acts |
| Mixer.OverflowExample | main.c:1406-1410 | two loud samples at three quarters of the volume: the stored sample has the wrong sign |
| Mixer.StoredIsIntendedIff | main.c:1406-1410 | for operands in 0..65535 and volumes 0..256 the stored sample is the intended one or one step below it if and only if the product fits into an int or the volume is 0, 128 or 256; without overflow it is the intended one |
| Mixer.StoredSampleFits | main.c:1406-1410 | 16-bit samples, OPL within half scale and volumes 0..256 give operands in range, an intended sample that fits 16 bits, and a stored sample that is right under exactly the condition of `StoredIsIntendedIff` |
| Mixer.FullVolumeRecovers | main.c:1408-1410 | so at full master volume every pair recovers: the 16-bit store undoes an overflow up to one step |
| Mixer.VolumeInRangeIff | main.c:1205-1229 | which register values give volumes within 0..256: all on the later cards; on the first cards exactly those whose unused high bits are clear |
| Mixer.VolumesAreLevels | main.c:1205-1229 | every volume is its register's level as a part of 256, of 7 or 15 steps, or 3 for the voice of the first cards; silence and full volume are the ends |
| Mixer.MixIntoPcm | main.c:1402-1416 | the mixing loop stores in every cell the mix of its two old samples |
| Mixer.BufferDoesNotClip | main.c:1402-1416 | for a whole buffer with volumes in range and no overflowing pair, nothing clips or wraps |
| Vdma.OpenPairFrozen | sbemu/vdma.c:123-142 | while a byte pair is open, progress on any channel and every guest access but those to the same controller's register pairs, a clear of its flip-flop and a page write of the channel leave its registers as they are and only note that an update is due |
| Vdma.PairReadIsAtomic | sbemu/vdma.c:109-143 | a two-byte read started with the flip-flop even yields both halves of one 16-bit value, and closing it publishes the latest progress, whatever progress and accesses come in between, the same controller's register pairs, its flip-flop reset and the channel's page register excepted |
| Vdma.PairWriteProgramsValue | sbemu/vdma.c:66-85 | a two-byte write started with the flip-flop even ends with exactly the programmed value, with the same exceptions for what comes in between |
| Vdma.TickKeepsInStep | sbemu/vdma.c:192-222 | a tick of whole remaining units keeps index + current count == programmed count and the visible registers current |
| Vdma.UnprogrammedKeepsInStep | sbemu/vdma.c:101-165 | so does every read and every access to another channel |
| Vdma.AutoRunStaysInStep | sbemu/vdma.c:173-222 | over every run of ticks and guest reads an auto-initialised channel stays in step: 0 <= index < count, and the visible counter is the current count less one whenever no pair is open |
| Vdma.ProgrammingStartsInStep | sbemu/vdma.c:66-96 | programming address and counter puts a channel in step with exactly the programmed values |
| Vdma.PortsOfChannel | sbemu/vdma.c:21-96 | port by port: which channel and which register a page, address, counter, flip-flop or mode port belongs to |
| Vdma.PortsProgramChannel | sbemu/vdma.c:29-99 | page, address and length written byte by byte to a channel's ports program that channel and leave all others as they are |
| Vdma.EngineSeesProgramming | sbemu/vdma.c:173-184 | and then start address and length in bytes are those the guest asked for, on 16-bit channels with the doubled address's carry or-ed into the page |
| Vdma.PageIsReadBack | sbemu/vdma.c:86-148 | a page written to a channel's port is read back from it if the channel is emulated |
| Vdma.CompletionIsSeenOnce | sbemu/vdma.c:150-163 | completion of an emulated channel shows in the next status read and not in the one after; other bits are the real controller's |
| Vdma.Controller.Virtualize | sbemu/vdma.c:167-171 | emulation of a channel is switched on or off |
| Vdma.Controller.Write | sbemu/vdma.c:29-99 | a guest write to any trapped port acts on the register file as the abstract event it stands for |
| Vdma.Controller.WriteControl | sbemu/vdma.c:29-52 | byte-wide registers: flip-flop reset and channel modes |
| Vdma.Controller.WriteRegister | sbemu/vdma.c:66-84 | one byte of a register pair: the half is replaced, the flip-flop toggled, position and length follow |
| Vdma.Controller.WritePageRegister | sbemu/vdma.c:86-96 | a page register write sets the page and restarts the position |
| Vdma.Controller.Read | sbemu/vdma.c:101-165 | a guest read returns the byte of, and changes the state by, the abstract event it stands for |
| Vdma.Controller.ReadRegister | sbemu/vdma.c:111-143 | one byte of a register pair is returned; closing the pair makes delayed progress visible |
| Vdma.Controller.ReadStatusPort | sbemu/vdma.c:150-163 | completion bits of emulated channels replace the real ones and are cleared by the read |
| Vdma.Controller.SetIndexCounter | sbemu/vdma.c:192-222 | progress of a transfer in bytes, with restart at the end; the new position is returned |
| Vdma.Controller.GetIndex | sbemu/vdma.c:186-190 | the channel's progress in bytes |
| Vdma.Controller.GetCounter | sbemu/vdma.c:180-184 | the channel's remaining length in bytes |
| Vdma.Controller.GetAddress | sbemu/vdma.c:173-178 | the channel's start address in bytes |
| SbDsp.ApplyKeepsOk | sbemu/sbemu.c:193-491 | every command byte, argument, reset, stop and decoded chunk keeps the interpreter and decoder invariants |
| SbDsp.RunKeepsDecoderInTables | sbemu/sbemu.c:303-405 | in every state of every run, while an ADPCM width is selected no code leaves the decoder's table, and the reference stays a byte |
| SbDsp.EndlessIgnoresWrites | sbemu/sbemu.c:227-491 | a waiting command of the endless kind absorbs every byte written |
| SbDsp.RecoverableIff | sbemu/sbemu.c:227-491 | bytes written to the interpreter can bring it back to accepting commands, in high-speed mode included, if and only if the waiting command is not of the endless kind and high-speed mode is off |
| SbDsp.HighSpeedIsNotRecoverable | sbemu/sbemu.c:227-302 | commands 0x90 and 0x91 leave no command waiting, and yet every later byte is ignored |
| SbDsp.BlockProgrammed | sbemu/sbemu.c:407-491 | a block command, its mode and its length start exactly that transfer |
| SbDsp.NoFifo16IsNotAuto | sbemu/sbemu.c:407-491 | the 16-bit auto-initialised command without FIFO starts a single-cycle transfer; its 8-bit twin an automatic one |
| SbDsp.SingleCycleProgrammed | sbemu/sbemu.c:407-491 | programming a single-cycle 8-bit transfer gives a block of exactly the programmed length |
| SbDsp.HaltAndContinue | sbemu/sbemu.c:274-288 | the halt and continue commands of both widths change whether the transfer runs and nothing else; halting and continuing is as if nothing had been written |
| SbDsp.TriggersInterrupt | sbemu/sbemu.c:239-269 | the two test interrupts set their own status bit and no other |
| SbDsp.StartsEightBit | sbemu/sbemu.c:289-302 | what the three 8-bit commands without a length start |
| SbDsp.LeavesAutomaticMode | sbemu/sbemu.c:317-327 | leaving the automatic mode stops an automatic transfer and no other |
| SbDsp.WidthIsDocumentedIff | sbemu/sbemu.c:303-316 | the ADPCM commands select their own width, except 0x17, 0x1F and 0x7D, which get 4, 4 and 3 bits instead of 2, 2 and 4 |
| SbDsp.StartsAutomaticAdpcm | sbemu/sbemu.c:303-316 | what the automatic ADPCM commands start |
| SbDsp.SingleAdpcmProgrammed | sbemu/sbemu.c:385-406 | a single ADPCM command and its length start a block of that length, with a reference byte for the odd commands |
| SbDsp.LengthProgrammed | sbemu/sbemu.c:366-384 | setting the block length alone stops the transfer and sets the length |
| SbDsp.ArgumentsAreTaken | sbemu/sbemu.c:344-365 | the commands with one or two arguments that leave the transfer alone |
| SbDsp.ResetWorksAlways | sbemu/sbemu.c:193-225 | a reset accepts commands again in every state and stops the transfer; status bits and decoder stay |
| SbDsp.BlockEndStatus | sbemu/sbemu.c:665-670 | the end of a block sets the status bit of the transfer's width and no other; before it none is set |
| SbDsp.StoppedThenContinued | sbemu/sbemu.c:623-628 | a stopped transfer continues from the start of its block, not at high speed |
| SbDsp.Device.DspReset | sbemu/sbemu.c:193-225 | the reset port's effect on transfer, interpreter and decoder |
| SbDsp.Device.DspWrite | sbemu/sbemu.c:227-491 | the command port's effect: a fresh command or the next argument of the waiting one |
| SbDsp.Device.SetPosition | sbemu/sbemu.c:660-670 | the block position is set; at the end of the block an interrupt becomes pending |
| SbDsp.Device.StopTransfer | sbemu/sbemu.c:623-628 | a transfer is stopped |
| SbDsp.Device.DecodeInPlace | sbemu/sbemu.c:686-727 | the decoder's output and final state are those of the abstract decoder, in place, with the promised length |
| Adpcm.TablesFollowRule | sbemu/ctadpcm.h:31-125 | every entry of the three pairs of tables follows one closed-form rule of row, magnitude and sign |
| Adpcm.SampleInRow | sbemu/ctadpcm.h:31-125 | from a row start neither range check fires; the reference moves by the rule, limited to a byte, and the row by at most one |
| Adpcm.SampleIsLimited | sbemu/ctadpcm.h:31-125 | the reference is the last one moved by the rule, or the end of 0..255 that it would leave |
| Adpcm.SampleIsLegal | sbemu/ctadpcm.h:31-125 | the step stays one of the multiples its width allows, so the out-of-range branches are unreachable |
| Adpcm.DecodeAppend | sbemu/sbemu.c:686-727 | decoding two non-empty buffers in sequence gives the bytes and state of decoding their concatenation |
| Adpcm.FourCodesMakeTheByte | sbemu/sbemu.c:703-709 | a byte is its four 2-bit codes put together, the first in the highest bits |
| Adpcm.ThreeCodesMakeTheByte | sbemu/sbemu.c:710-715 | a byte is two 3-bit codes and the upper two bits of a third, even one |
| Adpcm.TwoCodesMakeTheByte | sbemu/sbemu.c:716-720 | a byte is its two 4-bit codes put together |
| Adpcm.DecodeIsLegal | sbemu/sbemu.c:686-727 | a decoded buffer has (bytes - reference byte) * (9 / bits) samples, all bytes, and leaves a legal state |
| ImapRing.AddKeepsRing | drivers/ctxfi/ctimap.c:18-62 | adding an entry anywhere in the slot order and writing two RAM records keeps the RAM ring whole |
| ImapRing.DeleteKeepsRing | drivers/ctxfi/ctimap.c:64-94 | deleting an entry and rewriting one RAM record keeps the RAM ring whole |
| ImapRing.AddWritesTwoRecords | drivers/ctxfi/ctimap.c:18-62 | an addition writes the records of the new entry and of its predecessor and no other |
| ImapRing.DaioKeepsUser | drivers/ctxfi/ctdaio.c:633-644 | the DAIO mapper leaves the user field of a record it rewrites, and all other records |
| ImapRing.SoleDeletionResetsRecord0 | drivers/ctxfi/ctimap.c:64-94 | deleting the only entry makes record 0 name slot 0 and itself |
| ImapRing.InsertKeepsOrder | drivers/ctxfi/ctimap.c:34-51 | the list stays sorted by slot, ties in the order of addition |
| ImapRing.FollowVisitsInOrder | drivers/ctxfi/ctimap.c:54-59 | the card, following next fields, visits the entries in list order and starts over |
| ImapRing.RingIsOneCycle | drivers/ctxfi/ctimap.c:54-59 | the next fields form exactly one cycle through the listed addresses, each once |
| ImapRing.ImapAddKeepsOk | drivers/ctxfi/ctsrc.c:790-805 | adding keeps the manager's invariant; the placeholder gives way exactly to an entry for address 0 |
| ImapRing.ImapDeleteKeepsOk | drivers/ctxfi/ctsrc.c:807-822 | deleting keeps the invariant and never leaves the ring empty: the placeholder returns when the last entry goes |
| ImapRing.EveryRunKeepsRing | drivers/ctxfi/ctsrc.c:790-822 | over every run of adds and deletes of distinct live addresses: never empty, sorted, placeholder listed iff flagged, RAM one cycle in list order |
| ImapRing.DeleteUndoesAdd | drivers/ctxfi/ctdaio.c:646-678 | deleting what was just added restores the clients' entries and their order |
| ImapRing.UnmapUndoesMap | drivers/ctxfi/ctsrc.c:616-657 | unmapping a resource's entries, first to last, restores the clients' list as it was before mapping them |
| ImapRing.MapperList.FindPos | drivers/ctxfi/ctimap.c:34-40 | the walk over the linked list stops at the first entry with a larger slot, or at the head |
| ImapRing.MapperList.Add | drivers/ctxfi/ctimap.c:18-62 | the pointer code links the entry in at that place and writes its and its predecessor's RAM records |
| ImapRing.MapperList.Delete | drivers/ctxfi/ctimap.c:64-94 | the pointer code unlinks the entry and rewrites its predecessor's record; the only entry is cleared and record 0 written |
| ImapRing.ImapManager.constructor | drivers/ctxfi/ctsrc.c:841-850 | a fresh manager lists the placeholder and satisfies the invariant |
| ImapRing.ImapManager.Add | drivers/ctxfi/ctsrc.c:790-805 | the manager's add on linked list and RAM is the abstract add; SRC and DAIO mappers differ only in the user field |
| ImapRing.ImapManager.Delete | drivers/ctxfi/ctsrc.c:807-822 | the manager's delete on linked list and RAM is the abstract delete |
| XfiTimer.AdvancedOnce | drivers/ctxfi/cttimer.c:196-225 | a reprogramming advances every running stream exactly once and no other stream |
| XfiTimer.IntervalIsSafe | drivers/ctxfi/cttimer.c:221-235 | the armed interval is 1..8191 ticks, at most a fifth of every running stream's fragment (but at least 1), and 1 when an update is due |
| XfiTimer.IntervalIsTight | drivers/ctxfi/cttimer.c:221-235 | nor is it needlessly short: some listed stream's fragment, or a due update, asks for just these ticks |
| XfiTimer.LookedAt | drivers/ctxfi/cttimer.c:207-216 | a stream whose fragment has run out is counted and due exactly if the hardware has left the period of the stored position, and afterwards the stored position is in the hardware's period |
| XfiTimer.FragmentReachesEnd | drivers/ctxfi/cttimer.c:217-220 | the next fragment is the least number of 48 kHz ticks in which the hardware reaches the end of its period |
| XfiTimer.NoPeriodTwice | drivers/ctxfi/cttimer.c:196-225 | over any run of reprogrammings with positions that do not go back, no more updates are counted for a stream than period ends passed |
| XfiTimer.EveryPeriodOnce | drivers/ctxfi/cttimer.c:196-225 | if every period is looked at in time, every period end is counted exactly once |
| XfiTimer.EachStreamGoesThrough | drivers/ctxfi/cttimer.c:196-225 | each running stream goes through every reprogramming with the clock difference to the one before, modulo 2^32 |
| XfiTimer.UpdatesAreElapsedStreams | drivers/ctxfi/cttimer.c:196-225 | a reprogramming returns the number of running streams that finished a period |
| XfiTimer.StepKeepsInv | drivers/ctxfi/cttimer.c:179-323 | every interleaved step of callback, start, stop, prepare and update section keeps the invariant: an unprogrammed change has a pending update or a reprogram request, and a request implies a callback in progress |
| XfiTimer.AtRestTheTimerIsRight | drivers/ctxfi/cttimer.c:179-323 | over every interleaving, whenever nothing is pending the timer is armed iff some stream runs, within range and never past the shortest fragment |
| XfiTimer.ComesToRest | drivers/ctxfi/cttimer.c:254-323 | every step that is not new input reduces the work left |
| XfiTimer.RestIffNoInternalStep | drivers/ctxfi/cttimer.c:254-323 | the timer is at rest exactly if no such step is possible |
| XfiTimer.CallbackDeliversIff | drivers/ctxfi/cttimer.c:254-270 | a callback signals all due updates if and only if it finds a new one or none was due |
| XfiTimer.CallbackIsNotHurried | drivers/ctxfi/cttimer.c:254-270 | the callback arms the timer by the fragments alone |
| XfiTimer.CheckOnlyClears | drivers/ctxfi/cttimer.c:238-251 | the check clears the flag of running streams and nothing else |
| XfiTimer.DelayedUpdateExample | drivers/ctxfi/cttimer.c:196-270 | an update found by an update section that the next interrupt does not signal |
| XfiTimer.StartDropsElapsedTime | drivers/ctxfi/cttimer.c:298-311 | after a start the next reprogramming finds another stream's fragment as without the start if and only if no time had passed since the last clock reading, or the fragment runs out even counted from the start, or it runs out on the whole and what seems left of it equals the next fragment; for clock differences below 2^32 |
| XfiTimer.StartDropsExample | drivers/ctxfi/cttimer.c:298-311 | a start ten ticks after the last reading: a stream with fifty ticks to go is believed to have sixty |
| XfiTimer.StartForgets | drivers/ctxfi/cttimer.c:298-311 | an update due before a start is not signalled after it unless the hardware leaves its period |
| XfiTimer.PreparedStartsAfresh | drivers/ctxfi/cttimer.c:273-278 | a prepared stream that is started is due once as many ticks as its period has frames have passed and the hardware has left the first period |
| XfiTimer.Driver.IrqRearm | drivers/ctxfi/cttimer.c:144-153 | arming clamps the ticks and enables the interrupt if it was off |
| XfiTimer.Driver.IrqStop | drivers/ctxfi/cttimer.c:155-163 | stopping clears interrupt and ticks |
| XfiTimer.Driver.ReprogramNow | drivers/ctxfi/cttimer.c:179-235 | the loop over the running list computes the abstract reprogramming and counts the finished periods |
| XfiTimer.Driver.CheckPeriods | drivers/ctxfi/cttimer.c:238-251 | exactly the running streams with a due update are signalled, and their flags cleared |
| XfiTimer.Driver.StartLocked | drivers/ctxfi/cttimer.c:298-309 | the list section of a start |
| XfiTimer.Driver.StopLocked | drivers/ctxfi/cttimer.c:313-321 | the list section of a stop |
| XfiTimer.Driver.UpdateLocked | drivers/ctxfi/cttimer.c:281-296 | the update section: deferred to a callback in progress, else programmed at once |
| XfiTimer.Driver.Interrupted | drivers/ctxfi/cttimer.c:254-270 | an undisturbed callback makes one pass and leaves |
| OplOperator.ForwardKeepsOk | sbemu/dbopl.cpp:375-432 | one sample keeps volume in 0..511, the counter below 2^24, off fully attenuated, and phase and key consistent; attenuation falls only in the attack |
| OplOperator.Write20KeepsOk | sbemu/dbopl.cpp:452-475 | writing register 20 keeps the invariant, zero bits included |
| OplOperator.Write60KeepsOk | sbemu/dbopl.cpp:484-493 | writing register 60 keeps it |
| OplOperator.Write80KeepsOk | sbemu/dbopl.cpp:495-507 | writing register 80 keeps it |
| OplOperator.SetKeyKeepsOk | sbemu/dbopl.cpp:650-666 | a frequency change keeps it, and every rate index stays inside the 76-entry tables |
| OplOperator.KeysKeepOk | sbemu/dbopl.cpp:550-571 | key events keep it: keyOn == 0 means release or off, release means keyOn == 0 |
| OplOperator.Run | sbemu/dbopl.cpp:288-571 | the invariant holds after every run of samples, key events and register writes |
| OplOperator.LouderOnlyInAttack | sbemu/dbopl.cpp:375-432 | attenuation falls only by a sample in the attack phase, never by a write or a key event |
| OplOperator.HeldNoteStays | sbemu/dbopl.cpp:415-418 | a held note with the sustain bit stays as it is for any number of samples |
| OplOperator.NoteFades | sbemu/dbopl.cpp:415-431 | a released note, or one held without the sustain bit, fades by the whole steps of all samples together, keeps the rest in the counter, and is off at the limit |
| OplOperator.DecayReaches | sbemu/dbopl.cpp:400-414 | the decay goes on while the whole steps of all samples stay below the sustain level; the first sample that reaches it turns it into the sustain phase, or off at the limit |
| OplOperator.DecayTerminates | sbemu/dbopl.cpp:400-414 | with a non-zero rate that happens within as many rounds of the counter as there are steps to go |
| OplOperator.AttackDrops | sbemu/dbopl.cpp:386-399 | a step of the attack takes an eighth of the attenuation and one more off, rounded up, and at nothing left the decay begins |
| OplOperator.PressStartsAttack | sbemu/dbopl.cpp:550-562 | a key pressed on an operator without one starts the attack from the attenuation there is |
| OplOperator.ReleaseOfLastKey | sbemu/dbopl.cpp:564-571 | releasing the only key changes the phase to release, unless the operator is off, and nothing else |
| OplOperator.OtherKeyHolds | sbemu/dbopl.cpp:550-571 | while another key holds the operator pressing and releasing changes only the record of keys |
| OplOperator.BitsOfRegister20 | sbemu/dbopl.cpp:452-475 | the bits of register 20 are its tremolo, sustain and key scaling fields |
| OplOperator.ApplyKeepsTuned | sbemu/dbopl.cpp:288-507 | no event leaves behind a rate, zero bit, level or scaling that does not follow from registers and key |
| OplOperator.RunStaysTuned | sbemu/dbopl.cpp:288-507 | so over every run of samples, key events, frequency changes and register writes |
| OplOperator.SetupTunes | sbemu/dbopl.cpp:1351-1364 | clearing the registers through all ones, as the chip is set up, brings any operator there |
| OplOperator.ReleasedVolume | sbemu/dbopl.cpp:419-431 | without a key the attenuation after n samples is the one before plus the whole steps of all n rates together, at most 511 |
| OplOperator.PressForgetsIff | sbemu/dbopl.cpp:550-562 | the next key press cannot tell whether those samples were taken if and only if they made no whole step or the attenuation was already full |
| OplOperator.SilentStaysSilent | sbemu/dbopl.cpp:529-535 | an operator found silent stays inaudible under any tremolo through any samples and key releases |
| OplOperator.InaudibleIsNotSilent | sbemu/dbopl.cpp:529-535 | the rate bit is needed: an inaudible operator in attack can be heard with its next sample |
| OplOperator.AttackTerminates | sbemu/dbopl.cpp:386-399 | with a non-zero rate an undisturbed attack ends at full volume within (v + 1) * ceil(2^24 / rate) samples, and not before does it leave the phase |
| OplOperator.ZeroAttackNeverEnds | sbemu/dbopl.cpp:386-390 | with a zero rate it never changes anything |
| OplOperator.Operator.ForwardVolume | sbemu/dbopl.cpp:375-440 | the code's sample step is the abstract one, of which the rows above say what it does in every phase, and it returns the new volume |
| OplOperator.Operator.PressKey | sbemu/dbopl.cpp:550-562 | key on |
| OplOperator.Operator.ReleaseKey | sbemu/dbopl.cpp:564-571 | key off |
| OplOperator.Operator.RecomputeRates | sbemu/dbopl.cpp:360-373 | key scaling and the three rates with their zero bits are recomputed when the scaling changes |
| OplOperator.Operator.WriteReg20 | sbemu/dbopl.cpp:452-475 | register 20 on the object's fields |
| OplOperator.Operator.WriteReg40 | sbemu/dbopl.cpp:477-482 | register 40 on the object's fields |
| OplOperator.Operator.WriteReg60 | sbemu/dbopl.cpp:484-493 | register 60 on the object's fields |
| OplOperator.Operator.WriteReg80 | sbemu/dbopl.cpp:495-507 | register 80 on the object's fields |
| OplChannel.HushedVoiceIsSilent | sbemu/dbopl.cpp:590-601 | an inaudible operator that does not attack gives sample 0 for any waveform and modulation, and stays so |
| OplChannel.BlockGoesOn | sbemu/dbopl.cpp:447-450 | in a block every operator in use advances its phase by its increment modulo 2^32 and its envelope by one step a sample, and operator 0 keeps its last two samples |
| OplChannel.BlockSample2 | sbemu/dbopl.cpp:906-935 | the i-th sample of the two-operator modes: the waveform at the phase reached, modulated by the delayed sample of operator 0, or added to it |
| OplChannel.BlockSample4 | sbemu/dbopl.cpp:935-958 | the same for the four modes of four operators |
| OplChannel.SkipTests | sbemu/dbopl.cpp:857-903 | mode by mode, which operators the shortcut tests |
| OplChannel.PannedCells | sbemu/dbopl.cpp:959-975 | a sample is added to its one cell, or to those of its two cells that the panning selects |
| OplChannel.SkippedBlock | sbemu/dbopl.cpp:857-903 | the samples of a block that the shortcut skips: all 0, but for the delayed sample that the additive modes play first |
| OplChannel.SkipIsExactIff | sbemu/dbopl.cpp:857-982 | skipping leaves the output as running would if and only if the mode is not additive, the block is empty, the channel is panned away, or the delayed sample is 0 in 16 bits; all eight two- and four-operator modes |
| OplChannel.DelayedSampleExample | sbemu/dbopl.cpp:857-982 | a sounding operator of an additive mode is muted by register 40: the block is skipped and its delayed sample lost |
| OplChannel.ShortcutOverRun | sbemu/dbopl.cpp:855-982 | over any run of blocks with changing oscillator values and key releases in between, up to the next key press or register write, the channel with the shortcut and the one without it give the same samples, but for one: the delayed sample that the additive modes play at the first skipped block |
| OplChannel.ShortcutIsExactIff | sbemu/dbopl.cpp:855-982 | so over such a run the shortcut is exact if and only if the mode is not additive, no non-empty block is skipped, or the delayed sample is 0 |
| OplChannel.SkippedUntilPressIff | sbemu/dbopl.cpp:550-562 | a key press after a stretch that begins with a skipped block and all keys up finds the operators as if every block had been run if and only if every operator that is not heard is at its full attenuation or has not made a whole step of it in all the samples |
| OplChannel.KeyPressAfterSkipExample | sbemu/dbopl.cpp:550-562 | in a mode that is not additive, the key pressed after a skipped block finds the modulator louder than it would be, and the note sounds different |
| OplChannel.AlikePlay | sbemu/dbopl.cpp:855-982 | channels that differ only in what a block sets sound alike over all blocks that follow, run or skipped |
| OplChannel.NotesAreExact | sbemu/dbopl.cpp:855-982 | over any notes, each begun by a key press, the shortcut changes no sample if every note meets that condition, has its keys up when first skipped, and leaves no delayed sample |
| OplChannel.BlockIsSingleStepped | sbemu/dbopl.cpp:906-982 | a block prepared once goes through the states, and gives both lanes the samples, of preparing and playing each sample by itself |
| OplChannel.Channel.GetSample | sbemu/dbopl.cpp:915-950 | one sample of a channel: feedback, the operators in the mode's order, and the delayed samples, as `BlockSample2` and `BlockSample4` spell out |
| OplChannel.Channel.Block | sbemu/dbopl.cpp:855-982 | a block is skipped exactly when all heard operators are silent; else its samples are added to the output cells |
| OplLfo.ToWrapReaches | sbemu/dbopl.cpp:1017-1019 | the computed block length is the number of steps to the first that reaches the end of the counter |
| OplLfo.AfterAdds | sbemu/dbopl.cpp:1011-1035 | a samples and then b samples are a + b samples: same trace, same final state |
| OplLfo.TablesGoRound | sbemu/dbopl.cpp:1011-1035 | after n samples the counter has advanced by n increments modulo 2^20, and vibrato, of 32 values, and tremolo, of 52, by its rounds |
| OplLfo.BlockIsItsSamples | sbemu/dbopl.cpp:1011-1035 | a block ends in the state of as many single steps, all of which show the block's values; it is not empty and not longer than asked for |
| OplLfo.BothPlay | sbemu/dbopl.cpp:1215-1228 | channels played side by side go through the states each goes through alone, so the nine or eighteen of a chip are one machine |
| OplLfo.BothSound | sbemu/dbopl.cpp:1202-1232 | their samples are added |
| OplLfo.CellsOfSample | sbemu/dbopl.cpp:1202-1232 | a sample has one cell, or a left and a right one |
| OplLfo.ReachBounds | sbemu/dbopl.cpp:1206 | the cells cleared: always more than are filled, at most twice as many, exactly twice iff one block does it all |
| OplLfo.Chip.ForwardLfo | sbemu/dbopl.cpp:1011-1035 | the code computes that block length and state |
| OplLfo.Chip.Generate | sbemu/dbopl.cpp:1202-1232 | the block loop ends after exactly the asked number of samples; channel states and output cells are those of a chip whose oscillator is single-stepped; the buffer beyond is cleared or untouched as stated |
| Resource.SomethingIsFree | drivers/ctxfi/ctresource.c:28-43 | a single index can be taken exactly while not all are used |
| Resource.MaskIsShift | drivers/ctxfi/ctresource.c:28-56 | the mask of an index is one bit, the lowest for index 0 |
| Resource.RunNeedsSpace | drivers/ctxfi/ctresource.c:77-78 | a free run is no longer than the count of free indices, so the early test refuses nothing that exists |
| Resource.LowestAreFree | drivers/ctxfi/ctamixer.c:247-253 | indices taken one by one are free, distinct, ascending and the lowest there are |
| Resource.TakeKeepsOk | drivers/ctxfi/ctsrc.c:411-465 | taking a run, or several single indices, keeps live objects disjoint and the count right, whether it succeeds or not |
| Resource.TakesIff | drivers/ctxfi/ctresource.c:73-85 | a request that is set up fails exactly for lack of a free run, or of enough free indices |
| Resource.GiveBackKeepsOk | drivers/ctxfi/ctsrc.c:467-484 | giving a live object's indices back keeps it as well |
| Resource.PutUndoesGet | drivers/ctxfi/ctsrc.c:411-484 | giving back what was just taken restores the manager exactly |
| Resource.Runs | drivers/ctxfi/ctresource.c:73-93 | over every run live objects hold disjoint indices, exactly theirs are used, and avail counts the others |
| Resource.Manager.Scan | drivers/ctxfi/ctresource.c:28-43 | the scan ends at the last index of the lowest free run, or fails exactly when there is none or none is asked for |
| Resource.Manager.GetResource | drivers/ctxfi/ctresource.c:22-56 | the lowest free run is marked in the packed bitmap, and nothing else |
| Resource.Manager.PutResource | drivers/ctxfi/ctresource.c:58-71 | exactly the run is unmarked |
| Resource.Manager.Get | drivers/ctxfi/ctresource.c:73-85 | avail follows; it fails exactly when no run of that length is free |
| Resource.Manager.Put | drivers/ctxfi/ctresource.c:87-93 | exactly the run leaves the used indices and avail stays the count of the free ones |
| Resource.Manager.GetEach | drivers/ctxfi/ctamixer.c:227-277 | an object gets its indices or none: on failure bitmap and avail are exactly as before |
| Resource.Manager.PutEach | drivers/ctxfi/ctamixer.c:279-293 | exactly the object's indices are given back |
| Resource.Manager.GetRun | drivers/ctxfi/ctsrc.c:411-465 | a source's request, with its rollback when setup fails, is `TakeRun` on the pool, and live objects stay disjoint and counted |
| Resource.Manager.PutRun | drivers/ctxfi/ctsrc.c:467-484 | its release is `GiveBack` |
| Resource.Manager.GetObject | drivers/ctxfi/ctamixer.c:227-277 | a request for single indices, with its rollback, is `TakeEach` on the pool |
| Resource.Manager.PutObject | drivers/ctxfi/ctamixer.c:279-293 | its release is `GiveBack` |
| VmAllocator.MapConserves | drivers/ctxfi/ctvmem.c:30-74 | a mapping moves its aligned size from free to used, the stored size aligning back to it |
| VmAllocator.UnmapConserves | drivers/ctxfi/ctvmem.c:76-121 | a release moves it back, whatever is merged |
| VmAllocator.EveryRunConserves | drivers/ctxfi/ctvmem.c:30-159 | after every run of maps and unmaps of any sizes in any order the counter is the total of the unused blocks and makes up the whole space with the used ones |
| VmAllocator.CanMapIff | drivers/ctxfi/ctvmem.c:38-55 | a mapping is possible if and only if some unused block is large enough; the counter test is redundant |
| VmAllocator.MergesEverything | drivers/ctxfi/ctvmem.c:106-119 | in a sorted list the backward merge never stops: all earlier blocks end up in one, gaps or not |
| VmAllocator.MergeTilesIff | drivers/ctxfi/ctvmem.c:106-119 | the merge keeps the tiling if and only if the merged blocks touch |
| VmAllocator.UnmapTilesIff | drivers/ctxfi/ctvmem.c:76-121 | a release keeps the tiling of the space if and only if no other live block starts between the lowest free block and the released one |
| VmAllocator.EveryRunTilesIff | drivers/ctxfi/ctvmem.c:30-159 | over every run of maps of at least a page and of releases the space is tiled at every moment if and only if every release meets that condition when it comes |
| VmAllocator.MapTiles | drivers/ctxfi/ctvmem.c:30-74 | a mapping of any positive size keeps the tiling |
| VmAllocator.DoubleAllocationExample | drivers/ctxfi/ctvmem.c:76-121 | three pages mapped, first and third released: the next mapping overlaps the second |
| VmAllocator.StackRun | drivers/ctxfi/ctvmem.c:30-159 | with releases in reverse order of the mappings the used blocks fill the space from the bottom and all else is one free block or none |
| VmAllocator.Space.MapBuffer | drivers/ctxfi/ctvmem.c:124-153 | the code's map is the abstract one and fails exactly when no block fits |
| VmAllocator.Space.PutBlock | drivers/ctxfi/ctvmem.c:76-121 | the code's release is the abstract one |
| TrapChain.DispatchIsEarliest | qemm.c:82-102 | an access goes to the earliest installed table that lists its port |
| TrapChain.UnlistedIsNotDispatched | hdpmipt.c:56-68 | an access is passed on exactly if no table lists its port |
| TrapChain.RecordedPorts | qemm.c:228-243 | the record of an installation keeps its ports and marks for clearing exactly those not trapped before |
| TrapChain.InstallKeepsOk | qemm.c:179-256 | an installation keeps: trapped ports are the original ones and those of live tables, and every table would clear what it was the first to trap |
| TrapChain.UninstallIsRightIff | qemm.c:258-279 | a removal leaves exactly the right ports trapped if and only if no port it was first to trap is listed by a later live table |
| TrapChain.UninstallKeepsOk | qemm.c:258-279 | and then the invariant holds for all other tables |
| TrapChain.DisjointOrLastIsNotShared | qemm.c:268-278 | disjoint port sets, or removing the last installed first, meet the condition |
| TrapChain.EveryRunIsRight | qemm.c:179-298 | over every such run exactly the original ports and those of live tables are trapped |
| TrapChain.AllRemovedIsAsBefore | qemm.c:179-298 | so with all tables removed again the trapped ports are the original ones |
| TrapChain.TrappedHasHandler | qemm.c:82-102 | every port trapped beyond the original ones has a handler |
| TrapChain.SharedPortExample | qemm.c:258-279 | a shared port whose first table is removed first is no longer trapped although the second is live |
| TrapChain.Chain.QemmInstall | qemm.c:224-255 | pointer code: ports recorded and trapped in turn, the link appended behind the tail |
| TrapChain.Chain.QemmUninstall | qemm.c:258-282 | pointer code: the link taken out anywhere in the chain, header and tail right, its own ports cleared |
| TrapChain.Chain.Append | hdpmipt.c:207-217 | the append shared by both trap managers |
| TrapChain.Chain.Unlink | hdpmipt.c:222-230 | the unlinking shared by both |
| TrapChain.Chain.Handle | hdpmipt.c:56-69 | the search from the header finds the handler of the earliest match or none |
| EnvBlock.DecodeEncode | utility.c:38-46 | reading a block gives back the strings written, whatever follows it |
| EnvBlock.RawTestIsExact | utility.c:58 | the comparison on raw memory, which may read past a terminator, is exact for names without NUL |
| EnvBlock.MatchIffSameLetter | utility.c:58 | bytes match if they are the same or one ASCII letter in both cases |
| EnvBlock.EditIsExactIff | utility.c:54-73 | the pass removes all old settings and nothing else if and only if no two of them are adjacent |
| EnvBlock.SetOnce | utility.c:54-75 | then the variable is set once, by the last string, to the new value, and all others are as before |
| EnvBlock.AdjacentExample | utility.c:58-66 | of two adjacent settings one survives in front of the new one |
| EnvBlock.EditedFits | utility.c:48-52 | whenever the space test passes the edited block fits, its end included |
| EnvBlock.SpaceTestIff | utility.c:48-52 | the test asks for room for the whole old block with the new string appended, and one byte more |
| EnvBlock.ReadAfterwards | utility.c:38-75 | a reader finds the edited strings if and only if the block held any: in an empty block the new string stays invisible |
| EnvBlock.Remove | utility.c:54-73 | the in-place pass, moves and early exits included, leaves exactly the edited strings |
| EnvBlock.SetEnv | utility.c:7-91 | the whole edit in memory: it fails exactly for empty arguments, lack of space or a setting not to be replaced, and then changes nothing; else the block holds the edited strings |
| Pitch.GetPitch | drivers/ctxfi/ctatc.c:199-226 | the normalising loop computes the pitch of the specification, and no 32-bit step overflows |
| Pitch.FractionBracket | drivers/ctxfi/ctatc.c:210-223 | the normalised quotient brackets the exact fraction to within one step |
| Pitch.PitchBracket | drivers/ctxfi/ctatc.c:199-226 | for rates in multiples of 100 the pitch p satisfies p <= 2^24 * in / out < p + max(1, 2^(b-7)), and is exact when out divides in |
| Pitch.PitchOfAnyRates | drivers/ctxfi/ctatc.c:199-226 | for all rates, with whole part w modulo 256, and r and q the remainder and the output rate truncated to hundreds: exact for r = 0; for 0 < r < q the fraction brackets r / q to within one step and the whole part is w; for r = q the pitch is w or w + 1, the odd one |
| Pitch.TruncatedHundredsExample | drivers/ctxfi/ctatc.c:199-226 | other rates can lose the whole fraction: 299/150 |
| Pitch.RomExistsIff | drivers/ctxfi/ctatc.c:228-245 | a conversion ROM exists exactly for ratios up to 8 |
| Pitch.RomByRatio | drivers/ctxfi/ctatc.c:228-245 | which pitches get which ROM: ratios between 0.26 and 1.72, the two pitches next to 147/80, the ratio 2, and none above 8 |
| Pitch.Rom18375Iff | drivers/ctxfi/ctatc.c:228-245 | the ROM for the ratio 147/80 is found only while the remainder is below 51200 Hz |

## Left out

- Guest interrupt handlers: `Pump` takes them not to reprogram DMA or DSP between two passes, so the cursors read again after an interrupt are the ones left by it.
- `mixer_speed_lq`, `cv_bits_n_to_m` and `cv_channels_1_to_n`: of the resampler only its frame count is a parameter; the sample values it makes, and the unmixed branches of the OPL output, are not modelled.
- Direct-mode output, the DSP's read port, and its time-constant arithmetic.
- Interrupt delivery, command line, BLASTER parsing, PCI, BIOS, DPMI and serial code.
- Vdma.PortRegister: ports outside the trapped set; `VDMA_PortChannelMap` holds -1 in unsigned bytes, which no trapped port reaches.
- Vdma.AutoRunStaysInStep: covers runs without reprogramming of the channel, because closing a write pair discards a delayed update; the page register after a 64K crossing is not tied to the ring.
- OPL percussion, noise, vibrato arithmetic, waveforms and the construction of the rate tables, which are parameters bounded by 2^31.
- OplOperator.AttackTerminates: is about a key that stays down and registers that stay as they are, as are the table entries it uses.
- OplLfo.Chip.Generate: runs the channels as one machine that is stepped a sample at a time and always computed; that a channel's block is that machine is `OplChannel.BlockIsSingleStepped`, what its shortcut changes is `OplChannel.ShortcutOverRun` and `OplChannel.SkippedUntilPressIff`.
- OplChannel.NotesAreExact: notes without register writes; a skipped stretch in which a key is still down, as after a decay to silence, is covered up to the next key press only.
- Pump.Engine.PlayDigital: a transfer that is not in whole frames is followed pass by pass, without a closed form for many passes; memory beyond a mapped window is what linear memory holds there.
- OplChannel.Channel.Block: an operator's envelope is updated as a value; the heap object for it is `OplOperator.Operator`.
- ImapRing.UnmapUndoesMap: the loops of `srcimp_map` and `srcimp_unmap` and the `mapped` bits are functions on values; the linked list is in the calls they make.
- XfiTimer.StepKeepsInv: a stream is not started while already listed, which the sound core guarantees and which would corrupt the list; freeing an instance and the disabled system-timer variant are not modelled.
- Resource: memory exhaustion and the hardware setup of the objects, which appear as one flag that makes setup fail.
- VmAllocator: memory exhaustion, the page table entries, and the mutex.
- TrapChain.Chain.QemmInstall: calls to QEMM always succeed; saving and restoring the old callback, the real-mode wrapper and HDPMI's own range traps are not modelled.
- EnvBlock.SetEnv: finding the environment of the command interpreter; the block is given as an array of its size, an empty block being two NULs.
- Pitch.SelectRom: the remaining resource setup of the PCM streams.
- Drivers of other cards and register pokes of the X-Fi chips.
