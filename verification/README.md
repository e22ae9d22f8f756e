# STM32F2 peripheral drivers: a model in Dafny

The drivers for six peripherals of the STM32F2 family (`project/STM32F2xx_StdPeriph_Driver`) are modelled as methods
that read and write the registers of a peripheral. The peripheral is a class whose methods are the register accesses; its
state is one record, changed by pure functions that say what the hardware does at each access. Whatever the hardware may
choose (how long a job takes, when a frame goes out, what an operation leaves behind when it fails) is a parameter that
is never constrained, so that every statement holds for all of it. What a driver must not do to the hardware is a
precondition of the access: data to a full FIFO, a store while an operation runs, a filter word of an active bank, a
write that requests two modes at once.

## What is in it

| Files | Subject |
|---|---|
| `Bits`, `Words` | registers as bit sets, words as bytes in little-endian memory |
| `BlockModes` | AES, DES and TDES as an abstract permutation; ECB, CBC and CTR as the processor computes them and as NIST SP 800-38A defines them |
| `MemoryRun` | the block loop over one memory, for buffers that overlap in any way |
| `CrypRegisters`, `Cryp` | the CRYP processor: control register fields, two FIFOs of eight words, jobs of any length |
| `CrypDriver`, `CrypBlocks`, `CrypRun`, `CrypAes`, `CrypDes` | the CRYP driver from register functions up to `CRYP_AES_x`, `CRYP_DES_x` and `CRYP_TDES_x` |
| `CrypLaws`, `CrypContext` | laws of whole calls; saving and restoring the context |
| `Flash`, `FlashDriver`, `FlashLaws` | a memory of sectors in which programming only clears bits, the erase and program functions, and what sequences of them do |
| `CanFrames`, `CanTransmit`, `CanTransmitDriver`, `CanRuns`, `CanReceive` | frames in mailboxes, the transmit mailboxes with their ledger of frames, what the status answers in a run, the receive FIFO |
| `CanFilters` | the filter banks as a table |
| `CanModes`, `CanModeDriver` | initialization, normal and sleep mode with bounded waits, and the bit timing |
| `Adc`, `Dma`, `Exti` | packed configuration that has to agree with a plain table or set |

## What is assumed of the hardware

- Register bits that come from `stm32f2xx.h`, which is not part of this model, are declared where they are used: those of
  CR, SR and DMACR of CRYP, CR of FLASH, TSR, RFR, MCR, MSR and BTR of CAN, IMR to PR of EXTI. All other constants are
  those of the driver headers. Masks are written out as numbers next to the name.
- CRYP: FFLUSH empties both FIFOs and reads as 0. A block is taken in when it is complete, the processor is enabled and
  the OUT FIFO has room. A job stays busy for any number of status reads. Enabling in key preparation mode starts the
  preparation, which leaves the prepared key in the key registers; whether CRYPEN then drops is left open, and so is
  whether the core ignores writes to the key and IV registers while a job is in hand. With 8-bit data the bytes of each
  word are reversed on the way in and out. The ciphers are arbitrary permutations with their inverses; AES decryption
  needs the prepared key; the counter increment is an arbitrary function of a block.
- FLASH: writes to CR are ignored while LOCK is set; a store without PG or with the wrong PSIZE is refused with a flag;
  STRT is cleared by the hardware at the end; every operation ends after some number of reads with some flags; if one of
  them is an error flag, its range holds arbitrary bytes. Where sectors begin is a parameter.
- CAN: pending frames end, successfully or not, at any access; RQCP, FULL and FOVR are cleared by writing 1, RQCP together
  with TXOK; with AWUM set the controller may clear SLEEP by itself at any access. How a filter bank is read and where a
  16-bit filter finds the identifier follow the reference manual of the device.
- DMA and EXTI: an event may happen between any two calls; a 1 written to a clear register clears its flag.

## What the code does differently from what it says

- `CRYP_SaveContext` means to test for TDES, but `ALGOMODE_TDES_ECB | ALGOMODE_TDES_CBC` is bit 3 alone: the OUT FIFO is
  checked in the ECB and CTR modes of all three algorithms and in no CBC mode (`CrypContext.OutputDrainedIff`), so that a
  save can leave a result behind (`CrypContext.SavedBeforeReadIff`).
- A restored context does not prepare its key again (`CrypContext.UserKeySufficesIff`).
- After a key preparation that gave up the FIFOs are flushed while the processor is busy
  (`CrypRun.FlushedWhileBusyIff`).
- The AES functions decrypt for `Mode == MODE_DECRYPT` and encrypt otherwise; the DES and TDES functions encrypt for
  `MODE_ENCRYPT` and decrypt otherwise. Both tests are modelled as they are.
- An output that starts inside the input, behind its start, spoils what is still to be read
  (`CrypLaws.OverlapHarmlessIff`).
- `FLASH_GetStatus` takes EOP for an error and never returns `FLASH_ERROR_OPERATION` (`FlashDriver.OutcomeMeans`,
  `FlashDriver.EndOfOperationIsAnError`); an erase of a locked device reports `FLASH_COMPLETE`
  (`FlashLaws.CompleteEraseIff`).
- `CAN_CancelTransmit` acknowledges the completions of all mailboxes (`CanTransmitDriver.CancelKeepsStatusIff`, over
  whole runs `CanRuns.AnswerInRun`), and `CAN_Receive` acknowledges FULL and FOVR (`CanReceive.FlagKeptIff`).
- A CAN mode request may report failure although its loop saw the acknowledge, exactly if the acknowledge is gone at the
  next read (`CanModes.TellsAcknowledgeIff`, `CanModes.AcknowledgedAndFailed`).
- An injected rank just beyond the length overwrites the length (`Adc.LengthKeptIff`).
- Two DMA flag constants fail the check of the function that they are for (`Dma.ClearFlagAcceptedIff`).
- `EXTI_Init` with DISABLE takes a line out of the set of the given mode only (`Exti.DisabledIff`).

## Model

| member | source | states |
|---|---|---|
| CrypAes.AES_ECB | project/STM32F2xx_StdPeriph_Driver/src/stm32f2xx_cryp_aes.c:98-261 | For every key size, whole-block input, buffer layout and hardware timing: memory, status and number of status reads are those of the block loop run on the original memory; with buffers that do not clash, the output is section 6.1 of NIST SP 800-38A for exactly the blocks processed in time, nothing else in memory changes, and SUCCESS means that this is all blocks. On every return the processor is disabled, CR holds the configuration of the call with all other bits as before, DMACR is as before, and unless the preparation gave up the key registers hold the key in use and zeros elsewhere. |
| CrypAes.AES_CBC | project/STM32F2xx_StdPeriph_Driver/src/stm32f2xx_cryp_aes.c:279-457 | The same for section 6.2, with the IV read from memory at the call. |
| CrypAes.AES_CTR | project/STM32F2xx_StdPeriph_Driver/src/stm32f2xx_cryp_aes.c:475-620 | The same for section 6.5; no key preparation in either direction. |
| CrypAes.LoadAesKey | project/STM32F2xx_StdPeriph_Driver/src/stm32f2xx_cryp_aes.c:298-354 | The last 16, 24 or 32 bytes of the key registers are the key bytes in memory order, whatever the key size, through the byte reversal of every word; the other key registers are zero. |
| Words.RevNumber | project/STM32F2xx_StdPeriph_Driver/src/stm32f2xx_cryp_aes.c:302-309 | On numbers, the model of the intrinsic __REV swaps the four bytes end for end. |
| CrypAes.PrepareKey | project/STM32F2xx_StdPeriph_Driver/src/stm32f2xx_cryp_aes.c:163-206 | SUCCESS exactly if the preparation ends within 65536 status reads; then the key registers hold the prepared key and nothing else the block loop depends on has changed; on ERROR the preparation is still in hand. DMACR and the bits of CR outside the configuration stay. |
| CrypAes.Run | project/STM32F2xx_StdPeriph_Driver/src/stm32f2xx_cryp_aes.c:220-260 | The common text from the second CRYP_Init on: with the key in place (or its preparation failed) the call does what CrypRun.Performed says, and switches the processor off. |
| CrypDes.DES_ECB | project/STM32F2xx_StdPeriph_Driver/src/stm32f2xx_cryp_des.c:94-172 | ECB with DES as for AES; every mode other than MODE_ENCRYPT decrypts. |
| CrypDes.DES_CBC | project/STM32F2xx_StdPeriph_Driver/src/stm32f2xx_cryp_des.c:189-273 | CBC with DES, whatever the uninitialised second half of the IV structure holds. |
| CrypDes.TDES_ECB | project/STM32F2xx_StdPeriph_Driver/src/stm32f2xx_cryp_tdes.c:96-181 | ECB with the encrypt-decrypt-encrypt bundle of the three keys in memory order. |
| CrypDes.TDES_CBC | project/STM32F2xx_StdPeriph_Driver/src/stm32f2xx_cryp_tdes.c:198-291 | CBC with the bundle, whatever the uninitialised second half of the IV structure holds. |
| CrypDriver.Init | project/STM32F2xx_StdPeriph_Driver/src/stm32f2xx_cryp.c:231-262 | Changes the control register to the configured value and nothing else; no intermediate write starts or flushes anything. |
| CrypDriver.ConfiguredFields | project/STM32F2xx_StdPeriph_Driver/src/stm32f2xx_cryp.c:231-262 | After CRYP_Init each field reads as asked, whatever was there; all bits outside the fields stay, and the key size stays for DES and TDES. |
| CrypDriver.KeyInit | project/STM32F2xx_StdPeriph_Driver/src/stm32f2xx_cryp.c:292-303 | The eight key registers hold the structure, unless a job is in hand and the core ignores the writes; nothing else changes. |
| CrypDriver.IVInit | project/STM32F2xx_StdPeriph_Driver/src/stm32f2xx_cryp.c:329-335 | The same for the four IV registers. |
| CrypDriver.FIFOFlush | project/STM32F2xx_StdPeriph_Driver/src/stm32f2xx_cryp.c:358-362 | Both FIFOs are empty afterwards, FFLUSH reads back as 0, and a flush while a job is in hand is recorded. |
| CrypDriver.WaitWhileBusy | project/STM32F2xx_StdPeriph_Driver/src/stm32f2xx_cryp_aes.c:190-198 | Gives up exactly if the job in hand outlasts 65536 reads; otherwise the registers are those at the end of the job, one read after it. |
| CrypBlocks.BlockJobIsStep | project/STM32F2xx_StdPeriph_Driver/src/stm32f2xx_cryp_aes.c:225-252 | Pushing a block from little-endian memory with 8-bit data, and storing the words read back, is one step of the mode of operation on the bytes in memory order; the IV registers move to the next chaining value. |
| CrypBlocks.ProcessBlock | project/STM32F2xx_StdPeriph_Driver/src/stm32f2xx_cryp_aes.c:225-252 | One turn of the loop: never writes a full IN FIFO nor reads an empty OUT FIFO; in time, memory, addresses and IV registers become those of MemoryRun.Next; too late, memory is untouched. |
| CrypBlocks.BlockLoop | project/STM32F2xx_StdPeriph_Driver/src/stm32f2xx_cryp_aes.c:221-253 | The loop with its bounded busy polling equals the recursive MemoryRun.Loop in memory, status, polls and final IV registers, for buffers that overlap in any way. |
| CrypRun.PerformedAsPromised | project/STM32F2xx_StdPeriph_Driver/src/stm32f2xx_cryp_aes.c:279-457 | What a call does to memory is what the standard prescribes for the blocks in time, and untouched elsewhere, provided no block is overwritten before it is read. |
| CrypRun.PerformedPolls | project/STM32F2xx_StdPeriph_Driver/src/stm32f2xx_cryp_aes.c:190-198 | At most 65536 status reads for each block and one more share for the key preparation. |
| CrypRun.FlushedWhileBusyIff | project/STM32F2xx_StdPeriph_Driver/src/stm32f2xx_cryp.c:350-362 | The FIFOs are flushed while the processor is busy exactly by the calls whose key preparation gives up, against the note of CRYP_FIFOFlush. |
| CrypLaws.FlushedWhileBusy | project/STM32F2xx_StdPeriph_Driver/src/stm32f2xx_cryp.c:350-362 | A call that does so, as a concrete instance. |
| BlockModes.StreamIsStandard | project/STM32F2xx_StdPeriph_Driver/src/stm32f2xx_cryp.c:52-91 | The block stream that leaves the processor satisfies the per-block equations of sections 6.1, 6.2 and 6.5 of NIST SP 800-38A, for all algorithms and directions and every message. |
| BlockModes.StepInverse | project/STM32F2xx_StdPeriph_Driver/src/stm32f2xx_cryp.c:52-91 | Each decryption step undoes the encryption step and leaves the same chaining value. |
| BlockModes.RoundTrip | project/STM32F2xx_StdPeriph_Driver/src/stm32f2xx_cryp.c:52-91 | Decrypting the encrypted stream gives the message back, for every length, algorithm and mode. |
| BlockModes.StreamSplit | project/STM32F2xx_StdPeriph_Driver/src/stm32f2xx_cryp.c:646-677 | A message may be cut at any block boundary if the second part starts from the IV registers that the first part left. |
| BlockModes.CbcSplit | project/STM32F2xx_StdPeriph_Driver/src/stm32f2xx_cryp_aes.c:414-451 | For CBC encryption that IV is the last ciphertext block of the first part. |
| MemoryRun.LoopDelivers | project/STM32F2xx_StdPeriph_Driver/src/stm32f2xx_cryp_aes.c:414-451 | By induction over the blocks: the loop over one memory stores exactly the stream of the original input for the blocks in time, and succeeds exactly if all were in time. |
| MemoryRun.LoopAdvances | project/STM32F2xx_StdPeriph_Driver/src/stm32f2xx_cryp_aes.c:414-451 | Every loop gets as far as its waits let it, and memory, IV registers and addresses there are those of a run that takes no notice of time. |
| MemoryRun.AdvanceDelivers | project/STM32F2xx_StdPeriph_Driver/src/stm32f2xx_cryp_aes.c:414-451 | Such a run stores, for any number of blocks, what the processor makes of the original input, and nothing else. |
| MemoryRun.LoopSplit | project/STM32F2xx_StdPeriph_Driver/src/stm32f2xx_cryp_aes.c:414-451 | A run cut at any block boundary goes on from where the first part ended, with the polls adding up. |
| MemoryRun.LoopPolls | project/STM32F2xx_StdPeriph_Driver/src/stm32f2xx_cryp_aes.c:190-198 | The loop reads the status register at most 65536 times per block. |
| CrypLaws.StandardDetermines | project/STM32F2xx_StdPeriph_Driver/src/stm32f2xx_cryp_aes.c:279-457 | The standard leaves no choice: any output that satisfies it is the stream of the processor. |
| CrypLaws.DecryptAfterEncrypt | project/STM32F2xx_StdPeriph_Driver/src/stm32f2xx_cryp_aes.c:279-457 | An encrypting and then a decrypting call, on any two processors of the same silicon with any history, give the original buffer back, for every length, algorithm and mode. |
| CrypLaws.CbcInTwoCalls | project/STM32F2xx_StdPeriph_Driver/src/stm32f2xx_cryp_aes.c:279-457 | CBC encryption in two calls, the second with the last ciphertext block as IV, writes the bytes of one call, for every split, with each of the three calls on any processor of the same silicon. |
| CrypLaws.CallIsAFunction | project/STM32F2xx_StdPeriph_Driver/src/stm32f2xx_cryp.c:231-335 | Two successful calls with the same arguments leave the same memory, whatever keys, IV registers, FIFOs and control register held before and however long each job took. |
| CrypLaws.TdesLoopIsDesLoop | project/STM32F2xx_StdPeriph_Driver/src/stm32f2xx_cryp_tdes.c:126-175 | The TDES loop with one key three times and the DES loop run in lock step: same memory, status and polls, also when a wait gives up or buffers overlap. |
| CrypLaws.TdesCallIsDesCall | project/STM32F2xx_StdPeriph_Driver/src/stm32f2xx_cryp_tdes.c:230-285 | CRYP_TDES_x with K K K does to memory and status what CRYP_DES_x does with K, in ECB and CBC, in both directions and for every length. |
| CrypLaws.TdesCallAtAnyPace | project/STM32F2xx_StdPeriph_Driver/src/stm32f2xx_cryp_tdes.c:230-285 | Also on different processors and, in ECB, with different IV registers: when both succeed they leave the same memory, for overlapping buffers too. |
| CrypLaws.OverlapHarmlessIff | project/STM32F2xx_StdPeriph_Driver/src/stm32f2xx_cryp_aes.c:414-451 | A layout of input and output is harmless for every cipher, mode, message and timing if and only if the output starts at or before the input, or behind its end, or there is at most one block; every other layout has a run that stores wrong bytes. |
| CrypContext.SaveContext | project/STM32F2xx_StdPeriph_Driver/src/stm32f2xx_cryp.c:466-538 | Success exactly if the processor is drained, in the sense of the flags tested, after at most 65536 reads; then configuration, IV registers and the caller's key are in the structure and the processor is off; on ERROR the structure and all of the processor but DIEN are as polling alone leaves them. In DMACR exactly bit 0x01 is cleared on ERROR, and exactly 0x03 on SUCCESS. |
| CrypContext.RestoreContext | project/STM32F2xx_StdPeriph_Driver/src/stm32f2xx_cryp.c:551-575 | Configuration, keys and IV registers come from the structure, and then the processor is enabled: that starts a preparation in key preparation mode, and takes in what the IN FIFO still holds otherwise. Nothing waits for a job in hand, during which the core may ignore keys and IV. |
| CrypContext.OutputDrainedIff | project/STM32F2xx_StdPeriph_Driver/src/stm32f2xx_cryp.c:478-487 | The mode test looks at bit 3 only: a save vouches for an empty OUT FIFO in the ECB and CTR modes and in no other. |
| CrypContext.SavedBeforeReadIff | project/STM32F2xx_StdPeriph_Driver/src/stm32f2xx_cryp.c:430-502 | From any idle, enabled processor, on any silicon: after one block was written and nothing read, the flag test of the save passes within its reads if and only if the block is processed in time and the mode is a CBC mode; the result of the block is then still in the OUT FIFO. |
| CrypContext.ReadyIsDrained | project/STM32F2xx_StdPeriph_Driver/src/stm32f2xx_cryp.c:478-502 | Between two blocks the processor is drained, in every mode, so that the save succeeds. |
| CrypContext.SwitchAndBack | project/STM32F2xx_StdPeriph_Driver/src/stm32f2xx_cryp.c:466-575 | Between two blocks the save always succeeds, and after any other use that leaves the processor idle the restore sets it up for the same context with the same IV registers, if the caller hands over the content of the key registers. |
| CrypContext.InterruptedRun | project/STM32F2xx_StdPeriph_Driver/src/stm32f2xx_cryp.c:430-575 | A run interrupted between blocks any number of times, with any other use of the processor each time, succeeds if and only if every block of every part is processed in time, and leaves the memory of an uninterrupted run over the blocks that were. |
| CrypContext.UserKeySufficesIff | project/STM32F2xx_StdPeriph_Driver/src/stm32f2xx_cryp.c:525-537 | The key that a caller can hand over, the one it once loaded, is enough exactly when no key was prepared: for AES decryption in ECB and CBC a restored context computes something else. |
| FlashDriver.GetStatus | project/STM32F2xx_StdPeriph_Driver/src/stm32f2xx_flash.c:977-1012 | The status is BUSY or what the error flags say after up to four reads, and the device is as one read leaves it. |
| FlashDriver.OutcomeMeans | project/STM32F2xx_StdPeriph_Driver/src/stm32f2xx_flash.c:988-1004 | COMPLETE exactly if none of the low eight status bits is set; ERROR_PROGRAM covers the mask 0xEF, so that FLASH_ERROR_OPERATION is never returned. |
| FlashDriver.EndOfOperationIsAnError | project/STM32F2xx_StdPeriph_Driver/src/stm32f2xx_flash.c:993-997 | An operation without an error flag is reported as COMPLETE exactly if EOP did not come up. |
| FlashDriver.WaitForLastOperation | project/STM32F2xx_StdPeriph_Driver/src/stm32f2xx_flash.c:1020-1036 | Ends with the operation in hand settled, and the status of the flags at that moment. |
| FlashDriver.Unlock | project/STM32F2xx_StdPeriph_Driver/src/stm32f2xx_flash.c:298-306 | The exact state: the two keys in order clear LOCK and nothing else; if the unlock sequence was begun or failed before, the device stays locked until reset. |
| FlashDriver.LockFlash | project/STM32F2xx_StdPeriph_Driver/src/stm32f2xx_flash.c:313-317 | LOCK is set and nothing else changes. |
| FlashDriver.Program | project/STM32F2xx_StdPeriph_Driver/src/stm32f2xx_flash.c:457-599 | The common text of the four program functions: no operation unless the last operation was COMPLETE; one store while nothing runs, with PG alone of the operation bits set and PSIZE equal to its width; only the range of the data can change; in CR only PSIZE is different afterwards. |
| FlashDriver.ProgramWord | project/STM32F2xx_StdPeriph_Driver/src/stm32f2xx_flash.c:495-522 | The four bytes of the word, lowest first, under the same contract. |
| FlashDriver.ProgramHalfWord | project/STM32F2xx_StdPeriph_Driver/src/stm32f2xx_flash.c:533-560 | The two bytes of the half-word, lowest first, under the same contract. |
| FlashDriver.ProgramByte | project/STM32F2xx_StdPeriph_Driver/src/stm32f2xx_flash.c:571-599 | One byte, under the same contract. |
| FlashDriver.ProgramDoubleWord | project/STM32F2xx_StdPeriph_Driver/src/stm32f2xx_flash.c:457-484 | The eight bytes of the double word, lowest first, under the same contract. |
| FlashDriver.EraseSector | project/STM32F2xx_StdPeriph_Driver/src/stm32f2xx_flash.c:339-385 | Nothing unless the last operation was COMPLETE; only the bytes of that sector can change, to 0xFF if no error flag came up. STRT is raised once, with SER, the sector number and the PSIZE of the voltage range (00, 01, 10, 11), and all other bits of CR as before; afterwards PSIZE stays, SNB is clear and the rest is as before. |
| FlashDriver.EraseAllSectors | project/STM32F2xx_StdPeriph_Driver/src/stm32f2xx_flash.c:404-446 | The same for the whole memory and MER; the sector number in CR stays as it was. |
| FlashLaws.CompleteProgram | project/STM32F2xx_StdPeriph_Driver/src/stm32f2xx_flash.c:457-599 | A program call that reports COMPLETE found the device unlocked, issued one proper store, and memory is the old one with bits cleared by the data. |
| FlashLaws.LockedProgram | project/STM32F2xx_StdPeriph_Driver/src/stm32f2xx_flash.c:298-317 | On a locked device no program call changes memory, and none reports COMPLETE. |
| FlashLaws.CompleteEraseIff | project/STM32F2xx_StdPeriph_Driver/src/stm32f2xx_flash.c:339-446 | An erase call that reports COMPLETE erased its range if and only if the device was unlocked or the range was blank: on a locked device it reports COMPLETE and does nothing. |
| FlashLaws.NothingErased | project/STM32F2xx_StdPeriph_Driver/src/stm32f2xx_flash.c:404-446 | A device for which it does, as a concrete instance. |
| FlashLaws.AllProgrammedByte | project/STM32F2xx_StdPeriph_Driver/src/stm32f2xx_flash.c:457-599 | After any sequence of programs, overlapping or not, each byte has the bits it had and that no program cleared. |
| FlashLaws.ErasedThenProgrammed | project/STM32F2xx_StdPeriph_Driver/src/stm32f2xx_flash.c:339-599 | In an erased range, programs of pairwise disjoint parts all read back, the rest of the range is 0xFF and the rest of memory is as before. |
| FlashLaws.EraseAndProgram | project/STM32F2xx_StdPeriph_Driver/src/stm32f2xx_flash.c:339-599 | The session of calls: COMPLETE if and only if no error flag was set before and none of the operations, numbered from the first one on, raises a flag; otherwise it stops at the first operation that does. The programs completed until then read back, only the range of the failing one is open, and no other sector changes. |
| CanFrames.PackedFrame | project/STM32F2xx_StdPeriph_Driver/src/stm32f2xx_can.c:601-632 | The mailbox registers hold the frame of the message, for every standard and extended frame, with nothing in the places of an extended identifier if it is a standard one, and TDTR keeps everything but the length, TGT included. |
| CanFrames.LoopBack | project/STM32F2xx_StdPeriph_Driver/src/stm32f2xx_can.c:745-776 | Packing, looping back and unpacking returns identifier type, identifier, RTR, DLC, the eight data bytes and the match index. |
| CanFrames.ReceivedFrame | project/STM32F2xx_StdPeriph_Driver/src/stm32f2xx_can.c:751-776 | What CAN_Receive takes out of a mailbox is the frame in it; IDE and RTR have the values of their constants, and the identifier of the other type stays. |
| CanMailboxes.TickedInv | project/STM32F2xx_StdPeriph_Driver/src/stm32f2xx_can.c:545-568 | Completions at any moment keep the invariant: flags agree with the ledger, every accepted frame is pending, sent or failed and only one of these, and a pending mailbox still holds the frame that was accepted; an empty mailbox stays as it is. |
| CanMailboxes.BoxWrittenInv | project/STM32F2xx_StdPeriph_Driver/src/stm32f2xx_can.c:600-633 | Writing an empty mailbox keeps the invariant; with TXRQ it accepts exactly the frame that the mailbox then holds. |
| CanMailboxes.TsrWrittenInv | project/STM32F2xx_StdPeriph_Driver/src/stm32f2xx_can.c:698-715 | Whatever is written to TSR, with its bits that are cleared by writing 1, the flags stay true of the ledger. |
| CanTransmitDriver.SelectMailbox | project/STM32F2xx_StdPeriph_Driver/src/stm32f2xx_can.c:581-598 | Mailbox 0 if and only if it is empty at the first read; 1 if and only if 0 was pending then and 1 is empty at the second; 2 if and only if 0 and 1 were pending and 2 is empty at the third; none if and only if all were pending. |
| CanTransmitDriver.Transmit | project/STM32F2xx_StdPeriph_Driver/src/stm32f2xx_can.c:572-635 | Takes the first mailbox that is empty at its read, writes it only while empty, raises the request last, and accepts exactly the frame of the message; or accepts nothing, exactly if no mailbox was found. TGT is kept. The other mailboxes keep their registers and the flags of earlier completions, and no mailbox is aborted; a frame in one of them may end, which sets RQCP. |
| CanTransmitDriver.TransmitStatus | project/STM32F2xx_StdPeriph_Driver/src/stm32f2xx_can.c:644-690 | Pending exactly while the mailbox holds a pending frame; Ok only if its last frame was sent. |
| CanTransmitDriver.StatusMeans | project/STM32F2xx_StdPeriph_Driver/src/stm32f2xx_can.c:665-689 | What the four masks of the second switch say about the frame last given to the mailbox. |
| CanTransmitDriver.CancelTransmit | project/STM32F2xx_StdPeriph_Driver/src/stm32f2xx_can.c:698-715 | The exact state after the read-modify-write of TSR, with time passing between read and write, and which answers survive it. |
| CanTransmitDriver.CancelKeepsStatusIff | project/STM32F2xx_StdPeriph_Driver/src/stm32f2xx_can.c:698-715 | Whatever completes between the read and the write, a cancel keeps the answer for a mailbox if and only if it was not Ok at the read: it acknowledges every completion that it reads. |
| CanTransmitDriver.CompletionForgotten | project/STM32F2xx_StdPeriph_Driver/src/stm32f2xx_can.c:698-715 | From reset: a frame goes out through mailbox 1, the answer is Ok, and after a cancel of mailbox 0 it is Failed. |
| CanTransmitDriver.Perform | project/STM32F2xx_StdPeriph_Driver/src/stm32f2xx_can.c:572-715 | Any run of transmit, status and cancel over any course of the bus: each call has its effect on the state and its answer, and every state in between keeps the invariant; accepted frames are those of the messages that were taken, in order; each is in exactly one of pending, sent and failed. |
| CanRuns.AnswerInRun | project/STM32F2xx_StdPeriph_Driver/src/stm32f2xx_can.c:572-715 | In any such run CAN_TransmitStatus answers Pending while the last frame of the mailbox is pending, Ok if and only if that frame was sent and no cancel, of whatever mailbox, has read its completion before, and Failed otherwise. |
| CanRuns.AnswerForMessage | project/STM32F2xx_StdPeriph_Driver/src/stm32f2xx_can.c:572-715 | The same for a message from the CAN_Transmit that took it to a later CAN_TransmitStatus of its mailbox, with no other message for that mailbox between: Ok if and only if its frame was sent and no cancel between the two calls has read that. |
| CanRuns.RunRemembers | project/STM32F2xx_StdPeriph_Driver/src/stm32f2xx_can.c:572-715 | The invariant behind it: RQCP of a mailbox without a pending frame tells exactly whether the completion of its last frame was read by a cancel. |
| CanReceive.Receive | project/STM32F2xx_StdPeriph_Driver/src/stm32f2xx_can.c:745-786 | From a FIFO that is not empty: the first frame, complete and unpacked by fourteen reads during which others may arrive, and exactly that one is released. The exact state that the fifteen accesses leave, from which no other stored frame is lost, except that the last one of a full FIFO may be overwritten if the FIFO is not locked. FULL and FOVR are set afterwards if and only if they came up between the read and the write of RFR. |
| CanReceive.MessagePending | project/STM32F2xx_StdPeriph_Driver/src/stm32f2xx_can.c:817-836 | Zero exactly if no message is stored. |
| CanReceive.FlagKeptIff | project/STM32F2xx_StdPeriph_Driver/src/stm32f2xx_can.c:777-785 | The same from the states of a call: what the write-back leaves of FULL and FOVR, and when. |
| CanReceive.OverrunForgotten | project/STM32F2xx_StdPeriph_Driver/src/stm32f2xx_can.c:777-785 | A call that forgets an overrun, as a concrete instance. |
| CanReceive.ReceiveAll | project/STM32F2xx_StdPeriph_Driver/src/stm32f2xx_can.c:745-786 | Receiving while messages are pending: message i is the first frame of the FIFO in the exact state that i messages before it leave. So the FIFO of the start comes first, in order, then what was stored meanwhile, each frame once, until the FIFO is empty or the count is reached. |
| CanFilters.FilterInit | project/STM32F2xx_StdPeriph_Driver/src/stm32f2xx_can.c:329-413 | The table that the registers stand for, bank n at bit n, changes at one bank, to what the structure is documented to mean; no other bit of the four bit registers changes; words are written only while the bank is inactive and FINIT is set; FINIT is off on return. |
| CanFilters.FilterInits | project/STM32F2xx_StdPeriph_Driver/src/stm32f2xx_can.c:329-413 | After any sequence of calls every bank has its last configuration, and banks that no call names are unchanged. |
| CanFilters.TableAfter | project/STM32F2xx_StdPeriph_Driver/src/stm32f2xx_can.c:346-402 | Four bit registers and the words of one bank, set as the driver sets them, stand for the table with that bank replaced. |
| CanFilters.ExactIdentifier | project/STM32F2xx_StdPeriph_Driver/src/stm32f2xx_can.c:366-378 | A 32-bit mask bank given a packed identifier and a full mask accepts exactly that identifier, type and remote flag. |
| CanFilters.ExactStandardIdentifier | project/STM32F2xx_StdPeriph_Driver/src/stm32f2xx_can.c:347-364 | A 16-bit list bank given a standard identifier accepts exactly that identifier, and no extended frame. |
| CanModes.PollsMeans | project/STM32F2xx_StdPeriph_Driver/src/stm32f2xx_can.c:217-220 | A wait loop reads at most 65535 times past its first read, and stops at the first read that meets its condition. |
| CanModes.TellsAcknowledgeIff | project/STM32F2xx_StdPeriph_Driver/src/stm32f2xx_can.c:217-226 | A wait tells whether the controller acknowledges within 65537 reads if and only if its first acknowledge, when it comes in the loop, is still there at the next read. |
| CanModes.ReachedIff | project/STM32F2xx_StdPeriph_Driver/src/stm32f2xx_can.c:217-226 | In particular if an acknowledge stays once given. |
| CanModes.AcknowledgedAndFailed | project/STM32F2xx_StdPeriph_Driver/src/stm32f2xx_can.c:217-226 | A concrete answer of the controller for which the loop sees the acknowledge and the check does not. |
| CanModeDriver.Init | project/STM32F2xx_StdPeriph_Driver/src/stm32f2xx_can.c:192-320 | Success if and only if both waits end with their acknowledge at the last read; either initialization is not acknowledged and neither options nor timing are touched, or both are as computed and the request is withdrawn. Never sleep and initialization together, and BTR is written in acknowledged initialization only. |
| CanModeDriver.InitSucceeds | project/STM32F2xx_StdPeriph_Driver/src/stm32f2xx_can.c:229-317 | After success BTR decodes to the timing asked for, each option is as asked, no mode is requested, and the rest of MCR is as before. |
| CanModeDriver.TimingDecodes | project/STM32F2xx_StdPeriph_Driver/src/stm32f2xx_can.c:290-294 | The packed timing decodes uniquely, for all admitted values. |
| CanModeDriver.OptionsRead | project/STM32F2xx_StdPeriph_Driver/src/stm32f2xx_can.c:229-287 | The six option bits are those asked for, each at its place, and no other bit changes. |
| CanModeDriver.OperatingModeRequest | project/STM32F2xx_StdPeriph_Driver/src/stm32f2xx_can.c:867-941 | Success if and only if INAK and SLAK at the last read of MSR are those of the mode. Afterwards MCR requests initialization alone, nothing, or sleep alone, with all other bits as before; SLEEP is gone exactly if AWUM is set and the bus woke the controller since the write. Nothing happens for an unknown mode. |
| CanModeDriver.Sleep | project/STM32F2xx_StdPeriph_Driver/src/stm32f2xx_can.c:948-966 | Success if and only if the one read of MSR shows SLAK without INAK. MCR requests sleep alone afterwards, unless AWUM is set and the bus woke the controller at the one access after the write; its other bits stay. |
| CanModeDriver.WakeUp | project/STM32F2xx_StdPeriph_Driver/src/stm32f2xx_can.c:973-996 | Success if and only if the last read shows SLAK clear; SLEEP is withdrawn in any case. |
| CanModeDriver.Perform | project/STM32F2xx_StdPeriph_Driver/src/stm32f2xx_can.c:192-320 | In any run of the four functions each call has its exact effect on MCR and BTR, the mode requested afterwards included; MCR never requests sleep and initialization at once; the calls follow each other access by access; each succeeds if and only if its own last read of MSR, inside the call, shows the acknowledge (and for an initialization the first wait did too); BTR is that of the last acknowledged initialization. |
| Adc.RegularChannelConfig | project/STM32F2xx_StdPeriph_Driver/src/stm32f2xx_adc.c:708-821 | The six registers, read at the places of the fields, stand for a table of 16 channels, 19 sample times, lengths, slots and reserved bits, of which the call changes one channel and one sample time. |
| Adc.Init | project/STM32F2xx_StdPeriph_Driver/src/stm32f2xx_adc.c:276-289 | The call changes the length alone, although ranks 13 to 16 share its register. |
| Adc.InjectedSequencerLengthConfig | project/STM32F2xx_StdPeriph_Driver/src/stm32f2xx_adc.c:1249-1269 | The call changes the injected length alone. |
| Adc.InjectedChannelConfig | project/STM32F2xx_StdPeriph_Driver/src/stm32f2xx_adc.c:1186-1240 | For a rank within the length: that conversion of the injected sequence and one sample time change, and nothing else. For the other ranks that the parameter check admits: no slot changes, and rank length + 1 puts the low bits of the channel into the length. In JSQR exactly the five bits of the computed place change. |
| Adc.LengthKeptIff | project/STM32F2xx_StdPeriph_Driver/src/stm32f2xx_adc.c:1225-1239 | The length survives a configuration if and only if the rank is not length + 1, or the channel has the length field in its low bits. |
| Adc.LengthLost | project/STM32F2xx_StdPeriph_Driver/src/stm32f2xx_adc.c:1225-1239 | With one conversion, rank 2 for channel 3 makes the sequence four long, without channel 3. |
| Adc.NewLength | project/STM32F2xx_StdPeriph_Driver/src/stm32f2xx_adc.c:1249-1269 | A new injected length leaves the last conversions of the old sequence, as many as both have. |
| Adc.InjectedRun | project/STM32F2xx_StdPeriph_Driver/src/stm32f2xx_adc.c:1186-1269 | After setting the length to n, any calls for ranks 1 to n in any order give the sequence of the last channel for each rank; unnamed ranks keep theirs. |
| Adc.Perform | project/STM32F2xx_StdPeriph_Driver/src/stm32f2xx_adc.c:708-821 | Over any run of the four functions, with every rank that the parameter checks admit, the registers stand for what the calls do to the table. |
| Dma.GetFlagStatus | project/STM32F2xx_StdPeriph_Driver/src/stm32f2xx_dma.c:986-1037 | Membership in the set of pending events, for each of the 80 flags of both controllers. |
| Dma.ClearFlag | project/STM32F2xx_StdPeriph_Driver/src/stm32f2xx_dma.c:1053-1084 | Set difference with the events that the word names on that controller; no other register and no other bit changes. |
| Dma.ClearITPendingBit | project/STM32F2xx_StdPeriph_Driver/src/stm32f2xx_dma.c:1234-1265 | The same for interrupt words. |
| Dma.ITConfig | project/STM32F2xx_StdPeriph_Driver/src/stm32f2xx_dma.c:1100-1136 | Switches the interrupts named, of that stream, and no other; every other bit of CR and FCR, the other streams, the status and the transfer registers stay. |
| Dma.GetITStatus | project/STM32F2xx_StdPeriph_Driver/src/stm32f2xx_dma.c:1152-1218 | Pending and enabled, for each interrupt constant used with its own stream. |
| Dma.DeInit | project/STM32F2xx_StdPeriph_Driver/src/stm32f2xx_dma.c:188-298 | Control, FIFO, counter and address registers of the stream have their reset values, its five events are neither pending nor enabled afterwards, and no other stream or event is affected. |
| Dma.NamedByCode | project/STM32F2xx_StdPeriph_Driver/inc/stm32f2xx_dma.h:354-393 | Every flag and every interrupt constant names its own event and no other. |
| Dma.NamedByCombination | project/STM32F2xx_StdPeriph_Driver/src/stm32f2xx_dma.c:1039-1052 | A combination names what its parts name. |
| Dma.ClearFlagAcceptedIff | project/STM32F2xx_StdPeriph_Driver/inc/stm32f2xx_dma.h:395-396 | The parameter check of DMA_ClearFlag refuses two of the forty flag constants, the FIFO and direct mode error of stream 0. |
| Dma.Perform | project/STM32F2xx_StdPeriph_Driver/src/stm32f2xx_dma.c:986-1265 | Under every history of calls and hardware events the registers refine two sets of events and the configuration of the sixteen streams, which only DMA_DeInit changes, and every getter answers from the sets. |
| Exti.DeInit | project/STM32F2xx_StdPeriph_Driver/src/stm32f2xx_exti.c:103-110 | Every line is off and without edges, and exactly the 23 pending bits are cleared. |
| Exti.Init | project/STM32F2xx_StdPeriph_Driver/src/stm32f2xx_exti.c:119-167 | Every line named is as asked and every other line is untouched; the computed address reaches one of the four line sets and never SWIER or PR. |
| Exti.DisabledIff | project/STM32F2xx_StdPeriph_Driver/src/stm32f2xx_exti.c:161-166 | A disabling call turns a line off if and only if it was not on in the other mode. |
| Exti.StillOn | project/STM32F2xx_StdPeriph_Driver/src/stm32f2xx_exti.c:161-166 | A line that is on for interrupts stays on when it is disabled for events. |
| Exti.Session | project/STM32F2xx_StdPeriph_Driver/src/stm32f2xx_exti.c:103-167 | From EXTI_DeInit, after any sequence of calls: no line is in both modes, every line that is on has an edge, each line is as its last enabling call asked, and unnamed lines are off. |

## Left out

- The ciphers themselves, which are in silicon; TDES is the bundle of three DES operations.
- CRYP: lengths that are not whole blocks, key sizes other than 128, 192 and 256 bits, unaligned addresses, and high-level calls while the processor is busy; DMA transfers and interrupts (`CRYP_DMACmd`, `CRYP_ITConfig`, the RISR flags); `CRYP_DeInit` and the structure initialisers.
- CrypContext.InterruptedRun: a save in the middle of a block, as the DMA procedure would allow, is not modelled.
- FLASH: option bytes, caches, latency, interrupts; whether a voltage range suits a parallelism; a bus stall by a store while an operation runs, which the model forbids instead.
- CAN: error counters, interrupts, time-triggered mode, transmit priority and bus arbitration; the second controller's start bank; `CAN_FIFORelease`.
- CanReceive.Receive: with an empty FIFO the message is only what the single reads showed, because a frame may arrive between them.
- Adc.Init: the fields of CR1 and CR2 that `ADC_Init` also sets, and all other ADC functions that change single bits.
- Dma.GetFlagStatus: one flag constant at a time, as the parameter check asks.
- Dma.DeInit: an event raised by the stream while it is being switched off.
- DMA: stream configuration and double buffering.
- EXTI: software interrupts and the pending register getters.
- `assert_param` compiles to nothing; its conditions are preconditions here, except where the code handles the other values as well.
- RCC resets, clocks, GPIO, Ethernet, and the application behind `compress.h`, `agent_udp.h` and `i2c_ee.h`, of which only prototypes exist.
