# STM32F10x drivers: a model and its proofs

The project models the register-level logic of the STM32F10x peripheral drivers, the clock start-up
and the uC/OS-II tick hook. Each register block is a class whose fields are the registers as 32-bit
vectors; each driver function is a method that reads and writes them in the order the C code does.
Beside the registers stands an abstract reading of them: a mailbox that is empty or holds a frame, a
queue of received frames, a filter bank, a rank of a conversion sequence, the mode of a pin. The
contracts say what a call does to that reading, and the lemmas say what any sequence of calls, and in
the CAN and clock parts any interleaving with the hardware, leaves behind.

| file | content |
|---|---|
| `Runs.dfy` | the last call of a run that names a field decides its value |
| `Bits.dfy` | bits and packed fields of a 32-bit register |
| `CanFrame.dfy` | messages, transmit and receive mailboxes, and the frame each holds |
| `CanTxHistory.dfy` | histories of the three transmit mailboxes and what holds of every legal one |
| `CanTransmit.dfy` | transmit, transmit status and cancel, interleaved with the controller |
| `CanFifo.dfy`, `CanReceive.dfy`, `CanReceiveRuns.dfy` | the receive FIFO, its order, receive and pending, and runs of receives |
| `CanModes.dfy` | initialisation and mode requests: two acknowledged handshakes |
| `CanFilters.dfy` | the filter bank table |
| `Adc.dfy`, `AdcRuns.dfy` | regular and injected sequencers, sample times |
| `Gpio.dfy`, `GpioRuns.dfy`, `Remap.dfy` | pin modes, and the remap register |
| `Clock.dfy` | start-up of the clocks and the frequency read-back |
| `Priority.dfy`, `Nvic.dfy`, `Exti.dfy` | priorities, interrupt enabling, external lines |
| `TickHook.dfy` | the timer divider of the tick hook |

## The hardware

The drivers share their registers with hardware, and the theorems rest on these assumptions about it.

- CAN transmit. Before every single register access of the driver the controller may take any number
  of steps (`TxUnit.ControllerRuns`). A step finishes a pending request (TME and RQCP set, TXOK set on
  success, TXRQ and ABRQ cleared), or changes the status bits no mailbox owns, or the time stamp of a
  busy mailbox. Setting TXRQ clears TME, RQCP and TXOK; writing 1 to RQCP clears RQCP and TXOK;
  writing 1 to ABRQ marks a pending request for abortion.
- CAN receive. Before every register access any number of frames may arrive in either FIFO. A FIFO
  holds three; the next one sets the overrun flag and is dropped or replaces the newest frame,
  depending on whether the FIFO is locked. The release bit drops the oldest frame.
- CAN modes. The controller answers through MSR, and the contracts hold for every stream of MSR
  values.
- Clocks. The ready bits are an arbitrary stream. At arbitrary register accesses the clock in use
  becomes the clock selected, and CFGR shows the clock in use. A PLL in use cannot be switched off, nor
  can HSE while it is in use or feeds the PLL in use
  (`FWLIB/STM32F10x_FWLib/src/stm32f10x_rcc.c`, lines 262 and 397). The two waits that have no limit
  (`AwaitPll`, `AwaitSwitch`) need the hardware to answer at some later access; the contracts ask for
  that, and only of streams on which the oscillator is ever read ready.
- NVIC, GPIO and EXTI. Writing 1 sets or clears a bit through ISER, ICER, BSRR and BRR, and clears it
  in the pending register.

## Findings

Where the code and its documentation, or the code and the obvious expectation, disagree, the model
follows the code and the exact condition is proved.

- `CAN_CancelTransmit` or-s its abort bit into TSR, and thereby writes back every completion flag it
  read as set, which clears it. A frame that was sent from another mailbox is then reported as failed
  (`CanTxHistory.CancelHidesSuccess`), also when it was still pending at the call and is sent before
  the cancel reads TSR (`CanTxHistory.CancelHidesLaterSuccess`). Under every interleaving
  with the controller, the cancel leaves the status of a mailbox alone exactly when that is Failed at
  the call (`CanTxHistory.CancelKeepsStatus`).
- `CAN_TransmitStatus` is documented to return Failed in all cases but success. For a pending request,
  and for a number that is no mailbox, it returns Pending.
- `CAN_Receive` on an empty FIFO returns a message put together from the stale mailbox and a frame
  that arrives between its reads, and then drops that frame (`CanFifo.TornWhenEmpty`). It is faithful
  under every interleaving exactly when a message is pending at the call (`CanFifo.FaithfulIffPending`).
- `CAN_Receive` or-s its release bit into RFxR, and thereby wipes out the full and overrun reports that
  its read of RFxR has seen, exactly those (`CanFifo.ReleaseOutcome`). Whatever the FIFO holds at the
  call, an overrun can come before that read and go unseen (`CanFifo.OverrunHidden`).
- `ADC_InjectedChannelConfig` with a rank one above the stored length writes the channel over the
  length field. The length is kept exactly when the rank is another one or the channel's low bits are
  those of the length (`AdcRuns.LengthKeptIff`).
- `EXTI_Init` with DISABLE takes the lines out of the mask of the given mode only. A line enabled in
  the other mode stays enabled (`Exti.DisableIffSameMode`).
- The tick hook divides exactly by the divisors that fit its 16-bit counter and by no others: with 0
  it signals at every tick, with 65536 or more never (`TickHook.ExactIffFits`). The shipped `os_cfg.h`
  switches timers off; the model is of a build with timers on.
- `SystemInit` takes the bus prescalers back before it leaves the PLL. It is safe at every step exactly
  when the PLL is not the clock in use at its first write of CFGR (`Clock.Rcc.SystemInit`); once the
  clock selected is in use, SWS tells (`Clock.Rcc.SettledInUse`). From reset it is safe. A second call,
  as `main` in `APP/app.c` makes after the one in the reset handler, is safe exactly when the first did
  not start the oscillator (`Clock.Rcc.SystemInitAgain`). The note in the code asks for a call after
  reset only. `USER/main.c` has its own call commented out.
- `SystemCoreClockUpdate` multiplies by 17 for the PLL code 0xF, for which the header names no factor
  (`Clock.UnnamedFactor`). It gives the frequency the header's names stand for exactly when the PLL is
  not the clock in use or its code is not 0xF (`Clock.ReadBackIsNamed`).

## Model

| member | source | states |
|---|---|---|
| CanTxHistory.Conservation | FWLIB/STM32F10x_FWLib/src/stm32f10x_can.c:515-578 | in every legal history, for every class of frames, accepted = pending + sent + failed or aborted |
| CanTxHistory.FinishedAsAccepted | FWLIB/STM32F10x_FWLib/src/stm32f10x_can.c:543-578 | whatever the controller sends or gives up was accepted into the same mailbox, and nothing filled or finished that mailbox in between |
| CanTxHistory.NeverOverwritten | FWLIB/STM32F10x_FWLib/src/stm32f10x_can.c:524-542 | between two acceptances into a mailbox the controller has finished the frame of the first |
| CanTxHistory.SlotExplained | FWLIB/STM32F10x_FWLib/src/stm32f10x_can.c:515-578 | the state of a mailbox is determined by the last event that filled or finished it and by the flag clears since |
| CanTxHistory.ControllerKeeps | FWLIB/STM32F10x_FWLib/src/stm32f10x_can.c:543-578 | while only the controller acts, empty mailboxes stay as they are and busy ones keep their frame until finished |
| CanTxHistory.StatusFromHistory | FWLIB/STM32F10x_FWLib/src/stm32f10x_can.c:589-635 | Pending iff a request is outstanding, Ok iff the last request was sent and its flag not cleared since, Failed in all other histories |
| CanTxHistory.CancelOutcome | FWLIB/STM32F10x_FWLib/src/stm32f10x_can.c:651-656 | with any controller steps before and between its read and its write, a cancel turns every success its read saw into a failure and changes no other status |
| CanTxHistory.CancelKeepsStatus | FWLIB/STM32F10x_FWLib/src/stm32f10x_can.c:643-660 | a cancel keeps the status of a mailbox under every interleaving with the controller iff that status is Failed at the call |
| CanTxHistory.CancelAtOnceKeepsStatus | FWLIB/STM32F10x_FWLib/src/stm32f10x_can.c:651-656 | with no controller step around it, a cancel keeps the status iff it was not Ok |
| CanTxHistory.CancelHidesSuccess | FWLIB/STM32F10x_FWLib/src/stm32f10x_can.c:651-656 | a history in which a sent frame is reported as failed after another mailbox is cancelled |
| CanTxHistory.CancelHidesLaterSuccess | FWLIB/STM32F10x_FWLib/src/stm32f10x_can.c:651-656 | a history in which a frame pending at the call is sent before the cancel's read and then reported as failed |
| CanTransmit.TxUnit.Transmit | FWLIB/STM32F10x_FWLib/src/stm32f10x_can.c:515-578 | under every interleaving: a mailbox number means that the last event is that mailbox accepting the caller's frame and that it was empty or has been finished since the call; no mailbox means all three were busy at the call and only the controller acted; no mailbox register is written but those of the mailbox returned, and none without one; lower-numbered mailboxes were busy |
| CanTransmit.TxUnit.SelectMailBox | FWLIB/STM32F10x_FWLib/src/stm32f10x_can.c:524-541 | the mailbox chosen is still empty when the function goes on, and those before it were busy at the call; read from bits 26, 27 and 28 of TSR |
| CanTransmit.TxUnit.SendFrom | FWLIB/STM32F10x_FWLib/src/stm32f10x_can.c:543-576 | the register writes end in the mailbox accepting the frame the message stands for, with only controller steps before |
| CanTransmit.TxUnit.WriteMailBox | FWLIB/STM32F10x_FWLib/src/stm32f10x_can.c:546-573 | a mailbox register may be written only while its mailbox is empty, and no register of another mailbox is written |
| CanTransmit.TxUnit.HeldAsAccepted | FWLIB/STM32F10x_FWLib/src/stm32f10x_can.c:515-578 | the registers of a busy mailbox hold the frame it accepted last |
| CanTransmit.TxUnit.ControllerStep | FWLIB/STM32F10x_FWLib/src/stm32f10x_can.c:1308-1316 | every step of the controller keeps registers and history in agreement, leaves empty mailboxes alone and of the others changes only the request bit and the time stamp |
| CanTransmit.TxUnit.TransmitStatus | FWLIB/STM32F10x_FWLib/src/stm32f10x_can.c:589-635 | the status read from the bits is the one the history prescribes; Pending for a number that is no mailbox; and it is 2, 1 or 0 by bits 0, 1 and 26 of TSR, 8, 9 and 27, or 16, 17 and 28 |
| CanTransmit.TxUnit.CancelTransmit | FWLIB/STM32F10x_FWLib/src/stm32f10x_can.c:643-660 | the write requests the abort of the mailbox, repeats the aborts read, and clears exactly the completion flags read as set, with controller steps before and between; the resulting status of every mailbox, Failed staying Failed; no mailbox register is written, and for another number no register at all; the word written is the word read with bit 7, 15 or 23 |
| CanTransmit.StatusOfBits | FWLIB/STM32F10x_FWLib/src/stm32f10x_can.c:592-634 | the two switches of the function give, for each mailbox, the status its three bits of TSR stand for |
| CanFrame.LoadedFrame | FWLIB/STM32F10x_FWLib/src/stm32f10x_can.c:545-573 | a mailbox loaded as the driver loads it holds the frame of the message: type, identifier, RTR, masked DLC, eight bytes in order |
| CanFrame.DataWords | FWLIB/STM32F10x_FWLib/src/stm32f10x_can.c:565-572 | the two data words give back the eight bytes in order |
| CanFrame.ArrivalKeepsFrame | FWLIB/STM32F10x_FWLib/src/stm32f10x_can.c:677-701 | a receive mailbox filled from a transmit mailbox holds the same frame, whatever filter index and time stamp are added |
| CanFifo.TransmitThenReceive | FWLIB/STM32F10x_FWLib/src/stm32f10x_can.c:677-701 | receiving what was transmitted gives back IDE, RTR, identifier of that type, DLC and data; the other identifier keeps the caller's value |
| CanFifo.ReceivedFrame | FWLIB/STM32F10x_FWLib/src/stm32f10x_can.c:677-701 | the message holds the frame of the mailbox all reads saw, and its filter index |
| CanFifo.InOrder | FWLIB/STM32F10x_FWLib/src/stm32f10x_can.c:671-711 | of the FIFO: for every interleaving of arrivals and releases, the released frames followed by the stored ones are the frames kept, in order |
| CanFifo.OneLostPerOverrun | FWLIB/STM32F10x_FWLib/src/stm32f10x_can.c:671-711 | of the FIFO: frames kept plus overruns equals frames stored at first plus arrivals, and without overruns none is lost |
| CanFifo.NoneLostOrRepeated | FWLIB/STM32F10x_FWLib/src/stm32f10x_can.c:671-711 | of the FIFO: when it starts empty and without overruns the released and the stored frames are exactly the arrivals in order |
| CanFifo.ReleaseOutcome | FWLIB/STM32F10x_FWLib/src/stm32f10x_can.c:703-711 | a release clears exactly the full and overrun flags its read has seen, and keeps those set between its read and its write |
| CanFifo.OverrunHidden | FWLIB/STM32F10x_FWLib/src/stm32f10x_can.c:703-711 | from every state of the FIFO there are arrivals after which a release wipes out an overrun |
| CanFifo.FaithfulWhenPending | FWLIB/STM32F10x_FWLib/src/stm32f10x_can.c:677-711 | with a frame pending at the call, the thirteen reads all see that frame however many arrive meanwhile, and the release drops it |
| CanFifo.FaithfulIffPending | FWLIB/STM32F10x_FWLib/src/stm32f10x_can.c:671-711 | a receive returns the frame it drops, under all interleavings, iff the FIFO holds one at the call |
| CanFifo.TornWhenEmpty | FWLIB/STM32F10x_FWLib/src/stm32f10x_can.c:677-711 | for every empty FIFO and every arriving frame, an interleaving that returns a stale header with the new data while the new frame is the one dropped |
| CanReceive.RxUnit.Receive | FWLIB/STM32F10x_FWLib/src/stm32f10x_can.c:671-711 | one release at the end, the other FIFO only grows; with a message pending, that message is returned and it is the one taken; of the full and overrun flags exactly those seen by the read of RFxR are wiped out; the word written to RFxR is the word read with bit 5 |
| CanReceive.RxUnit.MessagePending | FWLIB/STM32F10x_FWLib/src/stm32f10x_can.c:743-762 | the number of frames stored at the read; 0 for a number that is no FIFO |
| CanReceive.Received | FWLIB/STM32F10x_FWLib/src/stm32f10x_can.c:671-711 | reads and a release, with arrivals anywhere between, amount to one receive |
| CanReceive.PendingReceived | FWLIB/STM32F10x_FWLib/src/stm32f10x_can.c:671-711 | a receive with a message pending returns that message and takes exactly that frame |
| CanReceiveRuns.PendingCallReturnsNext | FWLIB/STM32F10x_FWLib/src/stm32f10x_can.c:671-711 | in any run of receives, with arrivals anywhere, a call with a message pending returns the message of the frame that leaves the FIFO next, whatever the other calls met |
| CanReceiveRuns.ReturnedInOrder | FWLIB/STM32F10x_FWLib/src/stm32f10x_can.c:671-711 | when every call of a run has a message pending, call i returns the message of the i-th frame taken, and as many frames are taken as calls made |
| CanReceiveRuns.ReturnedAsArrived | FWLIB/STM32F10x_FWLib/src/stm32f10x_can.c:671-711 | and without overruns call i returns the i-th frame to arrive, none lost or repeated, and the frames not yet returned are those stored |
| CanModes.ModeUnit.Init | FWLIB/STM32F10x_FWLib/src/stm32f10x_can.c:154-282 | for every stream of MSR values: at most 131074 reads; BTR and options written only after INAK was read set; a refused entry changes neither; BTR decodes to the requested timing; Success iff the last read shows INAK clear; waits, decisions, option bits and timing fields are stated by their positions in MSR, MCR and BTR, and the request is written before the wait it belongs to |
| CanModes.ModeUnit.Enter | FWLIB/STM32F10x_FWLib/src/stm32f10x_can.c:172-186 | asks for initialisation, configures nothing, and reports entry iff its last read shows INAK |
| CanModes.ModeUnit.Leave | FWLIB/STM32F10x_FWLib/src/stm32f10x_can.c:258-277 | withdraws the request, keeps the options, and reports Success iff its last read shows INAK clear; it waits while bit 0 of MSR is set, at most 65536 reads |
| CanModes.ModeUnit.Wait | FWLIB/STM32F10x_FWLib/src/stm32f10x_can.c:178-183 | ends at the first read that satisfies the condition or after the limit, and does nothing but read |
| CanModes.GuardedRun | FWLIB/STM32F10x_FWLib/src/stm32f10x_can.c:172-277 | a run that configures only between an acknowledged read and the next read configures under acknowledgement throughout |
| CanModes.WaitEnd | FWLIB/STM32F10x_FWLib/src/stm32f10x_can.c:178-183 | no earlier read satisfies the condition, and the last one does unless the limit is reached |
| CanModes.TimingRoundTrip | FWLIB/STM32F10x_FWLib/src/stm32f10x_can.c:251-256 | mode, SJW, BS1, BS2 and prescaler can be read back from the word written, for all parameters in range |
| CanModes.ModeUnit.OperatingModeRequest | FWLIB/STM32F10x_FWLib/src/stm32f10x_can.c:774-848 | at most 65537 reads; INRQ and SLEEP end as the pair of the mode with all other bits kept; Success iff the last read shows the mode; nothing happens for another mode number; the modes read as 1, 0 and 2 in the low bits of MSR, and no read of the wait before its last shows the mode |
| CanFilters.FilterUnit.Init | FWLIB/STM32F10x_FWLib/src/stm32f10x_can.c:292-376 | the bank named decodes to the call's scale, mode, FIFO, activation and words; the other 27 decode as before; FINIT is clear afterwards and nothing else of FMR changes; in the registers, bit n of the four bit-per-bank registers and the halves of the two words of bank n |
| CanFilters.FilterUnit.WriteWords | FWLIB/STM32F10x_FWLib/src/stm32f10x_can.c:304-340 | the words of a bank may be written only with FINIT set and the bank inactive |
| CanFilters.BankConfigured | FWLIB/STM32F10x_FWLib/src/stm32f10x_can.c:292-376 | one bit in each of four registers and two words make up one bank and touch no other, in both scales |
| CanFilters.BankAfterRun | FWLIB/STM32F10x_FWLib/src/stm32f10x_can.c:292-376 | after any sequence of calls each bank decodes to the last call naming it |
| Adc.AdcUnit.Init | FWLIB/STM32F10x_FWLib/src/stm32f10x_adc.c:257-267 | sets the regular length; every rank, slot, sample time and spare bit keeps its value |
| Adc.AdcUnit.RegularChannelConfig | FWLIB/STM32F10x_FWLib/src/stm32f10x_adc.c:590-677 | the rank named converts the channel, the channel has the sample time; every other rank and channel, both lengths and the spare bits keep their values |
| Adc.AdcUnit.InjectedChannelConfig | FWLIB/STM32F10x_FWLib/src/stm32f10x_adc.c:930-984 | within the stored length the right-aligned slot of the rank is set and nothing else but the sample time changes; beyond it, exactly which word is written, and that no rank, slot or other sample time changes; bit by bit, the five bits from five times the position on are those of the channel |
| Adc.AdcUnit.InjectedSequencerLengthConfig | FWLIB/STM32F10x_FWLib/src/stm32f10x_adc.c:993-1010 | sets the injected length and keeps the four slots and everything else |
| Adc.RankPart | FWLIB/STM32F10x_FWLib/src/stm32f10x_adc.c:622-677 | replacing a rank's slot, in whichever of the three registers, changes that rank alone |
| Adc.SlotPart | FWLIB/STM32F10x_FWLib/src/stm32f10x_adc.c:970-983 | replacing an injected slot keeps the other slots and the length beside them |
| Adc.BeyondPart | FWLIB/STM32F10x_FWLib/src/stm32f10x_adc.c:970-983 | a position beyond the slots changes no slot, and the length only at the position next to them |
| AdcRuns.StepIsDeterministic | FWLIB/STM32F10x_FWLib/src/stm32f10x_adc.c:590-677 | the contract of a call fixes all six registers bit for bit |
| AdcRuns.RankAfterRun | FWLIB/STM32F10x_FWLib/src/stm32f10x_adc.c:622-677 | after any sequence of calls each regular rank is the channel of the last call naming it |
| AdcRuns.SampleTimeAfterRun | FWLIB/STM32F10x_FWLib/src/stm32f10x_adc.c:598-620 | each channel has the sample time of the last regular or injected call naming it |
| AdcRuns.LengthAfterRun | FWLIB/STM32F10x_FWLib/src/stm32f10x_adc.c:257-267 | the regular length is that of the last ADC_Init, whatever ranks were configured between |
| AdcRuns.InjectedLengthAfterRun | FWLIB/STM32F10x_FWLib/src/stm32f10x_adc.c:993-1010 | the injected length is that of the last call setting it, in every run that names no rank one above the length stored |
| AdcRuns.InjectedRankAfterRun | FWLIB/STM32F10x_FWLib/src/stm32f10x_adc.c:970-983 | with the length fixed, configuring the ranks in any order yields the requested list |
| AdcRuns.LengthChangeShiftsRanks | FWLIB/STM32F10x_FWLib/src/stm32f10x_adc.c:993-1010 | changing the length from n to m turns rank r into rank r + m - n |
| AdcRuns.LengthKeptIff | FWLIB/STM32F10x_FWLib/src/stm32f10x_adc.c:970-983 | configuring an injected rank keeps the stored length iff the rank is not one above it or the channel's two low bits are those of the length |
| AdcRuns.LengthKeptIffNotNext | FWLIB/STM32F10x_FWLib/src/stm32f10x_adc.c:970-983 | configuring a rank keeps the stored length, for every channel and sample time, iff the rank is not one above it |
| Gpio.Port.Init | FWLIB/STM32F10x_FWLib/src/stm32f10x_gpio.c:173-258 | each named pin gets the call's nibble and, for a pull mode, its data bit; every other pin keeps both; the nibble is that of a table of kinds, apart from the codes the driver computes it from |
| Gpio.Port.PackPins | FWLIB/STM32F10x_FWLib/src/stm32f10x_gpio.c:196-257 | one packing loop sets exactly the nibbles of the named pins of its half and drives exactly their data bits |
| GpioRuns.NibbleAfterRun | FWLIB/STM32F10x_FWLib/src/stm32f10x_gpio.c:183-258 | after any sequence of calls each pin has the nibble of the last call whose mask named it |
| GpioRuns.DataBitAfterRun | FWLIB/STM32F10x_FWLib/src/stm32f10x_gpio.c:208-222 | each data bit is that of the last pull-up or pull-down call naming the pin |
| GpioRuns.ModeRecovered | FWLIB/STM32F10x_FWLib/src/stm32f10x_gpio.c:183-258 | mode, and speed of outputs, can be read back from nibble and data bit |
| GpioRuns.ModeAfterRun | FWLIB/STM32F10x_FWLib/src/stm32f10x_gpio.c:183-258 | after any sequence of calls a pin reads back as the mode and speed of the last call naming it |
| GpioRuns.PinsDetermine | FWLIB/STM32F10x_FWLib/src/stm32f10x_gpio.c:183-258 | nibbles and data bits are all there is to CRL, CRH and ODR |
| GpioRuns.DisjointCallsCommute | FWLIB/STM32F10x_FWLib/src/stm32f10x_gpio.c:173-258 | two calls with disjoint masks give the same registers in either order |
| Remap.Afio.PinRemapConfig | FWLIB/STM32F10x_FWLib/src/stm32f10x_gpio.c:549-599 | outside the debug-port bits, the field of the code takes the code's value or zero and all other bits stay, in all three formats; each format is also stated on the register itself, bits 27:24 included: low codes name their own bits, pair codes the two bits from their position on, high codes their lower half in the upper half-word |
| Remap.CodeSays | FWLIB/STM32F10x_FWLib/src/stm32f10x_gpio.c:567-588 | for every code the branch taken sets the field and the value that its format stands for |
| Remap.DebugPortFollows | FWLIB/STM32F10x_FWLib/src/stm32f10x_gpio.c:567-588 | an SWJ code gives bits 27:24 its value, every other code sets all four |
| Remap.FieldsApart | FWLIB/STM32F10x_FWLib/inc/stm32f10x_gpio.h:172-203 | two codes name the same field or disjoint ones |
| Remap.FieldStep | FWLIB/STM32F10x_FWLib/src/stm32f10x_gpio.c:549-599 | a call sets its own field and no field of another code |
| Remap.FieldAfterRun | FWLIB/STM32F10x_FWLib/src/stm32f10x_gpio.c:549-599 | after any sequence of calls each field holds the value of the last call naming it, zero if that disabled it |
| Clock.Rcc.SystemInit | USER/system_stm32f10x.c:212-262 | with every state so far safe, every state on the way is safe iff the PLL is not the clock in use at the first write of CFGR; safe: while the PLL is selected or in use there are two wait states, APB1 is halved, the PLL is on and has been read as ready, and its source and factor change only while it is off. In that case the core ends on the PLL at nine times HSE, or with HSI selected and the PLL off, as the last oscillator read decides, with every setting and oscillator switch determined; CFGR ends as 0x001D0402 or zero but for reserved bits, and started runs end after a read of CR that shows bit 25 |
| Clock.Rcc.SystemInitAgain | APP/app.c:102 | from reset, a second SystemInit is safe iff the first did not start the oscillator |
| Clock.ResetSafeIff | USER/system_stm32f10x.c:219 | taking back the settings of CFGR is safe, in any state, iff the PLL is not in use |
| Clock.Rcc.SetSysClockTo72 | USER/system_stm32f10x.c:987-1080 | once the clocks are reset every state of the bring-up is as safe as those before, and it ends on the PLL or, when the oscillator fails, with flash latency and prescalers untouched; the oscillator wait is at most the limit long |
| Clock.Rcc.PollHse | USER/system_stm32f10x.c:996-1000 | between 1 and the limit of reads, none but the last showing ready, and fewer than the limit only when the last shows ready; ready is bit 17 of CR, the limit 1280 |
| Clock.Rcc.StartPll | USER/system_stm32f10x.c:1059-1065 | ends with the PLL on and read as ready since; the last read of CR shows bit 25 |
| Clock.Rcc.WriteCfgr | USER/system_stm32f10x.c:1022-1069 | after a write of CFGR the states are all safe iff they were before, the new one is, and the PLL settings did not change under a running PLL |
| Clock.Rcc.ResetClocks | USER/system_stm32f10x.c:214-243 | all settings end as zero; with the PLL not in use at the first write of CFGR, the PLL ends off, no oscillator but HSI and a HSE in use is on, and every state on the way is as safe as those before; with the PLL in use some state on the way is not |
| Clock.Rcc.SystemCoreClockUpdate | USER/system_stm32f10x.c:306-412 | for every CFGR and clock in use the result is determined, no product leaves 32 bits, and it is the frequency the header's names give for source, input halving, factor and AHB divisor iff the PLL is not in use or its code is not 0xF |
| Clock.ReadBackIsNamed | USER/system_stm32f10x.c:331-386 | the code's factor and the header's table give the same frequency iff the PLL is not in use or its code is not 0xF |
| Clock.ReadBackOnWord | USER/system_stm32f10x.c:331-386 | on the CFGR word: bit 16 clear gives half of HSI, set gives HSE, or half of it with bit 17; bits 21:18 and 7:4 give factor and divisor |
| Clock.UnnamedFactor | USER/system_stm32f10x.c:334-338 | at code 0xF the read-back multiplies by 17, a factor no code is named for |
| Clock.TableMatchesDivisors | USER/system_stm32f10x.c:167 | shifting by the table entry divides by the divisor the header names for the prescaler code |
| Clock.Rcc.StartAndReadBack | USER/system_stm32f10x.c:1054-1056 | a read-back after start-up gives nine times the oscillator when it started, the PLL not having been in use before, and HSI when it did not, from reset |
| Priority.DecodeEncode | CORE/core_cm3.h:1634-1676 | decoding undoes encoding up to the field widths, for all groups and 32-bit values |
| Priority.EncodeDecode | CORE/core_cm3.h:1634-1676 | encoding undoes decoding on the four implemented bits |
| Priority.BitsByGroup | CORE/core_cm3.h:1634-1640 | groups 0 to 3 have four pre-emption bits and no sub-priority bits, and each later group moves one over |
| Priority.EncodedByGroup | CORE/core_cm3.h:1634-1647 | where the two priorities lie in the encoding, group by group |
| Priority.EncodeKeepsOrder | CORE/core_cm3.h:1634-1647 | on in-range values the encoding orders as pre-emption, then sub-priority |
| Priority.EncodersAgree | FWLIB/STM32F10x_FWLib/src/misc.c:121-132 | for groups 3 to 7 and all bytes the byte NVIC_Init stores is the one NVIC_SetPriority stores for the encoded priority, too wide pre-emption values included |
| Priority.InitThenDecode | FWLIB/STM32F10x_FWLib/src/misc.c:121-132 | the priorities given to NVIC_Init can be decoded from the stored byte, up to the field widths |
| Priority.InitKeepsOrder | FWLIB/STM32F10x_FWLib/src/misc.c:121-132 | the stored bytes order as pre-emption, then sub-priority |
| Nvic.NvicUnit.PriorityGroupConfig | FWLIB/STM32F10x_FWLib/src/misc.c:96-103 | AIRCR shows the group, and NVIC_Init may enable |
| Nvic.NvicUnit.Init | FWLIB/STM32F10x_FWLib/src/misc.c:112-144 | exactly the named interrupt is switched; an enabling call stores the encoded priority in its byte alone, a disabling one keeps all bytes; in the enable words, bit n mod 32 of word n div 32 and no other |
| Nvic.NvicUnit.EnableIrq | CORE/core_cm3.h:1502-1505 | exactly the named interrupt becomes enabled; bit n mod 32 of word n div 32 |
| Nvic.NvicUnit.DisableIrq | CORE/core_cm3.h:1515-1518 | exactly the named interrupt becomes disabled; bit n mod 32 of word n div 32 |
| Nvic.NvicUnit.SetPriority | CORE/core_cm3.h:1586-1592 | one byte changes, of IP for interrupts and of SHP for core exceptions, the index derived from the negative number included; its upper four bits are the low four of the priority |
| Nvic.EnabledAfterRun | FWLIB/STM32F10x_FWLib/src/misc.c:112-144 | after any sequence of calls an interrupt is enabled as the last call naming it said |
| Nvic.PriorityAfterRun | FWLIB/STM32F10x_FWLib/src/misc.c:119-135 | after any sequence of calls, under changing groups, the priority byte of an interrupt is that of the last call enabling it |
| Exti.ExtiUnit.DeInit | FWLIB/STM32F10x_FWLib/src/stm32f10x_exti.c:85-92 | every line is off in all four registers, and lines 0 to 19 are not pending |
| Exti.ExtiUnit.Init | FWLIB/STM32F10x_FWLib/src/stm32f10x_exti.c:101-149 | an enabling call gives the named lines exactly the mode and edges asked for, a disabling one takes them out of that mode's mask alone; other lines keep all four bits |
| Exti.AlwaysSound | FWLIB/STM32F10x_FWLib/src/stm32f10x_exti.c:85-149 | in every state after EXTI_DeInit no line is in both masks, and every line in one has an edge |
| Exti.MaskedIffEnabled | FWLIB/STM32F10x_FWLib/src/stm32f10x_exti.c:101-149 | a line is in a mask iff some call put it there and none since took it out, and its edges are then those of that call |
| Exti.DisableIffSameMode | FWLIB/STM32F10x_FWLib/src/stm32f10x_exti.c:142-148 | a disabling call leaves a line in no mask iff the line was not in the mask of the other mode |
| TickHook.Hook.InitHookBegin | UCOSII/PORT/os_cpu_c.c:52-57 | the counter is that of zero ticks |
| TickHook.Hook.TimeTickHook | UCOSII/PORT/os_cpu_c.c:283-296 | for divisors 1 to 65535 the counter is ticks mod n, the signals are ticks div n, and it signals at the multiples of n |
| TickHook.DividesExactly | UCOSII/PORT/os_cpu_c.c:283-296 | after any k ticks the counter is k mod n and floor(k / n) signals were sent |
| TickHook.ZeroSignalsAlways | UCOSII/PORT/os_cpu_c.c:289-294 | with divisor 0 every tick signals |
| TickHook.WideNeverSignals | UCOSII/PORT/os_cpu_c.c:289-294 | with a divisor beyond 16 bits the counter wraps and no tick signals |
| TickHook.ExactIffFits | UCOSII/PORT/os_cpu_c.c:289-294 | a positive divisor is met exactly, at all times, iff it fits 16 bits |

## Left out

- CanTransmit.TxUnit.Transmit: the message structure is passed as a value; the DLC that the code masks in place is returned as the message `masked`.
- CanTransmit.TxUnit.ControllerStep: the order in which the controller sends pending mailboxes, and when, is left open.
- CanModes.ModeUnit.Init: MCR changes only by the driver; a controller that wakes up by itself and clears SLEEP is not modelled.
- Remap.Afio.PinRemapConfig: codes with bit 31 set, whose shift is undefined in C. What bits 27:24 hold is stated call by call and not over runs, since every code overwrites them.
- Nvic.NvicUnit.Init: an enabling call asks for a group NVIC_PriorityGroupConfig has set; with a smaller PRIGROUP the shift counts wrap around.
- Clock.Rcc.SystemInit: the vector table register and the external memory set-up; only SystemCoreClockUpdate writes the core clock variable, as in the code. Nothing is promised of the end state when the PLL is in use at the first write of CFGR, since the sources leave open what changing the settings of a running PLL does.
- Clock.Rcc.StartAndReadBack: for the same reason promises a frequency only when the PLL was not in use.
- Clock.Rcc.ResetClocks: promises that the PLL is off only when it was not in use, and that HSE is off only when it is not in use.
- Clock.Rcc.SystemCoreClockUpdate: frequencies whose product with 17 leaves 32 bits are excluded.
- The four groups of CAN registers are four classes, since no driver function touches two of them.
- CR1 and CR2 in ADC_Init, and the second CAN and the other ADCs and ports, which are further instances.
- The clock configurations for connectivity and value lines and for other target frequencies.
- Repeated read-mask-write steps (ADC slots, the read-modify-writes of the clock registers, option bits of MCR) are methods of their own that the driver methods call.
- CAN_FIFORelease, CAN_Sleep, CAN_WakeUp, the interrupt and flag functions, DMA, DAC, BKP, PWR, FSMC, watchdogs, I2C, SPI, USART, timers: single writes or finite tables.
- OSTaskStkInit, whose frame is popped by assembly code, the uC/OS-II kernel, lwIP, and the board and display code.
- Real time, electrical behaviour, and arbitration on the bus.
