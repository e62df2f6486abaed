# CC2520 driver: the transmit and receive stack

This project models the packet path of the CC2520 Linux driver and proves what it guarantees: the
layers interface, unique, lpl, csma, sack and radio as wired in `module.c`, run concurrently by write
calls, three timers, a work queue, SPI completions, SFD and FIFOP interrupts, and configuration
threads; and two such drivers joined by a channel that loses frames.

## How it is laid out

| file | content |
|---|---|
| `Bytes.dfy` | bytes, buffers, `memcpy`, little-endian numbers, one-shot timers; `Bags`, the pending activities |
| `Packet.dfy` | header tests, ACK construction, source address extraction, and an independent header encoder |
| `Lpl.dfy`, `Csma.dfy`, `Sack.dfy`, `Radio.dfy`, `Interface.dfy` | each layer twice: its critical sections as functions on its variables, and a class whose methods change the fields in place and are proved equal to those functions |
| `Spi.dfy` | a small model of the chip that decodes SPI transfers, and the transfers the driver builds |
| `Unique.dfy` | the linked-list duplicate filter, and the map it stands for |
| `Stack.dfy` | the composed driver: `State`, `Step`, `Enabled`, `Apply`, `Init`, `IsRun`, and the event log |
| `StackInv.dfy`, `StackSteps.dfy` | the invariant of the composed driver; one preservation lemma for each kind of step |
| `Token.dfy` | the route of a frame as a machine of its own (`Where`, `Hop`), followed by every step |
| `Theorems.dfy`, `Rendezvous.dfy`, `Ownership.dfy`, `Termination.dfy` | what every run guarantees |
| `Outcome.dfy`, `Retransmission.dfy`, `Attempts.dfy`, `WindowTimer.dfy`, `Completions.dfy`, `Progress.dfy` | how an attempt ends and what its write returns; when it is repeated; what CSMA samples and waits; whose window timer it is; what a radio completion completes; that every write can complete and every configuration thread get the radio |
| `Reception.dfy` | which received frames go up, the filter over runs, and the double flush |
| `Paths.dfy`, `Results.dfy` | the legs witness runs are made of; exactly which results a write can return |
| `Network.dfy`, `NodeSteps.dfy`, `EndToEnd.dfy`, `Sessions.dfy`, `Delivery.dfy` | two drivers and the air: the session of one write, its invariant, the delivery theorems, two sessions that show what their hypotheses are for, and the way of a frame up to B's filter |
| `Streams.dfy` | any number of writes: what goes up, in which order, how often |

A step of `Stack` is one critical section, or the straight-line code between two. Code that follows
an unlock or the return of a callback is a pending activity in a list, any entry of which may move
next, so every interleaving is a run. The two spin-waits (`sack.c:134-137`, `radio.c:98-107`) are
guarded steps of a pending call; the gap between "idle" and `hrtimer_cancel` is a state of its own
(`SackAcked`, `LplAcked`). A fired timer is first `running` and then takes its lock. SPI completions,
SFD edges (spurious ones included), channel samples, underflow, FIFO level, allocation failure and the
contents of received frames are free choices of the environment.

Handing the frame down and starting the window timer (`lpl.c:94-95`) are two steps, so a completion may
come before the timer is started; the write itself cannot return between the two, because its own
thread is the one that starts the timer.

## What was found

- MANUAL.md:279-281 says BUSY bubbles up to the write call. It does if and only if low power listening is
  off: `ResultsExactly` says, for every frame and every setting, exactly which results have a run, and
  `VerdictReturned` that without low power listening every give-up of CSMA is what the write returns.
  With it on, a give-up is retried until the window expires, and then becomes FAILED or, for a frame that
  asks for no ACK, success.
- So a write can report success though its frame was never handed to the radio. `SuccessMeans` proves that
  the exact bytes were laid out during the write if the frame asks for an ACK, or low power listening is
  off, or CSMA is off. `SilentSuccess` gives, for every frame that asks for no ACK, a run with both on in
  which the write returns its length and nothing was laid out. So the condition is exact.
- MANUAL.md:128-131 says a failed write returns a negative value. A failed write does if and only if it
  failed before it passed its frame down (`interface.c:120`, `interface.c:125`, `interface.c:155`; the
  contracts of `Interface.Layer.TryBegin`, `Begin` and `Copy`). After that the status is an unsigned byte
  (`interface.c:72`, `interface.c:151`): a failure is 252, 253 or 255, each with its exact condition and a
  run in `ResultsExactly`; success is the length, at most 127.
- Without low power listening a frame that asks for an ACK never fails with FAILED: a radio underflow is
  not reported for it, and the ACK wait decides (`sack.c:149-153`).
- The window timer can outlive its session. `lpl.c:94-95` starts it after handing the frame down, so an ACK
  may come first; the timer then runs on into the next write and can close its window before the frame is
  passed down (`StaleWindow`). A writer can tell beforehand: `TimerBelongsToSession` shows that this can
  happen if and only if low power listening is on and the frame written asks for an ACK, and `TimerOnTime`
  that it never does in a run without such a write.
- ACKs carry no address. `AckRecognised` shows that an ACK for any frame matches every frame with that
  sequence number, and `QuietNeeded` a session in which a third node's ACK makes the write succeed while B
  got nothing. So `ExactlyOnce` needs third nodes to be quiet about the number; `AtMostOnce` does not.
- The address key ignores PAN and width: a short and an extended address of equal value share an entry of
  the duplicate filter, so the second of two frames with one number, from two nodes, is dropped
  (`SharedEntry`; `SrcRoundTrip` states the key exactly).

## Model

| member | source | states |
|---|---|---|
| EndToEnd.AtMostOnce | lpl.c:110-143 | However often A retransmits one write's frame, whatever the channel loses and however steps of both drivers interleave, B's duplicate filter hands the frame up at most once. |
| EndToEnd.ExactlyOnce | sack.c:188-222 | If the write of an ack-requesting frame returns its length and third nodes are quiet, then from its return on B has handed the frame up exactly once, or B's receive chain holds it past the ACK. |
| EndToEnd.CopyGoesUp | unique.c:68-101 | A copy of the frame that reaches B's filter leaves it handed up exactly once: by this step or by an earlier one. |
| EndToEnd.DeliveredIntact | unique.c:100-101 | What B hands up under the write's source and number starts with the written frame, byte for byte. |
| Delivery.SuccessIsDelivered | sack.c:204-212 | After a successful return of an ack-requesting write, third nodes being quiet, from every later state at most 21 steps of B's own lead to the one hand-up. |
| Delivery.HandsUpNext | sack.c:204-212 | A frame that B's chain holds past its ACK goes up: at most 21 steps of B's own lead there, whatever the radio or a configuration thread is doing. |
| Streams.InOrder | unique.c:68-101 | Over any number of writes at A, retransmissions and losses, what B hands up under A's key is a subsequence of A's writes, in order, each at most once and byte for byte, for any sequence numbers and whatever A receives. |
| Streams.MoveInv | unique.c:68-101 | Every step of either node, and every loss, keeps the order of what is written, in flight, held, examined and handed up. |
| Streams.WritesStarted | interface.c:144 | The writes of the stream are the frames A's log says were started. |
| Streams.HandoversLogged | unique.c:100-101 | What goes up in the stream is what B's log says its filter kept under A's key. |
| Streams.FreshStart | module.c:37-49 | Two freshly loaded drivers satisfy the hypotheses of the stream theorem, for any key. |
| Delivery.PlainGoesUp | sack.c:218-221 | A frame of the write that asks for no ACK goes up from wherever B's receive chain holds it: at most four steps of B's own, two from soft-ACK's decision, lead to the hand-up. |
| Sessions.PlainDelivers | sack.c:218-221 | For every proper frame that asks for no ACK and all settings there is a session in which it is handed up and B sends nothing. |
| Reception.PassedOnExactly | sack.c:188-222 | In every run soft-ACK passes a frame on if and only if it is no ACK and, should it ask for one, soft-ACK is idle; behind an ACK of its own if and only if it asks for one; any other frame is dropped. |
| Reception.WantedGoesUp | sack.c:203-221 | Every such frame reaches the filter: at most 22 steps of the driver's own lead there, whatever the radio or a configuration thread is doing. |
| Reception.FilterOverRuns | unique.c:68-101 | In every run the filter updates the map of last numbers, memory permitting, and lets a frame up if and only if the map does not hold its number for its source. |
| Reception.FlushedTwice | radio.c:642-732 | In every run a chain that finds more in the RX FIFO, or an over-long length byte, opens the receive gate only after exactly two flushes of its own, any other chain without any; while the gate is closed a FIFOP does nothing. |
| Sessions.SuccessDelivers | sack.c:188-222 | For every proper ack-requesting frame and all settings of both nodes there is a session in which the write returns its length while B holds the frame past its ACK, and B then hands it up. |
| Sessions.QuietNeeded | packet.c:32-42 | For every such frame there is a session in which a third node's ACK makes the write return its length while B is as freshly loaded as before. |
| EndToEnd.FreshStart | module.c:37-49 | Two freshly loaded drivers, one of which has just taken the write lock, satisfy the hypotheses of the session theorems. |
| EndToEnd.MoveInv | lpl.c:110-152 | Every step of either node, and every loss, keeps the session invariant: what is in flight, what each receive chain holds, and that an ACK for the frame exists only once B has the frame. |
| NodeSteps.HeardFromChain | sack.c:189-197 | An ACK wait is ended as successful only by an ACK with that number which the receive chain holds at that moment. |
| NodeSteps.SendsFrameOrAck | radio.c:434-435 | What a node puts on the air is an ACK or the frame of its current write. |
| StackSteps.StepPreserves | module.c:37-49 | Every step of the composed driver keeps the global invariant and moves the frame along its route or leaves it where it is. |
| StackSteps.RunInv | module.c:37-49 | The global invariant holds in every state of every run. |
| Theorems.TokenConservation | interface.c:144-151 | In every reachable state one write at most is under way, exactly one of pending call, backoff timer, work item, transmission, ACK wait and completion semaphore carries its frame, and soft-ACK is in TX or TX_ACK exactly when one transmission is outstanding below it. |
| Theorems.OneReportPerCall | lpl.c:83-152 | At each of three layer boundaries, over every run, accepted `tx` calls exceed `tx_done` calls by one while the frame is below the boundary and equal them otherwise. |
| Theorems.SuccessMeans | lpl.c:114-136 | A write that returns its length for an ack-requesting frame saw an ACK with its number end an ACK wait between its start and its return; its bytes were laid out for the radio in that time unless both LPL and CSMA are on and no ACK is asked for. |
| Theorems.ResultsPossible | interface.c:151 | No result of a write that has passed its frame down is negative; it is the length, or FAILED, ACK timeout or BUSY, each only under the settings and for the frames that allow it; a result beyond 127 is a failure. |
| Results.ResultsExactly | interface.c:151 | For all settings, every frame and every number: some run of a write returns it if and only if it is the length, FAILED with (LPL on if and only if an ACK is requested), a timeout with LPL off and an ACK requested, or BUSY with LPL off and CSMA on. |
| Results.SilentSuccess | lpl.c:132-136 | For every frame that asks for no ACK there is a run with LPL and CSMA on in which its write returns its length and nothing was laid out. |
| Retransmission.RepeatsExactly | lpl.c:110-143 | In every run with LPL on, a reported attempt is repeated, with the same frame, if and only if the window is open and no ACK of a frame that asks for one came. |
| Retransmission.WindowKept | lpl.c:110-143 | With LPL on, a write that returns has its ACK or its window has expired since it began: none gives up, and no unacknowledged one succeeds, before that. |
| Outcome.VerdictReturned | lpl.c:110-147 | Without LPL, and for the ACK of a frame that requests one under any setting, the status an attempt ends with is what its write returns, in every run and whatever comes between. |
| Outcome.ReturnsVerdict | interface.c:70-74 | Without LPL every return is the verdict of its own attempt: BUSY if and only if CSMA gave up, a timeout if and only if the ACK wait ran out, FAILED if and only if the radio reported an underflow of a frame that waits for no ACK. |
| Theorems.FrameIntegrity | radio.c:434-435 | Everything laid out for the TX FIFO is, in bytes and length, the frame of the write under way or the ACK of the frame received last, on every retransmission. |
| Theorems.AckBeforeDelivery | sack.c:204-212 | What goes up is the frame received last; if it requests an ACK, one built for it was handed to the radio after its reception and before it went up, so every copy of a retransmitted frame gets its own. |
| Theorems.BusyUnreachable | sack.c:148-167 | LPL busy, CSMA busy, soft-ACK's `tx_done` in IDLE or TX_WAIT, and an SPI completion with the radio not transmitting cannot happen in the composed driver. |
| Theorems.TimeoutBelongsToWait | sack.c:225-241 | In every reachable state a waiting soft-ACK has exactly one timeout, armed or running; no timeout is alive while a frame is sent, so none outlives its wait into a later one. |
| Completions.CompletionMatches | sack.c:145-168 | In every run a completion from the radio is that of the frame handed over last: soft-ACK ends an ACK reply if and only if that was an ACK, and waits for an ACK or reports a data completion if and only if it was the frame of the write under way. |
| Rendezvous.SuccessNeedsBoth | radio.c:116-148 | The radio reports success only if an SFD falling edge and the end of the SPI write without underflow both came since the radio was taken for that frame. |
| Rendezvous.OneReportPerTransmission | radio.c:418-582 | Each transmission the radio accepts, data or ACK, is reported exactly once, for any number and order of SFD edges and either underflow outcome. |
| Rendezvous.ReleasedOnce | radio.c:116-148 | Fed any sequence of SPI and SFD ends, the two-stage release tells exactly one caller it was last if and only if both kinds occur. |
| Ownership.TxOwnership | radio.c:98-114 | The radio is IDLE only when no transmit message or configuration thread is active; nothing fills the transmit buffer or submits a message while one is in flight. |
| Ownership.RxGate | radio.c:393-406 | `pending_rx` holds exactly while one receive chain lives, the buffer lock exactly until the upcall's copy; only the chain touches the receive buffers. |
| Ownership.OneUpcallPerChain | radio.c:588-714 | In every run the receive chains started are the upcalls made, the chains given up for a length byte over the limit, and the one that has still to decide: one upcall a chain at most. |
| Ownership.RxContent | sack.c:174-186 | From its copy to the end of the upcall soft-ACK's buffer starts with the length byte and exactly the bytes read for this chain. |
| Termination.HopRanks | lpl.c:122-142 | Every move of a frame lowers its rank, but for a start and for a retransmission, which needs LPL in TX: once the window expired there is none. |
| Termination.ClosingStep | lpl.c:122-142 | A write that can no longer retransmit stays so; no step, receiving and ACK replies included, raises its rank and each step of its own lowers it. |
| Termination.WindowCloses | lpl.c:166-179 | While the window is open its timer is about to start, armed or running, and its callback makes the write a closing one. |
| Termination.OwnStepsBounded | lpl.c:122-142 | In every run a closing write takes at most 27 steps of its own before it returns, however many others come between. |
| Termination.TransmissionEnds | radio.c:418-582 | In every run a transmission below, of data or of an ACK, takes at most 17 steps of its own until it is reported. |
| Termination.TransmissionFalls | radio.c:418-582 | No step takes a transmission below further from its report, and each of its own takes it nearer. |
| Progress.Completes | lpl.c:110-152 | From every state that satisfies the global invariant with a write under way, at most 649 steps lead to the return of that write, whatever the window, CSMA, an ACK transmission ahead or a configuration thread are doing. |
| Progress.WritesComplete | interface.c:144-151 | The same from every state of every run. |
| Progress.ConfigGetsRadio | radio.c:98-107 | From every state that satisfies the global invariant at most 23 steps lead to a configuration thread having the radio and being the only one: the spin on the radio state can always end, whoever has the radio. |
| Progress.ConfigLeavesNoTrace | radio.c:276-319 | Started with the radio idle, whatever else is going on, a configuration thread with any number of messages to the chip gives the driver back exactly as it found it. |
| Progress.FaultLeavesNoTrace | interface.c:111-134 | A write that gets the lock and faults on the copy gives the driver back exactly as it found it. |
| Termination.NeverStuck | interface.c:145-151 | While a write is under way a step of its own is enabled, or a step of what it waits for: the transmission ahead, a configuration thread, a callback being cancelled. |
| WindowTimer.TimerBelongsToSession | lpl.c:94-95 | For all settings and every frame: some run that has written only this frame starts the window timer after its session is over, if and only if LPL is on and the frame asks for an ACK. |
| WindowTimer.TimerOnTime | lpl.c:94-95 | In every run with LPL off, or in which no frame written so far asks for an ACK, the window timer is off or owned by the session under way, and is never started late. |
| WindowTimer.LateStartsOnly | lpl.c:94-95 | In every run the timer stays owned in all states if and only if no start of it came late: nothing else takes it away. |
| WindowTimer.StaleWindow | lpl.c:94-95 | For every ack-requesting frame and any next frame there is a run in which the first one's timer, that one being the only frame written, is started late and closes the second one's window before that frame is passed down. |
| Packet.SrcRoundTrip | packet.c:61-116 | Source extraction inverts the header layout of sections 5.2.1.1.5 to 5.2.1.1.8 of IEEE 802.15.4-2011 for every mix of address modes and PAN compression. |
| Packet.GetSrcInto | packet.c:61-116 | Moving a local offset past the destination yields the source address at its encoded place, for every header. |
| Packet.FlagsRoundTrip | packet.c:7-30 | For every header laid out per section 5.2.1.1 of IEEE 802.15.4-2011, and any payload: a frame asks for an ACK if and only if its ACK request field is set, and is an ACK if and only if its frame type says so. |
| Packet.AckLayout | packet.c:44-59 | The ACK built is the header of an ACK frame as section 5.2.2.3 lays it out. |
| Packet.AckRecognised | packet.c:23-59 | The ACK built for a frame is recognised, requests none, and matches another frame if and only if the sequence numbers are equal. |
| Packet.CreateAckInto | packet.c:44-59 | Overwrites the length byte and header with those of the ACK and nothing else. |
| Unique.RefinesMap | unique.c:68-101 | The list refines a map: no source twice, a frame is dropped exactly when the map holds its number, only that source's entry changes. |
| Unique.CollapsesRepeats | unique.c:68-101 | Over any stream the output is the input with consecutive equal numbers per source collapsed; with failing allocations a dropped frame still repeats its source's previous number. |
| Unique.SharedEntry | packet.c:61-116 | Two nodes whose addresses are equal as numbers share an entry: of two frames with one sequence number the second is dropped. |
| Unique.Layer.RxDone | unique.c:59-102 | The walk over the linked list, with its in-place update or insertion, does what the filter's function says. |
| Spi.TxStream | radio.c:463-531 | The chip, fed the write stream, ends with the frame in its TX FIFO, turned on after exactly three bytes, its RX FIFO flushed first if and only if it was not empty, and returns EXCFLAG0 in the last byte. |
| Radio.LayOut | radio.c:463-531 | For every length the buffer-filling code yields adjacent, hence disjoint, segments inside the SPI buffer, three or four of them, that are the write stream of the buffer's first `len` bytes (three at least); a chip that executes them has exactly those bytes added to its TX FIFO. |
| Radio.Engine.ContinueTxCheck | radio.c:463-531 | The same for the engine's own buffers and stored length. |
| Spi.RxStream | radio.c:588-640 | Reading the length byte and then that many bytes recovers the frame byte for byte and leaves what came after it in the RX FIFO. |
| Radio.Engine.BeginRx | radio.c:588-608 | Builds the first of these commands and clears the input buffer. |
| Spi.FlushRxDecodes | radio.c:642-684 | A flush empties the RX FIFO and touches nothing else. |
| Radio.Engine.FlushRx | radio.c:642-684 | Builds that transfer. |
| Spi.RegisterDecodes | radio.c:769-794 | A register write changes that register to that value and nothing else, below and above the direct range. |
| Radio.Engine.WriteRegister | radio.c:769-794 | Builds that transfer in the SPI buffer. |
| Spi.MemoryDecodes | radio.c:744-767 | A memory write recovers any 12-bit address and all its data. |
| Radio.Engine.WriteMemory | radio.c:744-767 | Builds that transfer in the SPI buffer. |
| Spi.AddressDecodes | radio.c:343-360 | After `set_address`, little-endian reads of chip memory give back all three addresses. |
| Radio.Engine.SetAddress | radio.c:343-360 | Builds that block and its transfer. |
| Spi.FlushTxDecodes | radio.c:548-568 | Flushing leaves the TX FIFO empty, the exception flags clear and the RX FIFO alone. |
| Radio.Engine.FlushTx | radio.c:548-568 | Builds that transfer in the SPI buffer. |
| Radio.Engine.ContinueRx | radio.c:610-640 | Builds the command that reads the announced number of bytes. |
| Radio.Engine.FinishRx | radio.c:693-714 | The buffer passed up is the length byte, then exactly that many SPI bytes, the rest unchanged. |
| Radio.Engine.TxCopy | radio.c:434-435 | Latches the frame and its length in the radio's own buffer. |
| Radio.Engine.TxUnlockSpi | radio.c:116-131 | First stage or last stage of the release, from the state it finds. |
| Radio.Engine.TxUnlockSfd | radio.c:133-148 | The same for an SFD falling edge. |
| Csma.BackoffInRange | csma.c:105-120 | With 0 <= min < max <= 2147483 every backoff is in [min, max), and its nanoseconds fit a 32-bit int. |
| Csma.BackoffDrawn | csma.c:105-113 | Every delay in [min, max) is drawn, by exactly the random numbers whose remainder modulo max - min it is above min. |
| Csma.BackoffAnyRange | csma.c:105-113 | For any two different 32-bit bounds a delay is drawn by some random number exactly if it lies from the minimum up to the maximum on the circle of 32-bit ints: in a reversed range that is every delay not between the bounds, negative ones included. |
| Attempts.DelayDrawn | csma.c:122-188 | In every run the delay of a step is drawn over its whole range by that step's random number: the initial range for the first backoff, the congestion range after a busy first sample. |
| Attempts.AttemptBound | csma.c:122-166 | In every run, whatever comes between: the layer below is called only after exactly one clear sample of the attempt and at most one busy one; CSMA gives up only on a busy sample that is exactly its second, with no clear one. |
| Attempts.DelayBound | csma.c:105-161 | In every run and for any numbers drawn, the delays an attempt requests lie between its minima and its maxima, and a whole attempt asks for less than init + cong. |
| Csma.Layer.TimerCb | csma.c:122-161 | One sample: queue the work, restart once, or report BUSY. |
| Csma.Layer.TxEnter | csma.c:168-193 | Pass down, accept, or busy. |
| Csma.Layer.TxCopy | csma.c:181-188 | Keeps the frame and starts the backoff. |
| Csma.Layer.TxDone | csma.c:198-204 | Back to idle, if enabled. |
| Lpl.Layer.TxEnter | lpl.c:83-101 | Pass down, accept, or busy. |
| Lpl.Layer.TxCopy | lpl.c:91-92 | Keeps the frame and its length for retransmission. |
| Lpl.Layer.TxDone | lpl.c:110-147 | End the session, report failure or success at expiry, or retransmit. |
| Lpl.Layer.TimerCb | lpl.c:166-179 | Expires an open window and nothing else. |
| Sack.Layer.TxEnter | sack.c:134-139 | The spin-wait ends with the layer taken for a transmission. |
| Sack.Layer.TxCopy | sack.c:141 | Keeps the frame whose number the ACK must bear. |
| Sack.Layer.TxDone | sack.c:145-168 | Wait for the ACK, report up, or end an ACK reply. |
| Sack.Layer.RxCopy | sack.c:174-175 | Copies the received frame out of the radio's buffer. |
| Sack.Layer.RxDone | sack.c:188-222 | End the wait, ignore a stray ACK, reply and deliver, skip, or deliver. |
| Sack.Layer.TimerCb | sack.c:225-241 | Ends an ACK wait, if one is under way. |
| Interface.Layer.TryBegin | interface.c:117-121 | Takes the write lock or gives up with -EAGAIN. |
| Interface.Layer.Begin | interface.c:122-126 | The blocking wait ends with the write lock, or with a signal and -ERESTARTSYS. |
| Interface.Layer.Copy | interface.c:130-135 | Copies the frame in; a fault gives the lock back and returns -EFAULT. |
| Interface.Layer.TxDone | interface.c:70-74 | Stores the status and releases the writer. |
| Interface.Layer.End | interface.c:145-151 | Gives the write lock back and returns the status, or the length if it is zero. |

## Left out

- `interface_read` and its sleep queue: it keeps only the newest packet, by design.
- Ioctl parsing, and the setters for channel, address and power called while a frame is sent: they bypass the radio lock, so the ownership theorems do not cover them.
- Toggling CSMA or low power listening while a frame is in flight: the settings are constants of a run.
- The window between `up(&tx_sem)` and the read of `tx_result` (`interface.c:150-151`), where a second writer may overwrite the result: the model reads the result when the completion semaphore is taken.
- Interface.Layer.Copy: a user buffer of 128 bytes or more makes the source copy 128 bytes into a 127-byte buffer (`interface.c:130`); what that overwrites is not modelled. In runs written frames have 4 to 127 bytes, so that the header is there.
- Radio.Engine.FinishRx: a received length byte of 127 makes the source write 128 bytes into a 127-byte buffer (`radio.c:707-710`); what that overwrites is not modelled. In runs length bytes are 3 to 126, or above 127 (flushed); below 3 there is no header.
- The length with which ACK frames are handed to the radio (6 bytes for a length byte of 5, `sack.c:210`): it is modelled as the code has it, and nothing is claimed about its convention.
- Network: two nodes. Third nodes may send anything that carries its whole source address and another key than A's; B's allocation succeeds; B's application writes no ACK frames; the written frame's length byte counts the two checksum bytes and its source address is inside the frame. The channel loses frames at any time; it neither duplicates nor reorders nor forges them.
- Streams.InOrder: the same channel, third nodes and allocation as in Network; A's frames carry one key and are proper, and nothing under that key is in flight before the first of them.
- EndToEnd.AtMostOnce: in a session A starts no second write and its copy from user space does not fault; the same holds for `ExactlyOnce`, `CopyGoesUp` and `DeliveredIntact`.
- EndToEnd.ExactlyOnce: third nodes must be quiet (no ACK with the frame's number to A, no ack request with it to B), because an ACK names no sender.
- Sack.Layer.TxDone: its last branch keeps the lock held in the source (`sack.c:165-167`); `BusyUnreachable` shows it is never taken.
- The kernel's circular doubly linked list is a singly linked one with the same order and the same insertion point.
- Upcalls and the code after their return are independent activities: a superset of the real interleavings.
- Configuration threads (`start`, `on`, `off`) are a lock, any number of synchronous messages, and an unlock; the sequence of registers they write is not modelled, nor is their number bounded.
- Times: timers may fire at any moment once armed, so latencies, rates and the lengths of window, timeout and backoff in real time are not modelled.
- Allocation other than the filter's, module start and stop, debug printing, interrupt flags, GPIO set-up and the SPI controller driver: no protocol content.
