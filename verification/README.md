# Infrared transceiver: a verified model

The firmware learns infrared remote-control frames and sends them again, keeps blobs in framed files, and gates
commands by a system state. This project models four of its parts in Dafny and proves properties of them over all
inputs and all runs. `dafny verify dfyconfig.toml` checks everything.

**Learn/send controller** (`components/ir_ctrl`). API callers queue commands, an interrupt queues receive completions,
and one worker drains all completions before each single command. It is modelled twice.

* `IrController.dfy` is the object the worker runs on: a class with the same fields, two mutable symbol buffers and the
  worker's functions as methods. Driver and callback return codes are arbitrary; `faults` counts the failures, so
  each contract also says what happens when nothing fails. Results are stated through `LearnPipeline.LearnResult`
  (what a learn stores), `IrTypes.Airtime` (what a send puts on the air) and the field changes in `IrTypes.Ctx`.
* `IrProtocol.dfy` is the concurrent system: callers, hardware, interrupt and worker interleave between any two
  accesses to what they share. Histories (accepted receives, accepted and taken commands, stores and transmissions)
  are part of the state. `IrInvariants.dfy`, `IrHistory.dfy`, `IrSendLog.dfy` and `IrOutcome.dfy` prove what each step
  keeps, `IrTheorems.dfy` what holds in every run. `IrRefinement.dfy` shows that the worker's small steps add up to the
  method contracts, with any steps of callers, hardware and interrupt in between.

The driver is assumed only to owe at most one completion for each accepted receive, to forget it on disable, and to
write the receive buffer only while one is owed. Buffer contents and symbol counts are arbitrary.

**Normalisation hook** (`NecCanon.dfy`, `LearnPipeline.dfy`, `TestBench.dfy`). The hook's loops on the output buffer,
its five tests and its fallback are proved equal to a four-case definition; the frame-level results are error
correction and the end-to-end statement about learning an inverted, jittered frame. `TestBench.dfy` holds the test
application's slot store and sniffer.

**Storage manager** (`Stg*.dfy`). `StgIo.dfy` says what each file-system call does given how it is answered, and what
an operation does given the answers of all its calls. Calls may fail at will and lose power before, inside or after
their effect; an interrupted write leaves a prefix; rename fails on an existing destination and is atomic; a full write
with a successful close is durable. `StgMan.dfy` is the manager as a class whose methods are handed those answers and
are proved equal to the functions. `StgSpec.dfy` relates the files before and after an operation, `StgHistory.dfy` says
what follows over runs, `StgLoss.dfy` what can be lost and exactly when, and `StgSession.dfy` ties the runs to the class:
a volume with one manager after another, from power-up to power-up.

**Orchestrator** (`Orch.dfy`, `OrchConcurrent.dfy`). The gate and the operation numbers, as a class and as a system in
which every atomic access is one step.

## Where the code does not do what it is said to do

* A stat that fails on an existing file makes every check and write replace the file by an empty one and carry on as
  if all were well; a short header read does the same on the write path (`StgLoss.HeaderPassKeepsFileIff`,
  `StgHistory.MisreadReportsSuccess`). The promise that an existing file survives holds exactly when neither happens.
* The temporary file's name passes the path check. With working calls a write to it always fails, and removes the file
  unless it was turned down for its header (`StgPath.TmpNameIsReachable`, `StgHistory.WriteSucceedsIff`). It can only
  succeed if that removal fails (`StgSpec.WriteToTmpRel`).
* A write can lose its target: exactly if the removal took effect and the rename did not, and only a write that is not
  turned down for the target's header can (`StgHistory.TargetIsLostIff`, `StgLoss.WriteCanLoseTargetIff`,
  `StgHistory.FileSurvivesIff`). The new file is then whole under the temporary name, which nothing reads back, unless a
  rename failed and that was removed too; both copies are then lost (`StgLoss.WriteCanLoseBothIff`).
* If the temporary file's header is accepted only in part, the payload is written right behind the part. A write can
  leave such a file, no beginning of the new one, exactly if it has a payload and is not turned down
  (`StgLoss.WriteCanTearTmpIff`).
* Without `blocking`, a send that transmits anything returns while the transmitter may still be reading the frame, a
  local variable of the sending function; only a blocking send has waited for it (`IrController.Controller.DoSend`).
* `stg_man_init` is documented to create the default file; the code creates none (`StgMan.StorageManager.Init`).
* With `repeat` = 2^32-1 a send transmits nothing (`IrTypes.CompleteSendCounts`). A `gap_us` above 2^32-1000 wraps to a
  pause of 0 ms (`IrTypes.GapIsLongEnough`).
* A minimum of more than 64 symbols is clamped to 64, so a capture of 64 symbols is accepted although it is shorter than
  the caller's minimum (`LearnPipeline.ClampKeepsAcceptance`).
* Every learn ends by disabling the receive channel and only initialisation enables it. If the driver refuses a receive
  on a disabled channel, at most one learn per initialisation is armed (`IrTheorems.OneLearnPerInit`); if it does not,
  any number can be (`IrTheorems.LenientDriverArmsAgain`).
* The learn generation never rejects anything; old captures are kept out by draining before each command
  (`IrTheorems.GenerationsAgree`, and counterfactually `IrRefinement.CounterWouldNotRejectLeftover`).
* An operation number can be 0: exactly when a multiple of 2^32 fetches falls between a request's own two
  (`OrchConcurrent.IdIsZeroIff`), and a run reaches that (`OrchConcurrent.ZeroCanBeHandedOut`).

## Model

| member | source | states |
|---|---|---|
| `NecCanon.CanonicalizeAt` | apps/test_ir_ctrl/utilities.c:39-85 | the five tests and the fallback change the symbol exactly as the simple form does: end marker, lead, repeat, else one threshold at 1125 a duration |
| `NecCanon.PostNecCanon` | apps/test_ir_ctrl/utilities.c:88-113 | for every length the hook leaves the canonical frame in front of the buffer's old tail, or rejects a length of 0 or above 64 without writing |
| `NecCanon.CanonicalInNumbers` | apps/test_ir_ctrl/utilities.c:39-85 | the four cases in literal ranges and values, levels unchanged |
| `NecCanon.NecHookInNumbers` | apps/test_ir_ctrl/utilities.c:88-113 | entry by entry: one canonical symbol for each of 1..64, the old contents behind them, nothing written for any other length |
| `NecCanon.TolerancesInNumbers` | apps/test_ir_ctrl/utilities.c:11-18 | the nominal symbols and their tolerances in literal numbers |
| `NecCanon.BinsAreDisjoint` | apps/test_ir_ctrl/utilities.c:45-77 | no symbol meets two of the five tests, so their order is immaterial |
| `NecCanon.CanonicalIdempotent` | apps/test_ir_ctrl/utilities.c:39-85 | canonicalising twice is canonicalising once |
| `NecCanon.DecodingRegion` | apps/test_ir_ctrl/utilities.c:39-85 | the exact set of received symbols decoded to each nominal one |
| `NecCanon.FrameCorrected` | apps/test_ir_ctrl/utilities.c:103-112 | every frame of nominal symbols is restored from any per-symbol jitter inside the tolerances |
| `NecCanon.CanonicalCommutesWithInversion` | components/ir_ctrl/ir_ctrl.c:126-133 | canonicalisation and level inversion commute |
| `Symbols.InvertedAt` | components/ir_ctrl/ir_ctrl.c:126-133 | at every index both levels are flipped and both durations kept |
| `Symbols.PaddedFrameAt` | components/ir_ctrl/ir_ctrl.c:319-322 | the object holds the symbols, their number, and zeros behind them |
| `LearnPipeline.StoredIsPadded` | components/ir_ctrl/ir_ctrl.c:313-326 | a stored object has 1..64 symbols and zeros behind them |
| `LearnPipeline.StoredWithoutOptions` | components/ir_ctrl/ir_ctrl.c:353-403 | without options every capture of 1..64 symbols is stored as it came and no other |
| `LearnPipeline.StoredWithoutHook` | components/ir_ctrl/ir_ctrl.c:353-403 | with options and no hook in use exactly the captures inside the caller's bounds are stored, with their levels flipped if asked for |
| `LearnPipeline.StoredWithHook` | components/ir_ctrl/ir_ctrl.c:373-403 | with a hook in use: what it sees, when its result is stored, and which symbols those are |
| `LearnPipeline.StoresPostOfInvert` | components/ir_ctrl/ir_ctrl.c:373-403 | what is stored is the padded post(invert(capture)), or nothing if the hook reports a bad length, whatever the buffers held before |
| `LearnPipeline.NecHookWrites` | apps/test_ir_ctrl/utilities.c:88-113 | the NEC hook's output does not depend on its output buffer |
| `LearnPipeline.LearnStoresNormalized` | components/ir_ctrl/ir_ctrl.c:373-403 | with the NEC hook every accepted capture of 1..64 symbols is stored normalised and padded |
| `LearnPipeline.InvertedJitteredFrameIsRestored` | components/ir_ctrl/ir_ctrl.c:377-403 | learning an inverted, jittered frame with inversion and normalisation stores the frame that was sent |
| `LearnPipeline.ClampKeepsAcceptance` | components/ir_ctrl/ir_ctrl.c:693-698 | clamping keeps the acceptance test except in exactly one case, a minimum above 64 met by 64 symbols |
| `LearnPipeline.ClampKeepsResult` | components/ir_ctrl/ir_ctrl.c:689-698 | a learn stores the same with clamped options as with the caller's, but for a minimum above 64 and a capture of exactly 64 symbols, which is then treated as if there were no minimum |
| `LearnPipeline.ClampedFields` | components/ir_ctrl/ir_ctrl.c:689-698 | inversion, normalisation and hook are the caller's; bounds change only outside 1..64 and 0..64 |
| `IrTypes.AirtimeCounts` | components/ir_ctrl/ir_ctrl.c:487-514 | k rounds contain k transmissions and one pause after each round but the last |
| `IrTypes.AirtimeAt` | components/ir_ctrl/ir_ctrl.c:487-514 | event by event: transmissions and pauses take turns, ending with a transmission; without a gap only transmissions |
| `IrTypes.CompleteSendCounts` | components/ir_ctrl/ir_ctrl.c:485-514 | a complete send transmits repeat+1 times with repeat pauses, and not at all for repeat = 2^32-1 |
| `IrTypes.GapIsLongEnough` | components/ir_ctrl/ir_ctrl.c:511-513 | the pause covers the gap asked for exactly up to 2^32-1000 microseconds |
| `IrTypes.GapIsRoundedUp` | components/ir_ctrl/ir_ctrl.c:511-513 | the pause is the gap rounded up to whole milliseconds, and none above 2^32-1000 |
| `IrTypes.SendAnswers` | components/ir_ctrl/ir_ctrl.c:418-480 | every answer of a send whose calls work, with its literal cause |
| `IrTypes.FieldChanges` | components/ir_ctrl/ir_ctrl.c:239-311 | each change of the shared fields, field by field |
| `IrTypes.RoundIsOnTheWay` | components/ir_ctrl/ir_ctrl.c:487-514 | wherever a send stops, it has put a prefix of the complete send on the air |
| `IrController.Controller.DoLearnStart` | components/ir_ctrl/ir_ctrl.c:247-291 | refused without effect, or armed with the command's slot and options and a new generation, or back to IDLE with a new generation when the driver fails |
| `IrController.Controller.DoLearnCancel` | components/ir_ctrl/ir_ctrl.c:293-311 | ends a learn, clears its fields and disarms the receiver; otherwise no effect |
| `IrController.Controller.ApplyInvert` | components/ir_ctrl/ir_ctrl.c:126-133 | the first n symbols are the inverted input, the rest is untouched |
| `IrController.Controller.CallHook` | components/ir_ctrl/ir_ctrl.c:386-390 | the hook's input and output buffers are never the same, at every call |
| `IrController.Controller.Process` | components/ir_ctrl/ir_ctrl.c:373-399 | the two buffers taking turns compute the hook of the inverted capture |
| `IrController.Controller.StoreFrame` | components/ir_ctrl/ir_ctrl.c:313-326 | 1..64 symbols reach the store zero-padded, other lengths never do; called only while learning |
| `IrController.Controller.HandleRxDone` | components/ir_ctrl/ir_ctrl.c:328-416 | for every capture, options and hook: the specified object is stored in the learn's slot or nothing is, the mode ends IDLE, the receiver is disarmed; a completion outside a learn changes nothing |
| `IrController.Controller.LoadFrame` | components/ir_ctrl/ir_ctrl.c:418-439 | one error each for no callback, a callback that fails, one that reports a wrong object size, and an invalid symbol count; otherwise the frame the slot holds |
| `IrController.Controller.ApplyCarrierIfNeeded` | components/ir_ctrl/ir_ctrl.c:135-151 | a zero frequency or a duty cycle outside (0,1) is refused without a call, no override succeeds without one, otherwise the driver's answer |
| `IrController.Controller.TransmitRounds` | components/ir_ctrl/ir_ctrl.c:485-516 | the loop puts all rounds on the air, or a prefix of them if a driver call fails |
| `IrController.Controller.DoSend` | components/ir_ctrl/ir_ctrl.c:441-523 | success means the slot's symbols handed over in all rounds, failure a prefix; the fields end as they were, and without faults the answer is determined; a successful send leaves nothing in transmission exactly if it is blocking or transmits nothing |
| `IrController.Controller.DrainRx` | components/ir_ctrl/ir_ctrl.c:531-534 | any number of queued completions carries out at most one learn, the first one's |
| `IrController.Controller.WorkerTurn` | components/ir_ctrl/ir_ctrl.c:530-564 | every completion first, the slots then holding what the first one's learn stored; then at most the oldest command, with its effect on fields and air (a prefix for a failing send) and its answer; never SENDING at the loop head |
| `IrController.Controller.CarryOut` | components/ir_ctrl/ir_ctrl.c:536-551 | each command has its specified effect on fields and air, and without faults its determined answer |
| `IrController.Controller.RxDoneIsr` | components/ir_ctrl/ir_ctrl.c:211-221 | the completion is queued, or counted as dropped when four are |
| `IrController.Controller.LearnStartApi` | components/ir_ctrl/ir_ctrl.c:671-708 | queued exactly when idle and not full, with the caller's slot, inversion, normalisation and hook and its bounds clamped; the code's errors otherwise |
| `IrController.Controller.LearnCancelApi` | components/ir_ctrl/ir_ctrl.c:710-725 | queued exactly when initialised and not full |
| `IrController.Controller.SendApi` | components/ir_ctrl/ir_ctrl.c:727-747 | queued exactly when not sending and not full |
| `IrInvariants.EnvKeepsBase` | components/ir_ctrl/ir_ctrl.c:211-221 | no API call, hardware write or interrupt breaks the fit of mode, generation and outstanding captures |
| `IrInvariants.HandlerKeepsBase` | components/ir_ctrl/ir_ctrl.c:328-416 | no step of the handler does |
| `IrInvariants.CmdKeepsBase` | components/ir_ctrl/ir_ctrl.c:247-311 | no step of a learn start or cancel does |
| `IrInvariants.SendKeepsBase` | components/ir_ctrl/ir_ctrl.c:441-523 | no step of a send does |
| `IrInvariants.HandlerKeepsLearn` | components/ir_ctrl/ir_ctrl.c:328-416 | through invert and hook, what the handler is about to store stays the specified outcome of the current learn's capture |
| `IrHistory.HandlerKeepsStores` | components/ir_ctrl/ir_ctrl.c:403-415 | every store is the outcome of its own learn's capture, and no learn stores twice |
| `IrHistory.CmdKeepsCommands` | components/ir_ctrl/ir_ctrl.c:536-551 | taking a command keeps order and the tie between learns and the commands that started them |
| `IrSendLog.SendKeepsLog` | components/ir_ctrl/ir_ctrl.c:457-521 | every event of a send continues its pattern, and a good end comes only after all of it |
| `IrSendLog.OpenSendIsPrefix` | components/ir_ctrl/ir_ctrl.c:485-516 | at every moment of a legal trace the running send has put a prefix of its pattern on the air |
| `IrTheorems.RunKeepsInv` | components/ir_ctrl/ir_ctrl.c:526-565 | all invariants hold after every run of callers, hardware, interrupt and worker |
| `IrTheorems.NoStaleCapture` | components/ir_ctrl/ir_ctrl.c:526-565 | in every interleaving a stored frame comes from the capture armed by the learn start that chose its slot, processed with that command's options; one store a learn start at most |
| `IrTheorems.NoLostCapture` | components/ir_ctrl/ir_ctrl.c:328-416 | the converse: in every run a completed capture that is to be stored is exactly one of still waiting, stored as specified in its learn's slot, failed by the store callback, or ended by a cancel command taken after its learn start |
| `IrTheorems.NeverStuck` | components/ir_ctrl/ir_ctrl.c:526-565 | in every run the worker can go on, whether its next call works or fails |
| `IrTheorems.OthersMayDo` | components/ir_ctrl/ir_ctrl.c:671-747 | in every run API calls pass their check exactly by the mode, and exactly the armed receives can complete |
| `IrTheorems.SingleOutstandingCapture` | components/ir_ctrl/ir_ctrl.c:211-237 | armed receives, queued completions and the one being handled never exceed one, and nothing is ever dropped |
| `IrTheorems.GenerationsAgree` | components/ir_ctrl/ir_ctrl.c:287-288 | through every 16-bit wrap the two generations agree while learning, so the stale branch is unreachable |
| `IrTheorems.ModesAndSnapshots` | components/ir_ctrl/ir_ctrl.c:337-342 | the copied slot and options are still current when used; stores only in LEARNING, transmissions only in SENDING, neither at the loop head in SENDING |
| `IrTheorems.CommandsInOrder` | components/ir_ctrl/ir_ctrl.c:704-707 | accepted commands are taken in order and at most once from a queue of at most four |
| `IrTheorems.ReplayIsFaithful` | components/ir_ctrl/ir_ctrl.c:460-516 | each transmission carries what its slot holds at that moment and continues its send's pattern, a successful send ends after the whole pattern, and stores never fall inside a send |
| `IrTheorems.SendsAreBounded` | components/ir_ctrl/ir_ctrl.c:485-516 | in every run a send, however it goes on, fails or ends, has at every moment put only a prefix of its pattern on the air, so at most repeat+1 transmissions |
| `IrTheorems.SlotHoldsLastStore` | apps/test_ir_ctrl/test_ir_ctrl_main.c:89-107 | what a slot holds is what was last stored in it |
| `IrTheorems.LearnedFrameIsTransmitted` | components/ir_ctrl/ir_ctrl.c:494-497 | a learned frame that was not overwritten is what a later send of the slot transmits |
| `IrTheorems.CompleteSendTransmits` | components/ir_ctrl/ir_ctrl.c:485-516 | in every run a successful send made repeat+1 transmissions and repeat pauses, none for repeat = 2^32-1 |
| `IrTheorems.OneLearnPerInit` | components/ir_ctrl/ir_ctrl.c:412-415 | on a driver that refuses a receive on a disabled channel at most one receive is ever accepted |
| `IrTheorems.LenientDriverArmsAgain` | components/ir_ctrl/ir_ctrl.c:247-311 | on a driver that does not, for every n a run arms n learns |
| `IrTheorems.TakenCommandsAreClamped` | components/ir_ctrl/ir_ctrl.c:689-702 | whatever options callers pass, every learn start the worker takes has bounds of at most 64 |
| `IrTheorems.HistoryGuardsHold` | components/ir_ctrl/ir_ctrl.c:526-565 | the guards that keep the histories well defined exclude no reachable behaviour |
| `IrRefinement.HandlerRefinesContract` | components/ir_ctrl/ir_ctrl.c:328-416 | the worker's small steps through the handler, with any other steps in between, end exactly where the handler method's contract says |
| `IrRefinement.LearnStartRefinesContract` | components/ir_ctrl/ir_ctrl.c:247-291 | so do the two halves of a learn start, refusal included; meanwhile its receive may already complete, before the lock is released included |
| `IrRefinement.ApiCallRefinesContract` | components/ir_ctrl/ir_ctrl.c:671-747 | the two halves of an API call queue the clamped command as the API methods do, unless four are waiting |
| `IrRefinement.SendRefinesContract` | components/ir_ctrl/ir_ctrl.c:441-523 | a send whose calls work, with any other steps in between, ends with the answer the send method gives (a refused carrier included), exactly the frame's pattern or nothing on the air, and everything else as it was |
| `IrRefinement.FailingSendRefinesContract` | components/ir_ctrl/ir_ctrl.c:441-523 | with calls failing at will: a prefix of the pattern on the air, success only after all of it, everything else as it was |
| `IrRefinement.CancelRefinesContract` | components/ir_ctrl/ir_ctrl.c:293-311 | a cancel clears the learn's fields and disables the receiver, or does nothing outside a learn |
| `IrRefinement.LoopTakesInOrder` | components/ir_ctrl/ir_ctrl.c:530-551 | the loop handles the oldest completion before any command, then the oldest command as what it is |
| `IrRefinement.StartsAsConstructed` | components/ir_ctrl/ir_ctrl.c:577-664 | runs begin idle, with nothing pending and the receiver enabled |
| `IrRefinement.CounterWouldNotRejectLeftover` | components/ir_ctrl/ir_ctrl.c:348-351 | counterfactual, its states are unreachable: a completion left in the queue when a learn starts would pass the generation check |
| `TestBench.SlotStore.Store` | apps/test_ir_ctrl/test_ir_ctrl_main.c:89-96 | a map update for the 16 slots, a refusal otherwise |
| `TestBench.SlotStore.Load` | apps/test_ir_ctrl/test_ir_ctrl_main.c:98-107 | the map's value, or nothing |
| `TestBench.SniffedFrame.PostprocessLikeLearn` | apps/test_ir_ctrl/test_ir_ctrl_main.c:344-369 | the sniffed frame becomes its normalised form in place; fails only on an empty frame to be normalised |
| `TestBench.LearnMatchesSniffer` | apps/test_ir_ctrl/test_ir_ctrl_main.c:344-369 | learn and sniffer, two separate pieces of code, end with the same symbols |
| `LittleEndian.Get32OfPut` | components/stg_man/stg_man.c:31-39 | four bytes read as x exactly if they are the bytes of x |
| `StgFormat.DecodeIsInverse` | components/stg_man/stg_man.c:31-39 | a header decodes to h exactly if its 16 bytes are those of h |
| `StgFormat.HeaderBytes` | components/stg_man/stg_man.c:55-65 | the sixteen header bytes, literally |
| `StgFormat.HeaderStatusOfBytes` | components/stg_man/stg_man.c:185-193 | the first four bytes decide between state error and not, the next two between version error and OK |
| `StgFormat.ReadBackOfBytes` | components/stg_man/stg_man.c:455-489 | the payload is as long as bytes 8 to 11 say and begins at byte 16 |
| `StgFormat.WrittenReadsBack` | components/stg_man/stg_man.c:383-400 | a written file reads back exactly if and only if its payload is shorter than 2^32 |
| `StgFormat.PartOfEmptyFile` | components/stg_man/stg_man.c:55-65 | a cut-off default header reads as an error, a whole one as the empty payload |
| `StgPath.JoinIsInjective` | components/stg_man/stg_man.c:96-99 | different relative paths never meet |
| `StgPath.ResolvesIff` | components/stg_man/stg_man.c:67-101 | exactly the names that are not empty, do not begin with "/", have no ".." and no backslash, and are short enough resolve, to base, "/" and name; the others give their error |
| `StgPath.BadNamesAreRefused` | components/stg_man/stg_man.c:67-82 | one by one, the bad names are refused as invalid arguments |
| `StgPath.TmpNameIsReachable` | components/stg_man/stg_man.c:67-82 | the temporary name is a legal target, and the only one that collides |
| `StgIo.HeaderPassMeetsSpec` | components/stg_man/stg_man.c:144-200 | however its calls are answered, the header pass rewrites only a missing, short or misread file, and OK means the exact specified files |
| `StgIo.WriteTmpMeetsSpec` | components/stg_man/stg_man.c:383-406 | however its calls are answered, filling the temporary file touches nothing else and leaves a beginning of the frame it was given |
| `StgIo.ReplaceMeetsSpec` | components/stg_man/stg_man.c:408-413 | however its calls are answered, the exchange ends as its record of removal, rename and drop says |
| `StgIo.WriteFileMeetsSpec` | components/stg_man/stg_man.c:342-421 | however its calls are answered, a whole write stays inside the write relation |
| `StgIo.ReturnedWriteCleansUp` | components/stg_man/stg_man.c:401-415 | a write that returns, with whatever answer, leaves no temporary file unless one was there before or its removal fails |
| `StgMan.StorageManager.Init` | components/stg_man/stg_man.c:204-252 | mounting creates no file, the default one included |
| `StgMan.StorageManager.WriteAll` | components/stg_man/stg_man.c:112-142 | success means exactly the data; otherwise the file is as before or holds a prefix |
| `StgMan.StorageManager.HeaderEnsureOrValidate` | components/stg_man/stg_man.c:144-200 | under any faults and power loss: only a missing, short or misread file is rewritten, and OK means the exact specified files |
| `StgMan.StorageManager.Check` | components/stg_man/stg_man.c:313-340 | the strict header pass on the resolved path under any answers, touching no temporary file, or a refusal without effect |
| `StgMan.StorageManager.Format` | components/stg_man/stg_man.c:278-311 | files vanish whole, only the default file can be new, and on success it alone exists |
| `StgMan.StorageManager.Write` | components/stg_man/stg_man.c:342-421 | under any faults and power loss: the target is new exactly if the rename took effect, absent exactly if only the removal did, else as before or reset; the temporary file is as before, absent, or a beginning of what was written; other files are unchanged; every failing call is reported as a failure; and every argument error |
| `StgMan.StorageManager.WriteToTmp` | components/stg_man/stg_man.c:383-406 | success means the temporary file is exactly header and payload; otherwise it is as before, absent, or a beginning of the part of the header that was taken and the payload |
| `StgMan.StorageManager.ReplaceTarget` | components/stg_man/stg_man.c:408-413 | the target is the new file, unchanged, or absent, according to which of removal and rename took effect; the temporary file is intact unless dropped after a failed rename |
| `StgMan.StorageManager.Read` | components/stg_man/stg_man.c:423-507 | size query, room check, payload and untouched buffer tail, and every error |
| `StgSpec.WithReplacePhase` | components/stg_man/stg_man.c:367-413 | header pass, temporary file and replacement together give the write relation |
| `StgHistory.TargetIsLostIff` | components/stg_man/stg_man.c:408-413 | a returned or cut-off write has lost its target exactly if the removal took effect and the rename did not, and both copies exactly if the temporary file was dropped too, never by a power loss alone |
| `StgHistory.WritableStays` | components/stg_man/stg_man.c:144-200 | a path that a write would not turn down stays so through every run with any faults, power losses, misreadings and formats |
| `StgHistory.RetrySucceeds` | components/stg_man/stg_man.c:342-421 | so after any run, cut-off writes included, the next write of it whose calls work succeeds, leaving the new file, no temporary one, and the rest as it was |
| `StgHistory.WriteSucceedsAfterRunIff` | components/stg_man/stg_man.c:342-421 | without formats and misreadings such a write succeeds after the run if and only if the path was writable before it |
| `StgHistory.WriteSucceedsIff` | components/stg_man/stg_man.c:360-420 | with working calls a write succeeds exactly if the target is not the temporary file and is missing, short or has a good header |
| `StgHistory.MisreadReportsSuccess` | components/stg_man/stg_man.c:152-183 | a misinformed pass empties the file and answers OK |
| `StgHistory.HeaderPassAnswers` | components/stg_man/stg_man.c:144-200 | the header pass with working calls, case by case on the bytes |
| `StgHistory.WriteAnswers` | components/stg_man/stg_man.c:342-421 | a write with working calls, case by case on the target's bytes, with the exact new file |
| `StgHistory.ReadAnswers` | components/stg_man/stg_man.c:423-507 | a read with working calls, case by case on the file's bytes, room and buffer |
| `StgHistory.RoundTrip` | components/stg_man/stg_man.c:455-499 | write then size query, read and short read give the length, the bytes with the tail untouched, and NO_MEM with the length; other files read as before |
| `StgHistory.RunIsGenuine` | components/stg_man/stg_man.c:144-200 | in every run with faults and power losses each file but the temporary one is the last committed one or the beginning of a default header |
| `StgHistory.ReadIntegrity` | components/stg_man/stg_man.c:423-507 | a successful read returns the last committed payload or the empty one, never a torn or mixed one |
| `StgHistory.ReadsLatestWrite` | components/stg_man/stg_man.c:342-507 | the same for the data of the latest write whose rename took effect |
| `StgHistory.UndisturbedFileIsKept` | components/stg_man/stg_man.c:144-200 | other operations, failing or cut off, never touch a file with a whole header |
| `StgHistory.CommittedFileSurvives` | components/stg_man/stg_man.c:342-421 | unless the path is misread or removed without the rename, or the volume is formatted, a path holds exactly its last committed file |
| `StgHistory.FileSurvivesIff` | components/stg_man/stg_man.c:342-421 | without formats and misreadings a path holds its last committed file throughout a run if and only if every write that removed it also renamed |
| `StgHistory.WrittenDataSurvives` | components/stg_man/stg_man.c:342-507 | after any such run a successfully written payload is read back in full |
| `StgLoss.HeaderPassKeepsFileIff` | components/stg_man/stg_man.c:152-183 | a file with a whole header survives every header pass, whatever else its calls answer, if and only if stat does not deny it and, when healing, the read is not short |
| `StgLoss.WriteCanLoseTargetIff` | components/stg_man/stg_man.c:360-413 | some answers, with nothing misread and no call failing, make the code lose an existing target if and only if it is short or has a good header |
| `StgLoss.WriteCanLoseBothIff` | components/stg_man/stg_man.c:360-413 | the same, with a call failing, for losing both copies |
| `StgLoss.TornIsPrefixIff` | components/stg_man/stg_man.c:393-394 | the frame with a header taken in part is always a prefix of the new file exactly for an empty payload |
| `StgLoss.WriteCanTearTmpIff` | components/stg_man/stg_man.c:393-406 | some answers make the code leave a temporary file that is no prefix of the new one if and only if the write has a payload and is not turned down |
| `StgSession.Session.Mount` | components/stg_man/stg_man.c:204-252 | a mount is a step of the run, wiping only if it was allowed to |
| `StgSession.Session.Write` | components/stg_man/stg_man.c:342-421 | a write that is not refused is exactly one step of the run, and the run stays legal |
| `StgSession.Session.Check` | components/stg_man/stg_man.c:313-340 | so is a check |
| `StgSession.Session.Format` | components/stg_man/stg_man.c:278-311 | so is a format |
| `StgSession.Session.Read` | components/stg_man/stg_man.c:423-507 | after any operations and power losses a successful read of the class returns the payload last committed under the path, or nothing |
| `StgHistory.CorruptionIsSticky` | components/stg_man/stg_man.c:185-193 | a file with wrong magic or version keeps its bytes and its error through any such calls until a format |
| `Orch.Orchestrator.OnStateChange` | components/orchestrator/orch.c:57-77 | exactly a well-formed state event sets the state |
| `Orch.AnnouncedState` | components/orchestrator/orch.c:64-76 | an event sets the state exactly if it is number 1 with 16 bytes, and to bytes 4 to 7 |
| `Orch.Admission` | components/orchestrator/orch.c:87-123 | who is admitted and why others are not, in literal states and commands |
| `Orch.Orchestrator.NextOpId` | components/orchestrator/orch.c:47-54 | the i-th number is 1 + i modulo 2^32-1, through every wrap |
| `Orch.Orchestrator.ProcessReq` | components/orchestrator/orch.c:87-123 | in literal states and commands: LOCKED handles only the login, NORMAL all seven commands, BOOT answers busy, any other state a state error, an unknown command or none an argument error; a handled one takes the next number, a refused one none |
| `OrchConcurrent.RunKeepsInv` | components/orchestrator/orch.c:47-123 | the invariants hold after every interleaving of events and requests |
| `OrchConcurrent.AdmissionIsByTheStateRead` | components/orchestrator/orch.c:87-123 | the state is the fold of the events, each request is judged by the state its one read saw, and only admitted ones fetch numbers |
| `OrchConcurrent.OnlyLoginWhileLocked` | components/orchestrator/orch.c:93-118 | in every run a request seen in LOCKED gets on only if it is a login, one seen in NORMAL only if it is one of the seven, all others get their literal error |
| `OrchConcurrent.FoldIsLast` | components/orchestrator/orch.c:57-77 | the state is the one the last well-formed event announced, BOOT before any |
| `OrchConcurrent.IdsAreDistinct` | components/orchestrator/orch.c:47-54 | numbers of different requests are equal exactly when a multiple of 2^32 fetches lies between them |
| `OrchConcurrent.IdIsZeroIff` | components/orchestrator/orch.c:47-54 | a number is 0 exactly when a multiple of 2^32 fetches lies between the request's own two |
| `OrchConcurrent.ZeroCanBeHandedOut` | components/orchestrator/orch.c:47-54 | a run in which a request gets the number 0, overtaken by 2^32-1 other fetches between its own two |

## Left out

- Initialisation, deinitialisation and the task-stop command of the controller: runs lie between init and deinit, since the unconditional returns to IDLE race with the uninitialised state.
- NULL pointers handed to the hook, to `ir_ctrl_get_slot_info` and to `stg_man_init`: references in the model are never null, except the data and buffer pointers of write and read.
- `ir_ctrl_get_slot_info` and `ir_ctrl_is_busy`: they read what the send path reads and change nothing.
- Blocking of `ir_ctrl_send` and all timing: the poll may end before the worker starts, so nothing is claimed of it; pauses are recorded before tick rounding; `timeout_ms` is unused by the code.
- Carrier duty cycles are real numbers, not floats; a NaN is refused by the code and does not exist here.
- `IrTheorems.OneLearnPerInit`: assumes the driver refuses a receive on a disabled channel; without that its bound is false, and the other results do not need it.
- `StgIo.Rename`: atomic under power loss, which the FAT driver below does not promise.
- `StgHistory.ReadIntegrity`: covers paths other than the temporary file's, and volumes whose base path leaves room for it; reads are not entries of a run because they change no file. After a power loss a run may go on with or without a mount.
- `StgIo.WriteStream`: bytes of an open stream reach the file when it is closed or power is lost; what the file holds in between is seen by nobody, since the lock is held.
- `StgSession.Session`: its base path leaves room for the temporary name and its default path is a legal one.
- What the transmitter does with a frame after it was handed over: `Transmit` events record the handing over, in order, and `IrController` counts what was not waited for.
- FAT name aliasing (upper and lower case, `.` and empty components): files are keyed by their path string.
- Unmounting, wear levelling and the event bus: delivery of an event is a step that may happen at any time, bus code is in a submodule that is not part of this model.
- Command handlers: a handler is an arbitrary function of its command and number; the table has one for each command, so the "not supported" answer cannot occur.
