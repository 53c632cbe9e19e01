/** The learn/send controller as the object its worker task runs on. Driver and callback return codes are
  * arbitrary; what other threads may do in between is the subject of IrProtocol. */
module IrController {
  import opened Common
  import opened Symbols
  import opened LearnPipeline
  import opened IrTypes

  const FRAME_OBJ_SIZE: nat := 4 + 4 * MAX_FRAME_SIZE   // sizeof(rmt_frame_obj_t): the count, padded, and the symbols
  const NO_FRAME := Frame(Zeros(MAX_FRAME_SIZE), 0)

  /** A learn whose capture is to be stored as `result` has ended: stored and finished, or cancelled because
    * there was nothing to store or a call failed. */
  ghost predicate LearnEnded(result: Option<Frame>, before: Ctx, slots0: Slots, after: Ctx, slots: Slots, faulty: bool)
  {
    || (result.Some? && slots == slots0[before.slot := result.value] && after == before.Finished())
    || ((result.None? || faulty) && slots == slots0 && after == before.Cancelled())
  }

  /** What a command makes of the fields and of the air. */
  ghost predicate CarriedOut(cmd: Cmd, before: Ctx, slots: Slots, after: Ctx, err: Err, sent: seq<Event>, faulty: bool)
  {
    match cmd
    case LearnStart(slot, opts) =>
      && sent == []
      && (if before.MayLearn() then (err == Ok || faulty) && after == before.Armed(slot, opts, err == Ok).NextGen()
          else err == InvalidState && after == before)
    case LearnCancel =>
      && sent == []
      && (if before.mode == Learning then err == Ok && after == before.Cancelled()
          else err == InvalidState && after == before)
    case Send(slot, o) =>
      && after == before
      && (!faulty ==> err == SendStatus(before, slots, slot, o))
      && SentFits(slots, slot, o, err, sent)
  }

  /** A send that succeeds transmits its whole pattern, any other one a beginning of it. */
  predicate SentFits(slots: Slots, slot: uint16, o: SendOpts, err: Err, sent: seq<Event>) {
    if slot in slots && slots[slot].Valid() then
      var pattern := Airtime(slots[slot].Payload(), o, TotalOf(o), TotalOf(o));
      sent <= pattern && (err == Ok ==> sent == pattern)
    else err != Ok && sent == []
  }

  class Controller {
    const hasStore: bool
    const hasLoad: bool
    const rxRaw: array<Symbol>
    const scratch: array<Symbol>

    var mode: Mode
    var learnSlot: uint16
    var learnGen: uint16
    var activeLearnGen: uint16
    var learnOpts: Option<LearnOpts>
    var cmdQueue: seq<Cmd>
    var rxQueue: seq<nat>     // num_symbols of each completed receive; the symbols are in rxRaw
    var rxDrops: nat
    var rxArmed: bool         // the driver owes a completion for an accepted receive
    var slots: Slots          // what the slot callbacks have stored
    var air: seq<Event>       // what the transmitter was given, and the pauses
    ghost var unwaited: nat   // transmissions handed over since the transmitter was last known to be done
    ghost var faults: nat     // how many driver and callback calls have failed although they could have worked

    ghost predicate Valid() {
      rxRaw != scratch && rxRaw.Length == scratch.Length == MAX_FRAME_SIZE
    }

    function Fields(): Ctx
      reads this
    {
      Ctx(mode, learnSlot, learnOpts, learnGen, activeLearnGen, hasStore, hasLoad)
    }

    constructor (hasStore: bool, hasLoad: bool)
      ensures Valid() && fresh(rxRaw) && fresh(scratch)
      ensures Fields() == Ctx(Idle, 0, None, 0, 0, hasStore, hasLoad)
      ensures cmdQueue == [] && rxQueue == [] && rxDrops == 0 && !rxArmed && slots == map[] && air == []
      ensures unwaited == 0 && faults == 0
    {
      this.hasStore, this.hasLoad := hasStore, hasLoad;
      rxRaw := new Symbol[MAX_FRAME_SIZE](i => ZERO_SYMBOL);
      scratch := new Symbol[MAX_FRAME_SIZE](i => ZERO_SYMBOL);
      mode, learnSlot, learnGen, activeLearnGen, learnOpts := Idle, 0, 0, 0, None;
      cmdQueue, rxQueue, rxDrops, rxArmed, slots, air := [], [], 0, false, map[], [];
      unwaited, faults := 0, 0;
    }

    // ---------- Driver and callbacks: every return code is possible ----------
    // What each requires of the mode is what the source keeps: receives and stores only while learning,
    // loads and transmissions only while sending.

    /** Any call into the driver whose only effect is its return code. */
    method DriverAnswers() returns (ok: bool)
      modifies `faults
      ensures faults == old(faults) + (if ok then 0 else 1)
    {
      ok := *;
      if !ok {
        faults := faults + 1;
      }
    }

    method RmtReceive() returns (ok: bool)
      requires mode == Learning
      modifies `rxArmed, `faults
      ensures rxArmed == (old(rxArmed) || ok)
      ensures faults == old(faults) + (if ok then 0 else 1)
    {
      ok := DriverAnswers();
      rxArmed := rxArmed || ok;
    }

    method RmtDisable()
      modifies `rxArmed
      ensures !rxArmed
    {
      rxArmed := false;
    }

    method StoreCallback(slot: uint16, frame: Frame) returns (ok: bool)
      requires mode == Learning
      modifies `slots, `faults
      ensures slots == if ok then old(slots)[slot := frame] else old(slots)
      ensures faults == old(faults) + (if ok then 0 else 1)
    {
      ok := DriverAnswers();
      if ok {
        slots := slots[slot := frame];
      }
    }

    /** One that misbehaves reports failure or a wrong object size. */
    method LoadCallback(slot: uint16) returns (ok: bool, frame: Frame, got: nat)
      requires mode == Sending
      modifies `faults
      ensures ok && got == FRAME_OBJ_SIZE ==> slot in slots && frame == slots[slot]
      ensures faults == old(faults) ==> ok == (slot in slots) && got == FRAME_OBJ_SIZE
      ensures faults >= old(faults)
    {
      var works := DriverAnswers();
      if works {
        ok, got := slot in slots, FRAME_OBJ_SIZE;
        frame := if ok then slots[slot] else NO_FRAME;
      } else {
        ok, frame := *, NO_FRAME;
        got :| got != FRAME_OBJ_SIZE;
      }
    }

    /** Hands symbols over; the transmitter goes on reading them until it is done. */
    method RmtTransmit(symbols: seq<Symbol>) returns (ok: bool)
      requires mode == Sending
      modifies `air, `unwaited, `faults
      ensures air == if ok then old(air) + [Transmit(symbols)] else old(air)
      ensures unwaited == old(unwaited) + (if ok then 1 else 0)
      ensures faults == old(faults) + (if ok then 0 else 1)
    {
      ok := DriverAnswers();
      if ok {
        air, unwaited := air + [Transmit(symbols)], unwaited + 1;
      }
    }

    method RmtTxWaitAllDone() returns (ok: bool)
      requires mode == Sending
      modifies `unwaited, `faults
      ensures unwaited == if ok then 0 else old(unwaited)
      ensures faults == old(faults) + (if ok then 0 else 1)
    {
      ok := DriverAnswers();
      if ok {
        unwaited := 0;
      }
    }

    // ---------- Learning ----------

    method FinishToIdle()
      modifies `mode, `learnSlot, `learnOpts
      ensures Fields() == old(Fields()).Finished()
    {
      mode, learnSlot, learnOpts := Idle, 0, None;
    }

    method DoLearnStart(slot: uint16, opts: Option<LearnOpts>) returns (err: Err)
      modifies `mode, `learnSlot, `learnOpts, `learnGen, `activeLearnGen, `rxArmed, `faults
      ensures !old(Fields()).MayLearn() ==> err == InvalidState && Fields() == old(Fields()) && rxArmed == old(rxArmed)
      ensures old(Fields()).MayLearn() ==>
        && (err == Ok || err == Fail)
        && Fields() == old(Fields()).Armed(slot, opts, err == Ok).NextGen()
        && rxArmed == (old(rxArmed) || err == Ok)
        && (err == Ok <==> faults == old(faults))
      ensures old(mode) == Idle && hasStore ==>
        && learnGen == activeLearnGen == (if old(learnGen) == 0xFFFF then 0 else old(learnGen) + 1)
        && (if err == Ok then mode == Learning && learnSlot == slot && learnOpts == opts
            else mode == Idle && learnSlot == 0 && learnOpts == None)
      ensures faults >= old(faults)
    {
      if mode == Uninit || mode == Learning || mode == Sending || !hasStore {
        return InvalidState;
      }
      mode, learnSlot, learnOpts := Learning, slot, opts;
      var ok := RmtReceive();
      err := if ok then Ok else Fail;
      if !ok {
        FinishToIdle();
      }
      learnGen := (learnGen + 1) % 0x1_0000;
      activeLearnGen := learnGen;
    }

    method DoLearnCancel() returns (err: Err)
      modifies `mode, `learnSlot, `learnOpts, `activeLearnGen, `rxArmed
      ensures old(mode) != Learning ==> err == InvalidState && Fields() == old(Fields()) && rxArmed == old(rxArmed)
      ensures old(mode) == Learning ==> err == Ok && Fields() == old(Fields()).Cancelled() && !rxArmed
      ensures old(mode) == Learning ==>
        mode == Idle && learnSlot == 0 && learnOpts == None && activeLearnGen == 0 && learnGen == old(learnGen)
    {
      if mode != Learning {
        return InvalidState;
      }
      activeLearnGen := 0;
      RmtDisable();
      FinishToIdle();
      return Ok;
    }

    /** ir_apply_invert, between two different buffers. */
    method ApplyInvert(input: array<Symbol>, out: array<Symbol>, n: uint16)
      requires input != out && n <= input.Length && n <= out.Length
      modifies out
      ensures out[..] == Inverted(input[..n]) + old(out[n..])
    {
      for i := 0 to n
        invariant forall k :: 0 <= k < i ==> out[k] == InvertedSymbol(input[k])
        invariant forall k :: n <= k < out.Length ==> out[k] == old(out[k])
      {
        out[i] := input[i];
        out[i] := out[i].(level0 := !input[i].level0);
        out[i] := out[i].(level1 := !input[i].level1);
      }
      assert forall k :: n <= k < out.Length ==> old(out[n..])[k - n] == old(out[k]);
    }

    /** Hand a hook its input and an output buffer. That the two differ is checked at every call. */
    method CallHook(h: Hook, input: array<Symbol>, n: uint16, out: array<Symbol>) returns (outN: uint16)
      requires input != out && n <= input.Length && out.Length == MAX_FRAME_SIZE
      modifies out
      ensures HookResult(out[..], outN) == h(input[..n], old(out[..]))
    {
      ghost var src := input[..n];
      var r := h(input[..n], out[..]);
      forall i | 0 <= i < MAX_FRAME_SIZE {
        out[i] := r.out[i];
      }
      assert out[..] == r.out && input[..n] == src;
      return r.len;
    }

    method StoreFrame(slot: uint16, buf: array<Symbol>, n: uint16) returns (err: Err)
      requires mode == Learning
      requires buf.Length == MAX_FRAME_SIZE
      modifies `slots, `faults
      ensures !(1 <= n <= MAX_FRAME_SIZE) ==> err == InvalidSize && slots == old(slots) && faults == old(faults)
      ensures 1 <= n <= MAX_FRAME_SIZE ==>
        && (err == Ok ==> slots == old(slots)[slot := PaddedFrame(buf[..n])] && faults == old(faults))
        && (err != Ok ==> slots == old(slots) && faults > old(faults))
    {
      if n == 0 || n > MAX_FRAME_SIZE {
        return InvalidSize;
      }
      var ok := StoreCallback(slot, PaddedFrame(buf[..n]));
      return if ok then Ok else Fail;
    }

    /** ir_handle_rx_done: for every capture, options and hook the pipeline on the two mutable buffers
      * stores the specified object or nothing, and ends IDLE with the receiver disabled. */
    method HandleRxDone(num: nat)
      requires Valid()
      modifies rxRaw, scratch, `mode, `learnSlot, `learnOpts, `activeLearnGen, `rxArmed, `slots, `faults
      ensures !old(Fields()).Live() ==>
        && Fields() == old(Fields()) && rxArmed == old(rxArmed) && slots == old(slots) && faults == old(faults)
        && rxRaw[..] == old(rxRaw[..]) && scratch[..] == old(scratch[..])
      ensures faults >= old(faults) && (old(Fields()).Live() ==> !rxArmed)
      ensures old(mode == Learning && activeLearnGen == learnGen) ==>
        mode == Idle && learnSlot == 0 && learnOpts == None && learnGen == old(learnGen)
      ensures old(Fields()).Live() ==>
        var result := LearnResult(old(rxRaw[..]), old(scratch[..]), num, old(learnOpts));
        LearnEnded(result, old(Fields()), old(slots), Fields(), slots, faults > old(faults))
    {
      var slot, opts := learnSlot, learnOpts;
      if mode != Learning || activeLearnGen != learnGen {
        return;
      }
      var n: uint16 := num % 0x1_0000;
      if n > MAX_FRAME_SIZE || !Accepts(opts, n) {
        var _ := DoLearnCancel();
        return;
      }
      var finalBuf, finalN := Process(n, opts);
      if ActiveHook(opts).Some? && (finalN == 0 || finalN > MAX_FRAME_SIZE) {
        var _ := DoLearnCancel();
        return;
      }
      var err := StoreFrame(slot, finalBuf, finalN);
      if err != Ok {
        var _ := DoLearnCancel();
        return;
      }
      RmtDisable();
      FinishToIdle();
    }

    /** The transforming part of the handler: the two buffers take turns as source and destination. */
    method Process(n: uint16, opts: Option<LearnOpts>) returns (finalBuf: array<Symbol>, finalN: uint16)
      requires Valid() && n <= MAX_FRAME_SIZE
      modifies rxRaw, scratch
      ensures finalBuf == rxRaw || finalBuf == scratch
      ensures var src := MaybeInverted(old(rxRaw[..n]), Inverts(opts));
        match ActiveHook(opts)
        case Some(h) =>
          HookResult(finalBuf[..], finalN) == h(src, if Inverts(opts) then old(rxRaw[..]) else old(scratch[..]))
        case None =>
          finalN == n && finalBuf[..n] == src
    {
      var src := rxRaw;
      if Inverts(opts) {
        ApplyInvert(src, scratch, n);
        src := scratch;
      }
      assert src[..n] == MaybeInverted(old(rxRaw[..n]), Inverts(opts));
      finalBuf, finalN := src, n;
      match ActiveHook(opts)
      case Some(h) =>
        var out := if src == scratch then rxRaw else scratch;
        finalN := CallHook(h, src, n, out);
        finalBuf := out;
      case None =>
    }

    // ---------- Sending ----------

    /** ir_load_frame; `ok` and `got` are what the callback answered. */
    method LoadFrame(slot: uint16) returns (err: Err, frame: Frame, ghost ok: bool, ghost got: nat)
      requires mode == Sending
      modifies `faults
      ensures !hasLoad ==> err == InvalidState
      ensures hasLoad && !ok ==> err == NotFound
      ensures hasLoad && ok && got != 260 ==> err == InvalidSize
      ensures hasLoad && ok && got == 260 ==>
        slot in slots && frame == slots[slot] && err == if frame.Valid() then Ok else InvalidSize
      ensures faults >= old(faults)
      ensures faults == old(faults) ==> err == LoadStatus(hasLoad, slots, slot)
    {
      if !hasLoad {
        return InvalidState, NO_FRAME, false, 0;
      }
      var found, size;
      found, frame, size := LoadCallback(slot);
      ok, got := found, size;
      if !found {
        err := NotFound;
      } else if size != FRAME_OBJ_SIZE {
        err := InvalidSize;
      } else if frame.numSyms == 0 || frame.numSyms > MAX_FRAME_SIZE {
        err := InvalidSize;
      } else {
        err := Ok;
      }
    }

    method ApplyCarrierIfNeeded(o: SendOpts) returns (err: Err)
      modifies `faults
      ensures !o.overrideCarrier ==> err == Ok && faults == old(faults)
      ensures !GoodCarrier(o) ==> err == InvalidArg && faults == old(faults)
      ensures GoodCarrier(o) ==> (err == Ok <==> faults == old(faults))
      ensures faults >= old(faults)
    {
      if !o.overrideCarrier {
        return Ok;
      }
      if o.carrierHz == 0 || !(0.0 < o.duty < 1.0) {
        return InvalidArg;
      }
      var ok := DriverAnswers();
      return if ok then Ok else Fail;
    }

    /** A send puts the slot's symbols on the air, in the specified rounds; a failing one stops part-way. */
    method DoSend(slot: uint16, o: SendOpts) returns (err: Err)
      modifies `mode, `air, `unwaited, `faults
      ensures Fields() == old(Fields()) && faults >= old(faults)
      ensures faults == old(faults) ==> err == SendStatus(Fields(), slots, slot, o)
      ensures !old(Fields()).MaySend() ==> err == InvalidState && air == old(air)
      ensures old(air) <= air && SentFits(slots, slot, o, err, air[|old(air)|..])
      ensures err == Ok ==> unwaited == if o.blocking && TotalOf(o) > 0 then 0 else old(unwaited) + TotalOf(o)
      ensures o.blocking ==> unwaited <= old(unwaited) + 1
    {
      if mode == Uninit || mode == Learning || mode == Sending || !hasLoad {
        return InvalidState;
      }
      mode := Sending;
      var frame;
      ghost var answered, got;
      err, frame, answered, got := LoadFrame(slot);
      if err == Ok {
        err := ApplyCarrierIfNeeded(o);
        if err == Ok {
          err := TransmitRounds(frame.Payload(), o);
        }
      }
      mode := Idle;
    }

    method TransmitRounds(symbols: seq<Symbol>, o: SendOpts) returns (err: Err)
      requires mode == Sending
      modifies `air, `unwaited, `faults
      ensures err == Ok <==> faults == old(faults)
      ensures faults >= old(faults)
      ensures err == Ok ==> air == old(air) + Airtime(symbols, o, TotalOf(o), TotalOf(o))
      ensures old(air) <= air <= old(air) + Airtime(symbols, o, TotalOf(o), TotalOf(o))
      ensures err == Ok ==> unwaited == if o.blocking && TotalOf(o) > 0 then 0 else old(unwaited) + TotalOf(o)
      ensures o.blocking ==> unwaited <= old(unwaited) + 1
    {
      var total: uint32 := (1 + o.repeat) % 0x1_0000_0000;
      ghost var start := air;
      for i := 0 to total
        invariant air == start + Airtime(symbols, o, i, total) && faults == old(faults)
        invariant unwaited == if o.blocking && i > 0 then 0 else old(unwaited) + i
      {
        RoundIsOnTheWay(start, symbols, o, i, total);
        var ok := RmtTransmit(symbols);
        if !ok {
          return Fail;
        }
        if o.blocking {
          var done := RmtTxWaitAllDone();
          if !done {
            return Fail;
          }
        }
        if o.gapUs != 0 && i + 1 < total {
          air := air + [Gap((o.gapUs + 999) % 0x1_0000_0000 / 1000)];
        }
      }
      return Ok;
    }

    // ---------- Worker ----------

    /** Draining any number of completions carries out at most one learn, the first one's; the rest change nothing. */
    method DrainRx()
      requires Valid()
      modifies rxRaw, scratch, `mode, `learnSlot, `learnOpts, `activeLearnGen, `rxArmed, `slots, `rxQueue, `faults
      ensures rxQueue == [] && faults >= old(faults)
      ensures old(rxQueue) == [] || !old(Fields()).Live() ==> Fields() == old(Fields()) && slots == old(slots)
      ensures old(rxQueue) != [] && old(Fields()).Live() ==>
        var result := LearnResult(old(rxRaw[..]), old(scratch[..]), old(rxQueue[0]), old(learnOpts));
        LearnEnded(result, old(Fields()), old(slots), Fields(), slots, faults > old(faults))
    {
      if rxQueue == [] {
        return;
      }
      var first := rxQueue[0];
      rxQueue := rxQueue[1..];
      HandleRxDone(first);
      label afterFirst:
      while rxQueue != []
        invariant !Fields().Live() && Fields() == old@afterFirst(Fields())
        invariant slots == old@afterFirst(slots) && faults >= old@afterFirst(faults)
        decreases |rxQueue|
      {
        var num := rxQueue[0];
        rxQueue := rxQueue[1..];
        HandleRxDone(num);
      }
    }

    /** One turn of the worker's loop: every completion first, then at most one command, the oldest. `drained`
      * are the fields in between; `cameInTime` says that a queued command is there before the wait ends. */
    method WorkerTurn(cameInTime: bool) returns (taken: Option<Cmd>, err: Err, ghost drained: Ctx)
      requires Valid() && mode != Sending
      modifies this, rxRaw, scratch
      ensures Valid() && mode != Sending && rxQueue == [] && faults >= old(faults) && old(air) <= air
      ensures old(rxQueue) == [] || !old(Fields()).Live() ==> drained == old(Fields()) && slots == old(slots)
      ensures old(rxQueue) != [] && old(Fields()).Live() ==>
        var result := LearnResult(old(rxRaw[..]), old(scratch[..]), old(rxQueue[0]), old(learnOpts));
        LearnEnded(result, old(Fields()), old(slots), drained, slots, faults > old(faults))
      ensures taken.Some? <==> old(cmdQueue) != [] && cameInTime
      ensures if taken.Some? then taken.value == old(cmdQueue)[0] && cmdQueue == old(cmdQueue)[1..]
              else cmdQueue == old(cmdQueue)
      ensures if taken.None? then Fields() == drained && air == old(air)
              else CarriedOut(taken.value, drained, slots, Fields(), err, air[|old(air)|..], faults > old(faults))
    {
      DrainRx();
      drained, err := Fields(), Ok;
      if cmdQueue == [] || !cameInTime {
        return None, Ok, drained;
      }
      taken := Some(cmdQueue[0]);
      cmdQueue := cmdQueue[1..];
      err := CarryOut(taken.value);
    }

    method CarryOut(cmd: Cmd) returns (err: Err)
      requires mode != Sending
      modifies `mode, `learnSlot, `learnOpts, `learnGen, `activeLearnGen, `rxArmed, `faults, `air, `unwaited
      ensures mode != Sending && faults >= old(faults) && old(air) <= air
      ensures CarriedOut(cmd, old(Fields()), slots, Fields(), err, air[|old(air)|..], faults > old(faults))
    {
      match cmd
      case LearnStart(slot, opts) => err := DoLearnStart(slot, opts);
      case LearnCancel => err := DoLearnCancel();
      case Send(slot, o) => err := DoSend(slot, o);
    }

    // ---------- Receive interrupt and API ----------

    method RxDoneIsr(num: nat)
      modifies `rxQueue, `rxDrops, `rxArmed
      ensures !rxArmed
      ensures |old(rxQueue)| < 4 ==> rxQueue == old(rxQueue) + [num] && rxDrops == old(rxDrops)
      ensures |old(rxQueue)| >= 4 ==> rxQueue == old(rxQueue) && rxDrops == old(rxDrops) + 1
    {
      rxArmed := false;
      if |rxQueue| < RX_QUEUE_DEPTH {
        rxQueue := rxQueue + [num];
      } else {
        rxDrops := rxDrops + 1;
      }
    }

    method Enqueue(cmd: Cmd) returns (err: Err)
      modifies `cmdQueue
      ensures |old(cmdQueue)| < 4 ==> err == Ok && cmdQueue == old(cmdQueue) + [cmd]
      ensures |old(cmdQueue)| >= 4 ==> err == NoMem && cmdQueue == old(cmdQueue)
    {
      if |cmdQueue| >= CMD_QUEUE_DEPTH {
        return NoMem;
      }
      cmdQueue := cmdQueue + [cmd];
      return Ok;
    }

    method LearnStartApi(slot: uint16, opts: Option<LearnOpts>) returns (err: Err)
      modifies `cmdQueue
      ensures err == (if mode != Idle then InvalidState else if |old(cmdQueue)| >= 4 then NoMem else Ok)
      ensures cmdQueue == if err == Ok then old(cmdQueue) + [LearnStart(slot, Clamped(opts))] else old(cmdQueue)
      ensures err == Ok ==>
        var queued := cmdQueue[|cmdQueue| - 1];
        && queued.LearnStart? && queued.slot == slot && (queued.opts.Some? <==> opts.Some?)
        && (opts.Some? ==>
             var o, q := opts.value, queued.opts.value;
             && q.invert == o.invert && q.normalize == o.normalize && q.hook == o.hook
             && q.maxSymbols == (if 1 <= o.maxSymbols <= 64 then o.maxSymbols else 64)
             && q.minSymbols == (if o.minSymbols <= 64 then o.minSymbols else 64))
    {
      if mode == Uninit || mode == Learning || mode == Sending {
        return InvalidState;
      }
      err := Enqueue(LearnStart(slot, Clamped(opts)));
    }

    method LearnCancelApi() returns (err: Err)
      modifies `cmdQueue
      ensures err == (if mode == Uninit then InvalidState else if |old(cmdQueue)| >= 4 then NoMem else Ok)
      ensures cmdQueue == if err == Ok then old(cmdQueue) + [LearnCancel] else old(cmdQueue)
    {
      if mode == Uninit {
        return InvalidState;
      }
      err := Enqueue(LearnCancel);
    }

    method SendApi(slot: uint16, o: SendOpts) returns (err: Err)
      modifies `cmdQueue
      ensures err == (if mode == Uninit || mode == Sending then InvalidState
                      else if |old(cmdQueue)| >= 4 then NoMem else Ok)
      ensures cmdQueue == if err == Ok then old(cmdQueue) + [Send(slot, o)] else old(cmdQueue)
    {
      if mode == Uninit || mode == Sending {
        return InvalidState;
      }
      err := Enqueue(Send(slot, o));
    }
  }
}
