/** Properties of every run of the controller. */
module IrTheorems {
  import opened Common
  import opened Symbols
  import opened LearnPipeline
  import opened IrTypes
  import opened IrProtocol
  import opened IrInvariants
  import opened IrHistory
  import opened IrSendLog
  import opened IrOutcome

  /** On a driver that refuses a receive on a disabled channel, at most one receive is ever accepted. */
  ghost predicate StrictInv(s: State) {
    s.strict ==>
      && |s.rx.learns| <= 1
      && (s.rx.enabled && s.ctx.mode != Learning ==> s.rx.learns == [])
  }

  lemma StepKeepsStrict(s: State, st: Step)
    requires ModeInv(s.ctx, s.pc) && StrictInv(s) && Enabled(s, st)
    ensures StrictInv(Apply(s, st))
  {
    match st
    case Env(e) =>
    case Handler(h) => HandlerKeepsStrict(s, h);
    case Command(c) =>
    case Sending(x) => SendKeepsStrict(s, x);
  }

  lemma HandlerKeepsStrict(s: State, h: HandlerStep)
    requires StrictInv(s) && HandlerEnabled(s, h)
    ensures StrictInv(ApplyHandler(s, h))
  {
  }

  lemma SendKeepsStrict(s: State, x: SendStep)
    requires ModeInv(s.ctx, s.pc) && StrictInv(s) && SendEnabled(s, x)
    ensures StrictInv(ApplySend(s, x))
  {
  }

  ghost predicate Inv(s: State) {
    BaseInv(s) && LearnInv(s) && StoreInv(s) && CommandInv(s) && LogInv(s) && StrictInv(s)
  }

  lemma InitHasInv(s: State)
    requires Init(s)
    ensures Inv(s)
  {
  }

  lemma StepKeepsInv(s: State, st: Step)
    requires Inv(s) && Enabled(s, st)
    ensures Inv(Apply(s, st))
  {
    StepKeepsStrict(s, st);
    match st
    case Env(e) => EnvKeepsInv(s, e);
    case Handler(h) => HandlerKeepsInv(s, h);
    case Command(c) => CmdKeepsInv(s, c);
    case Sending(x) => SendKeepsInv(s, x);
  }

  lemma EnvKeepsInv(s: State, e: EnvStep)
    requires Inv(s) && EnvEnabled(s, e) && StrictInv(ApplyEnv(s, e))
    ensures Inv(ApplyEnv(s, e))
  {
    EnvKeepsBase(s, e);
    EnvKeepsLearn(s, e);
    EnvKeepsStores(s, e);
    EnvKeepsCommands(s, e);
    EnvKeepsLog(s, e);
  }

  lemma HandlerKeepsInv(s: State, h: HandlerStep)
    requires Inv(s) && HandlerEnabled(s, h) && StrictInv(ApplyHandler(s, h))
    ensures Inv(ApplyHandler(s, h))
  {
    HandlerKeepsBase(s, h);
    HandlerKeepsLearn(s, h);
    HandlerKeepsStores(s, h);
    HandlerKeepsCommands(s, h);
    HandlerKeepsLog(s, h);
  }

  lemma CmdKeepsInv(s: State, c: CmdStep)
    requires Inv(s) && CmdEnabled(s, c) && StrictInv(ApplyCmd(s, c))
    ensures Inv(ApplyCmd(s, c))
  {
    CmdKeepsBase(s, c);
    CmdKeepsLearn(s, c);
    CmdKeepsStores(s, c);
    CmdKeepsCommands(s, c);
    CmdKeepsLog(s, c);
  }

  lemma SendKeepsInv(s: State, x: SendStep)
    requires Inv(s) && SendEnabled(s, x) && StrictInv(ApplySend(s, x))
    ensures Inv(ApplySend(s, x))
  {
    SendKeepsBase(s, x);
    SendKeepsLearn(s, x);
    SendKeepsStores(s, x);
    SendKeepsCommands(s, x);
    SendKeepsLog(s, x);
  }

  lemma {:induction false} RunKeepsInv(s0: State, run: seq<Step>)
    requires Init(s0) && After(s0, run).Some?
    ensures Inv(After(s0, run).value)
  {
    if run == [] {
      InitHasInv(s0);
    } else {
      RunKeepsInv(s0, run[..|run| - 1]);
      StepKeepsInv(After(s0, run[..|run| - 1]).value, run[|run| - 1]);
    }
  }

  /** No stale capture. In every run, a frame in a slot was captured by the receive that the very learn start
    * choosing that slot (and those options) had armed, processed as the options say; and no two stores come
    * from one learn start. */
  lemma {:induction false} NoStaleCapture(s0: State, run: seq<Step>, k: nat)
    requires Init(s0) && After(s0, run).Some?
    requires var trace := After(s0, run).value.log.trace; k < |trace| && trace[k].Store?
    ensures var s := After(s0, run).value;
      var e := s.log.trace[k];
      && e.learn < |s.rx.learns|
      && var l := s.rx.learns[e.learn];
      && l.cmd < |s.cmds.taken| && s.cmds.taken[l.cmd] == LearnStart(e.slot, l.opts)
      && l.capture.Some?
      && LearnResult(l.capture.value.raw, l.scratch, l.capture.value.num, l.opts) == Some(e.frame)
    ensures var s := After(s0, run).value;
      forall j :: 0 <= j < k && s.log.trace[j].Store? ==>
        && s.log.trace[j].learn < |s.rx.learns|
        && s.rx.learns[s.log.trace[j].learn].cmd < s.rx.learns[s.log.trace[k].learn].cmd
  {
    RunKeepsInv(s0, run);
    var s := After(s0, run).value;
    forall j | 0 <= j < k && s.log.trace[j].Store?
      ensures s.log.trace[j].learn < |s.rx.learns|
      ensures s.rx.learns[s.log.trace[j].learn].cmd < s.rx.learns[s.log.trace[k].learn].cmd
    {
      assert FreshStore(s.log.trace[j], s.rx.learns);
    }
  }

  lemma {:induction false} OutcomesOfRun(s0: State, run: seq<Step>)
    requires Init(s0) && After(s0, run).Some?
    ensures OutcomeInv(After(s0, run).value)
  {
    if run != [] {
      OutcomesOfRun(s0, run[..|run| - 1]);
      RunKeepsInv(s0, run[..|run| - 1]);
      StepKeepsOutcomes(After(s0, run[..|run| - 1]).value, run[|run| - 1]);
    }
  }

  lemma StepKeepsOutcomes(s: State, st: Step)
    requires Basis(s) && OutcomeInv(s) && Enabled(s, st)
    ensures OutcomeInv(Apply(s, st))
  {
    match st
    case Env(e) => EnvKeepsOutcome(s, e);
    case Handler(h) => HandlerKeepsOutcome(s, h);
    case Command(c) => CmdKeepsOutcome(s, c);
    case Sending(x) => SendKeepsOutcome(s, x);
  }

  /** The latest capture is in the queue, or the handler has not decided on it yet. */
  predicate Waiting(s: State, i: nat) {
    s.ctx.mode == Learning && i == |s.rx.learns| - 1
    && (s.rx.queue != [] || (s.pc.Handling() && !s.pc.RxFinishing? && !s.pc.RxCancelling?))
  }

  predicate IsStored(trace: seq<Event>, e: Event) {
    exists k :: 0 <= k < |trace| && trace[k] == e
  }

  /** No capture is lost, the converse of NoStaleCapture. In every run, a completed capture that is to be stored
    * meets exactly one of four fates: it is still waiting, or it was stored as it should be in the slot of its
    * learn, or the store callback failed for it, or a cancel command taken after its learn start ended the learn. */
  lemma {:induction false} NoLostCapture(s0: State, run: seq<Step>, i: nat)
    requires Init(s0) && After(s0, run).Some?
    requires var learns := After(s0, run).value.rx.learns;
      i < |learns| && learns[i].capture.Some? && Result(learns[i]).Some?
    ensures var s := After(s0, run).value; var l := s.rx.learns[i];
      && (IsStored(s.log.trace, Store(l.slot, Result(l).value, i))
          <==> !Waiting(s, i) && i !in s.rx.failed && i !in s.rx.cancelled)
      && (i in s.rx.failed ==> !Waiting(s, i) && i !in s.rx.cancelled)
      && (i in s.rx.cancelled ==>
           && !Waiting(s, i) && l.cmd < s.rx.cancelled[i] < |s.cmds.taken|
           && s.cmds.taken[s.rx.cancelled[i]] == LearnCancel)
  {
    RunKeepsInv(s0, run);
    OutcomesOfRun(s0, run);
    FateOfCapture(After(s0, run).value, i);
  }

  lemma FateOfCapture(s: State, i: nat)
    requires BaseInv(s) && LearnInv(s) && StoreInv(s) && OutcomeInv(s)
    requires i < |s.rx.learns| && s.rx.learns[i].capture.Some? && Result(s.rx.learns[i]).Some?
    ensures var l := s.rx.learns[i]; var stored := IsStored(s.log.trace, Store(l.slot, Result(l).value, i));
      && (stored <==> HasStore(s.log.trace, i))
      && (Waiting(s, i) <==> i >= Decided(s.ctx, s.pc, |s.rx.learns|))
      && OutcomeOf(s, i)
  {
    StoredAsResult(s, i);
    assert OutcomeOf(s, i);
  }

  lemma StoredAsResult(s: State, i: nat)
    requires StoreInv(s)
    requires i < |s.rx.learns| && s.rx.learns[i].capture.Some? && Result(s.rx.learns[i]).Some?
    ensures var l := s.rx.learns[i];
      IsStored(s.log.trace, Store(l.slot, Result(l).value, i)) <==> HasStore(s.log.trace, i)
  {
    HasStoreIff(s.log.trace, i);
    var l := s.rx.learns[i];
    forall k | 0 <= k < |s.log.trace| && s.log.trace[k].Store? && s.log.trace[k].learn == i
      ensures s.log.trace[k] == Store(l.slot, Result(l).value, i)
    {
      assert FreshStore(s.log.trace[k], s.rx.learns);
    }
  }

  /** At most one capture is outstanding at any time, so the completion queue never fills and nothing is dropped. */
  lemma {:induction false} SingleOutstandingCapture(s0: State, run: seq<Step>)
    requires Init(s0) && After(s0, run).Some?
    ensures var s := After(s0, run).value;
      |s.rx.armed| + |s.rx.queue| + (if s.pc.Handling() then 1 else 0) <= 1 && s.rx.drops == 0
  {
    RunKeepsInv(s0, run);
  }

  /** The generation comparison never fails, through every 16-bit wrap-around: a handler that saw LEARNING
    * finds the two counters equal. */
  lemma {:induction false} GenerationsAgree(s0: State, run: seq<Step>)
    requires Init(s0) && After(s0, run).Some?
    ensures var s := After(s0, run).value;
      && (s.ctx.mode == Learning && !s.pc.LearnArmed? ==> s.ctx.activeGen == s.ctx.gen)
      && (s.pc.RxSnapshot? ==> !ApplyHandler(s, Validate).pc.Drain?)
  {
    RunKeepsInv(s0, run);
  }

  /** The slot and options copied under the lock are still the shared ones when the frame is stored and when
    * the state is committed; stores happen only in LEARNING and transmissions only in SENDING; and at its
    * loop head the worker is never in SENDING. */
  lemma {:induction false} ModesAndSnapshots(s0: State, run: seq<Step>)
    requires Init(s0) && After(s0, run).Some?
    ensures var s := After(s0, run).value;
      && (s.pc.RxStoring? ==> s.ctx.mode == Learning && s.pc.slot == s.ctx.slot)
      && (s.pc.RxInverting? || s.pc.RxHook? ==>
           s.ctx.mode == Learning && s.pc.slot == s.ctx.slot && s.pc.opts == s.ctx.opts)
      && (s.pc.RxFinishing? || s.pc.RxCancelling? ==> s.ctx.mode == Learning)
      && (s.pc.SendRound? || s.pc.SendWaiting? ==> s.ctx.mode == Mode.Sending)
      && (s.pc.Drain? || s.pc.TakeCmd? ==> s.ctx.mode == Idle || s.ctx.mode == Learning)
  {
    RunKeepsInv(s0, run);
  }

  /** Accepted commands are taken in order and at most once, from a queue that holds at most four. */
  lemma {:induction false} CommandsInOrder(s0: State, run: seq<Step>)
    requires Init(s0) && After(s0, run).Some?
    ensures var c := After(s0, run).value.cmds;
      c.taken <= c.accepted && c.accepted[|c.taken|..] == c.queue && |c.queue| <= CMD_QUEUE_DEPTH
  {
    RunKeepsInv(s0, run);
    var c := After(s0, run).value.cmds;
    assert c.accepted == c.taken + c.queue;
  }

  lemma {:induction false} LogOfRun(s0: State, run: seq<Step>)
    requires Init(s0) && After(s0, run).Some?
    ensures var log := After(s0, run).value.log;
      log.slots == SlotsAfter(log.slots0, log.trace) && TraceOk(log.slots0, log.trace)
  {
    RunKeepsInv(s0, run);
  }

  /** Learn, then replay. In every run the store is the map its stores make of it, and every event follows
    * from those before it: each transmission carries exactly what the slot of the running send holds at that
    * moment and continues the send's pattern, and a successful send ends after its whole pattern. */
  lemma {:induction false} ReplayIsFaithful(s0: State, run: seq<Step>, k: nat)
    requires Init(s0) && After(s0, run).Some?
    requires k < |After(s0, run).value.log.trace|
    ensures var log := After(s0, run).value.log;
      && log.slots == SlotsAfter(log.slots0, log.trace)
      && Follows(SlotsAfter(log.slots0, log.trace[..k]), OpenSend(log.trace[..k]), log.trace[k])
  {
    LogOfRun(s0, run);
    var log := After(s0, run).value.log;
    TraceOkAt(log.slots0, log.trace, k);
  }

  /** However a send goes on, fails or ends, at every moment of every run what it has put on the air is a
    * beginning of its pattern, and so at most repeat+1 transmissions. */
  lemma {:induction false} SendsAreBounded(s0: State, run: seq<Step>, k: nat)
    requires Init(s0) && After(s0, run).Some?
    requires var t := After(s0, run).value.log.trace; k <= |t| && OpenSend(t[..k]).Some?
    ensures var log := After(s0, run).value.log;
      var u := OpenSend(log.trace[..k]).value;
      && u.begin < k && log.trace[u.begin] == SendBegin(u.slot, u.o) && u.sent == log.trace[u.begin + 1..k]
      && u.sent <= Pattern(SlotsAfter(log.slots0, log.trace[..k]), u.slot, u.o)
      && Transmissions(u.sent) <= TotalOf(u.o)
  {
    LogOfRun(s0, run);
    var log := After(s0, run).value.log;
    OpenIsBounded(log.slots0, log.trace, k);
  }

  lemma OpenIsBounded(slots0: Slots, trace: seq<Event>, k: nat)
    requires TraceOk(slots0, trace) && k <= |trace| && OpenSend(trace[..k]).Some?
    ensures var u := OpenSend(trace[..k]).value;
      && u.begin < k && trace[u.begin] == SendBegin(u.slot, u.o) && u.sent == trace[u.begin + 1..k]
      && u.sent <= Pattern(SlotsAfter(slots0, trace[..k]), u.slot, u.o)
      && Transmissions(u.sent) <= TotalOf(u.o)
  {
    var t := trace[..k];
    if k < |trace| {
      TraceOkAt(slots0, trace, k);
    } else {
      assert t == trace;
    }
    OpenSendIsPrefix(slots0, t);
    var u := OpenAt(trace, k);
    PatternTransmits(SlotsAfter(slots0, t), u.slot, u.o);
    PrefixTransmitsLess(u.sent, Pattern(SlotsAfter(slots0, t), u.slot, u.o));
  }

  lemma PatternTransmits(slots: Slots, slot: uint16, o: SendOpts)
    ensures Transmissions(Pattern(slots, slot, o)) <= TotalOf(o)
  {
    if Sendable(slots, slot).Some? && GoodCarrier(o) {
      AirtimeCounts(Sendable(slots, slot).value, o, TotalOf(o), TotalOf(o));
    }
  }

  /** The worker's next step, if the call it makes there answers `ok`, as far as it can. */
  function WorkerStep(s: State, ok: bool): Step {
    match s.pc
    case Drain => Handler(if s.rx.queue != [] then RxTake else RxNone)
    case RxTaken(_) => Handler(Snapshot)
    case RxSnapshot(_, _, _) => Handler(Validate)
    case RxInverting(_, _, _, _) => Handler(Invert)
    case RxHook(_, _, _, _, _) => Handler(RunHook)
    case RxStoring(_, _, _, _) => Handler(StoreCall(ok))
    case RxFinishing(_) => Handler(Finish)
    case RxCancelling(_) => Handler(Reject)
    case TakeCmd => Command(if s.cmds.queue != [] then CmdTake else CmdTimeout)
    case LearnEntered(_, _) => Command(LearnBegin(ok && (s.strict ==> s.rx.enabled)))
    case LearnArmed => Command(AdvanceGen)
    case CancelEntered => Command(Cancel)
    case SendEntered(_, _) => Step.Sending(BeginSend)
    case SendLoading(slot, _, _) => Step.Sending(Load(ok && slot in s.log.slots))
    case SendCarrier(_, o, _, _) => Step.Sending(Carrier(ok && GoodCarrier(o)))
    case SendRound(_, _, _, _, _) => Step.Sending(Round(ok))
    case SendWaiting(_, _, _, _, _) => Step.Sending(Wait(ok))
    case SendEnding(_, _) => Step.Sending(FinishSend)
  }

  /** The worker is never stuck: in every run it can go on, whether the call it makes next works or fails. */
  lemma {:induction false} NeverStuck(s0: State, run: seq<Step>, ok: bool)
    requires Init(s0) && After(s0, run).Some?
    ensures var s := After(s0, run).value; Enabled(s, WorkerStep(s, ok))
  {
    RunKeepsInv(s0, run);
    WorkerCanGoOn(After(s0, run).value, ok);
  }

  lemma WorkerCanGoOn(s: State, ok: bool)
    requires CommandInv(s) && LogInv(s)
    ensures Enabled(s, WorkerStep(s, ok))
  {
  }

  /** Nor is anyone else held up, or let through, where the code does otherwise: an API call passes its check
    * exactly by the mode, and a receive can complete exactly if it is armed. */
  lemma {:induction false} OthersMayDo(s0: State, run: seq<Step>, caller: nat, request: Cmd,
                                       k: nat, raw: Buffer, num: nat)
    requires Init(s0) && After(s0, run).Some?
    ensures var s := After(s0, run).value;
      && (EnvEnabled(s, Isr(k, raw, num)) <==> k < |s.rx.armed|)
      && (EnvEnabled(s, HwWrite(raw)) <==> |s.rx.armed| > 0)
      && (EnvEnabled(s, ApiEnqueue(caller)) <==> caller in s.cmds.callers)
      && (EnvEnabled(s, ApiCheck(caller, request)) <==>
           && !s.pc.LearnArmed? && caller !in s.cmds.callers
           && (match request
               case LearnStart(_, _) => s.ctx.mode == Idle
               case LearnCancel => true
               case Send(_, _) => s.ctx.mode != Mode.Sending))
  {
    RunKeepsInv(s0, run);
    ArmedAreKnown(After(s0, run).value);
    ModeIsSet(After(s0, run).value);
  }

  lemma ModeIsSet(s: State)
    requires BaseInv(s)
    ensures s.ctx.mode != Uninit
  {
  }

  /** What a slot holds is what was last stored in it. */
  lemma {:induction false} SlotHoldsLastStore(slots0: Slots, trace: seq<Event>, j: nat)
    requires j < |trace| && trace[j].Store?
    requires forall k :: j < k < |trace| && trace[k].Store? ==> trace[k].slot != trace[j].slot
    ensures trace[j].slot in SlotsAfter(slots0, trace) && SlotsAfter(slots0, trace)[trace[j].slot] == trace[j].frame
  {
    if j < |trace| - 1 {
      SlotHoldsLastStore(slots0, trace[..|trace| - 1], j);
    }
  }

  /** A frame learned into a slot and not overwritten is what every later send of that slot transmits. */
  lemma {:induction false} LearnedFrameIsTransmitted(s0: State, run: seq<Step>, j: nat, k: nat)
    requires Init(s0) && After(s0, run).Some?
    requires var t := After(s0, run).value.log.trace;
      && j < k < |t| && t[j].Store? && t[k].Transmit?
      && OpenSend(t[..k]).Some? && OpenSend(t[..k]).value.slot == t[j].slot
      && (forall i :: j < i < k && t[i].Store? ==> t[i].slot != t[j].slot)
    ensures var t := After(s0, run).value.log.trace;
      t[j].frame.Valid() && t[k].symbols == t[j].frame.Payload()
  {
    var log := After(s0, run).value.log;
    ReplayIsFaithful(s0, run, k);
    SlotHoldsLastStore(log.slots0, log.trace[..k], j);
  }

  /** A send that ended well transmitted the slot's symbols repeat+1 times with repeat pauses (when a gap was
    * asked for), except that repeat = 2^32-1 transmits nothing. */
  lemma {:induction false} CompleteSendTransmits(s0: State, run: seq<Step>, k: nat)
    requires Init(s0) && After(s0, run).Some?
    requires var t := After(s0, run).value.log.trace; k < |t| && t[k].SendEnd? && t[k].ok
    ensures CompleteAt(After(s0, run).value.log.trace, k)
  {
    LogOfRun(s0, run);
    var log := After(s0, run).value.log;
    EndedSendIsComplete(log.slots0, log.trace, k);
  }

  lemma EndedSendIsComplete(slots0: Slots, trace: seq<Event>, k: nat)
    requires TraceOk(slots0, trace) && k < |trace| && trace[k].SendEnd? && trace[k].ok
    ensures CompleteAt(trace, k)
  {
    TraceOkAt(slots0, trace, k);
    GoodEnd(SlotsAfter(slots0, trace[..k]), OpenSend(trace[..k]), trace[k]);
    SinceBegin(trace, k);
  }

  /** The event at k ends a send that has been complete since its beginning. */
  predicate CompleteAt(trace: seq<Event>, k: nat)
    requires k < |trace| && trace[k].SendEnd?
  {
    var b := trace[k].begin;
    b < k && trace[b].SendBegin? && CompleteCounts(trace[b].sendOpts, trace[b + 1..k])
  }

  lemma SinceBegin(trace: seq<Event>, k: nat)
    requires k < |trace| && trace[k].SendEnd? && OpenSend(trace[..k]).Some?
    requires var u := OpenSend(trace[..k]).value; trace[k].begin == u.begin && CompleteCounts(u.o, u.sent)
    ensures CompleteAt(trace, k)
  {
    var u := OpenAt(trace, k);
  }

  lemma OpenAt(trace: seq<Event>, k: nat) returns (u: Open)
    requires k <= |trace| && OpenSend(trace[..k]).Some?
    ensures OpenSend(trace[..k]) == Some(u)
    ensures u.begin < k && trace[u.begin] == SendBegin(u.slot, u.o) && u.sent == trace[u.begin + 1..k]
  {
    var t := trace[..k];
    OpenSendIsSlice(t);
    u := OpenSend(t).value;
    assert t[u.begin + 1..] == trace[u.begin + 1..k];
  }

  /** repeat+1 transmissions with repeat pauses, if a gap was asked for; none at all for repeat = 2^32-1. */
  predicate CompleteCounts(o: SendOpts, sent: seq<Event>) {
    && Transmissions(sent) == (if o.repeat == 0xFFFF_FFFF then 0 else o.repeat + 1)
    && Pauses(sent) == (if o.repeat == 0xFFFF_FFFF || o.gapUs == 0 then 0 else o.repeat)
  }

  lemma GoodEnd(slots: Slots, open: Option<Open>, e: Event)
    requires Follows(slots, open, e) && e.SendEnd? && e.ok
    ensures open.Some? && e.begin == open.value.begin && CompleteCounts(open.value.o, open.value.sent)
  {
    CompleteSendCounts(Sendable(slots, open.value.slot).value, open.value.o);
  }

  /** With a driver that refuses a receive on a disabled channel, at most one learn per initialisation is ever
    * armed: every learn ends by disabling the channel, and only initialisation enables it. */
  lemma {:induction false} OneLearnPerInit(s0: State, run: seq<Step>)
    requires Init(s0) && s0.strict && After(s0, run).Some?
    ensures |After(s0, run).value.rx.learns| <= 1
  {
    RunKeepsInv(s0, run);
    StrictIsConstant(s0, run);
  }

  lemma Extend(s0: State, run: seq<Step>, st: Step)
    requires After(s0, run).Some? && Enabled(After(s0, run).value, st)
    ensures After(s0, run + [st]) == Some(Apply(After(s0, run).value, st))
  {
    assert (run + [st])[..|run|] == run;
  }

  /** Between two learns, with nothing else going on. */
  ghost predicate Quiet(s: State) {
    && !s.strict && s.ctx.hasStore && s.ctx.mode == Idle && s.pc.Drain?
    && s.cmds.queue == [] && s.cmds.callers == map[] && s.rx.queue == [] && s.rx.armed == []
  }

  /** A caller's request goes through the queue to the worker. */
  lemma Submit(s0: State, run: seq<Step>, request: Cmd) returns (run': seq<Step>)
    requires After(s0, run).Some?
    requires var s := After(s0, run).value;
      s.pc.Drain? && s.cmds.queue == [] && s.cmds.callers == map[] && s.rx.queue == [] && ApiAllows(s.ctx, request)
    ensures After(s0, run').Some?
    ensures var s, t := After(s0, run).value, After(s0, run').value;
      t == s.(pc := Entry(Accept(request)), cmds := t.cmds)
      && t.cmds.queue == [] && t.cmds.callers == map[] && t.cmds.taken != []
  {
    Extend(s0, run, Env(ApiCheck(0, request)));
    run' := run + [Env(ApiCheck(0, request))];
    Extend(s0, run', Env(ApiEnqueue(0)));
    run' := run' + [Env(ApiEnqueue(0))];
    Extend(s0, run', Handler(RxNone));
    run' := run' + [Handler(RxNone)];
    Extend(s0, run', Command(CmdTake));
    run' := run' + [Command(CmdTake)];
  }

  lemma LearnOnce(s0: State, run: seq<Step>) returns (run': seq<Step>)
    requires After(s0, run).Some? && Quiet(After(s0, run).value)
    ensures After(s0, run').Some?
    ensures var s, t := After(s0, run).value, After(s0, run').value;
      t.pc.Drain? && t.ctx.mode == Learning && t.rx.armed == [|s.rx.learns|] && |t.rx.learns| == |s.rx.learns| + 1
      && t.strict == s.strict && t.ctx.hasStore == s.ctx.hasStore
      && t.cmds.queue == [] && t.cmds.callers == map[] && t.rx.queue == []
  {
    run' := Submit(s0, run, LearnStart(0, None));
    Extend(s0, run', Command(LearnBegin(true)));
    run' := run' + [Command(LearnBegin(true))];
    Extend(s0, run', Command(AdvanceGen));
    run' := run' + [Command(AdvanceGen)];
  }

  /** A driver that does not refuse: any number of learns can be armed, here one after the other cancelled. */
  lemma {:induction false} LenientDriverArmsAgain(s0: State, n: nat) returns (run: seq<Step>)
    requires Init(s0) && !s0.strict && s0.ctx.hasStore
    ensures After(s0, run).Some?
    ensures var s := After(s0, run).value; Quiet(s) && |s.rx.learns| == n
  {
    run := [];
    if n > 0 {
      run := LenientDriverArmsAgain(s0, n - 1);
      run := LearnOnce(s0, run);
      run := Submit(s0, run, LearnCancel);
      Extend(s0, run, Command(Cancel));
      run := run + [Command(Cancel)];
    }
  }

  lemma {:induction false} StrictIsConstant(s0: State, run: seq<Step>)
    requires After(s0, run).Some?
    ensures After(s0, run).value.strict == s0.strict
  {
    if run != [] {
      StrictIsConstant(s0, run[..|run| - 1]);
      StepKeepsSetting(After(s0, run[..|run| - 1]).value, run[|run| - 1]);
    }
  }

  lemma StepKeepsSetting(s: State, st: Step)
    requires Enabled(s, st)
    ensures Apply(s, st).strict == s.strict
  {
  }

  /** The guards that only keep the histories well defined exclude nothing: in a reachable state they hold. */
  lemma {:induction false} HistoryGuardsHold(s0: State, run: seq<Step>)
    requires Init(s0) && After(s0, run).Some?
    ensures var s := After(s0, run).value;
      && (forall k :: 0 <= k < |s.rx.armed| ==> s.rx.armed[k] < |s.rx.learns|)
      && (s.pc.LearnEntered? ==> s.cmds.taken != [])
      && (s.pc.SendRound? ==> s.pc.frame.Valid())
  {
    RunKeepsInv(s0, run);
    ArmedAreKnown(After(s0, run).value);
  }

  lemma ArmedAreKnown(s: State)
    requires BaseInv(s) && LearnInv(s)
    ensures forall k :: 0 <= k < |s.rx.armed| ==> s.rx.armed[k] < |s.rx.learns|
  {
  }

  /** A command as the API queues it: a learn start's bounds lie in 1..64 and 0..64. */
  predicate Clamps(cmd: Cmd) {
    cmd.LearnStart? && cmd.opts.Some? ==>
      1 <= cmd.opts.value.maxSymbols <= MAX_FRAME_SIZE && cmd.opts.value.minSymbols <= MAX_FRAME_SIZE
  }

  ghost predicate ClampInv(c: Commands) {
    && (forall t :: t in c.callers ==> Clamps(c.callers[t]))
    && (forall i :: 0 <= i < |c.queue| ==> Clamps(c.queue[i]))
    && (forall i :: 0 <= i < |c.taken| ==> Clamps(c.taken[i]))
  }

  lemma EnvKeepsClamps(s: State, e: EnvStep)
    requires ClampInv(s.cmds) && EnvEnabled(s, e)
    ensures ClampInv(ApplyEnv(s, e).cmds)
  {
  }

  lemma CmdKeepsClamps(s: State, c: CmdStep)
    requires ClampInv(s.cmds) && CmdEnabled(s, c)
    ensures ClampInv(ApplyCmd(s, c).cmds)
  {
    if !c.CmdTake? {
      assert ApplyCmd(s, c).cmds == s.cmds;
    }
  }

  lemma StepKeepsClamps(s: State, st: Step)
    requires ClampInv(s.cmds) && Enabled(s, st)
    ensures ClampInv(Apply(s, st).cmds)
  {
    match st
    case Env(e) => EnvKeepsClamps(s, e);
    case Handler(h) => assert ApplyHandler(s, h).cmds == s.cmds;
    case Command(c) => CmdKeepsClamps(s, c);
    case Sending(x) => assert ApplySend(s, x).cmds == s.cmds;
  }

  /** Whatever options callers pass, every command the worker takes has its bounds clamped. */
  lemma {:induction false} TakenCommandsAreClamped(s0: State, run: seq<Step>)
    requires Init(s0) && After(s0, run).Some?
    ensures ClampInv(After(s0, run).value.cmds)
  {
    if run != [] {
      TakenCommandsAreClamped(s0, run[..|run| - 1]);
      StepKeepsClamps(After(s0, run[..|run| - 1]).value, run[|run| - 1]);
    }
  }
}
