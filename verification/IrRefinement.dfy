/** The worker's small steps, taken together, are what the worker's methods promise, whatever API callers, the
  * hardware and the interrupt do in between. */
module IrRefinement {
  import opened Common
  import opened Symbols
  import opened LearnPipeline
  import opened IrTypes
  import opened IrProtocol
  import opened IrInvariants
  import opened IrSendLog

  // ---------- The completion handler ----------

  /** The worker runs from inside the handler to its end; `ok` is the store callback's answer. */
  function RunHandler(s: State, ok: bool): State
    decreases Remaining(s.pc)
  {
    if s.pc.Handling() then RunHandler(ApplyHandler(s, NextInHandler(s.pc, ok)), ok) else s
  }

  function NextInHandler(pc: Pc, ok: bool): HandlerStep
    requires pc.Handling()
  {
    match pc
    case RxTaken(_) => Snapshot
    case RxSnapshot(_, _, _) => Validate
    case RxInverting(_, _, _, _) => Invert
    case RxHook(_, _, _, _, _) => RunHook
    case RxStoring(_, _, _, _) => StoreCall(ok)
    case RxFinishing(_) => Finish
    case RxCancelling(_) => Reject
  }

  function Remaining(pc: Pc): nat {
    match pc
    case RxTaken(_) => 6
    case RxSnapshot(_, _, _) => 5
    case RxInverting(_, _, _, _) => 4
    case RxHook(_, _, _, _, _) => 3
    case RxStoring(_, _, _, _) => 2
    case RxFinishing(_) => 1
    case RxCancelling(_) => 1
    case _ => 0
  }

  /** The end of a live completion whose outcome is `result`. */
  ghost predicate Concluded(s: State, slot: uint16, result: Option<Frame>, ok: bool, t: State)
    requires s.pc.Handling()
  {
    && t.pc.Drain? && t.rx.armed == []
    && (if result.Some? && ok
        then t.log.slots == s.log.slots[slot := result.value] && t.ctx == s.ctx.Finished()
             && t.log.trace == s.log.trace + [Store(slot, result.value, s.pc.ev.learn)]
        else t.log == s.log && t.ctx == s.ctx.Cancelled())
  }

  lemma LastStepOfHandler(s: State, ok: bool)
    requires s.pc.RxFinishing? || s.pc.RxCancelling?
    ensures RunHandler(s, ok) == ApplyHandler(s, NextInHandler(s.pc, ok))
  {
    assert !ApplyHandler(s, NextInHandler(s.pc, ok)).pc.Handling();
  }

  lemma StoringConcludes(s: State, ok: bool)
    requires s.pc.RxStoring? && s.ctx.mode == Learning
    ensures Concluded(s, s.pc.slot, FinalFrame(s.rx, s.pc.inScratch, s.pc.finalN), ok, RunHandler(s, ok))
  {
    var t := ApplyHandler(s, StoreCall(ok));
    assert RunHandler(s, ok) == RunHandler(t, ok);
    LastStepOfHandler(t, ok);
  }

  lemma HookConcludes(s: State, ok: bool)
    requires s.pc.RxHook? && s.ctx.mode == Learning
    ensures Concluded(s, s.pc.slot, PlannedHook(s.rx, s.pc.opts, s.pc.n, s.pc.inScratch), ok, RunHandler(s, ok))
  {
    var t := ApplyHandler(s, RunHook);
    assert RunHandler(s, ok) == RunHandler(t, ok);
    if t.pc.RxStoring? {
      StoringConcludes(t, ok);
    } else {
      LastStepOfHandler(t, ok);
    }
  }

  lemma InvertingConcludes(s: State, ok: bool)
    requires s.pc.RxInverting? && s.ctx.mode == Learning
    requires s.pc.n == SeenCount(s.pc.ev.num) && Accepts(s.pc.opts, s.pc.n)
    ensures Concluded(s, s.pc.slot, LearnResult(s.rx.raw, s.rx.scratch, s.pc.ev.num, s.pc.opts), ok, RunHandler(s, ok))
  {
    var t := ApplyHandler(s, Invert);
    var n, opts := s.pc.n, s.pc.opts;
    assert RunHandler(s, ok) == RunHandler(t, ok);
    HookConcludes(t, ok);
    assert (if Inverts(opts) then t.rx.scratch else t.rx.raw)[..n] == MaybeInverted(s.rx.raw[..n], Inverts(opts));
    assert PlannedHook(t.rx, opts, n, Inverts(opts)) == LearnResult(s.rx.raw, s.rx.scratch, s.pc.ev.num, opts);
  }

  /** Undisturbed, from taking a completion to the end of the handler. */
  lemma RunHandlerConcludes(s: State, ok: bool)
    requires s.pc.RxTaken?
    ensures !s.ctx.Live() ==> RunHandler(s, ok) == s.(pc := Drain)
    ensures s.ctx.Live() ==>
      Concluded(s, s.ctx.slot, LearnResult(s.rx.raw, s.rx.scratch, s.pc.ev.num, s.ctx.opts), ok, RunHandler(s, ok))
  {
    var t := ApplyHandler(s, Snapshot);
    assert RunHandler(s, ok) == RunHandler(t, ok);
    if s.ctx.mode == Learning {
      var u := ApplyHandler(t, Validate);
      assert RunHandler(t, ok) == RunHandler(u, ok);
      if u.pc.RxInverting? {
        InvertingConcludes(u, ok);
      } else if u.pc.RxCancelling? {
        LastStepOfHandler(u, ok);
      }
    }
  }

  /** With nothing armed, the rest of the system can do no more than change the commands. */
  lemma EnvOnlyCommands(s: State, e: EnvStep)
    requires s.rx.armed == [] && EnvEnabled(s, e)
    ensures ApplyEnv(s, e) == s.(cmds := ApplyEnv(s, e).cmds)
  {
  }

  lemma HandlerStepIgnoresCommands(s: State, c: Commands, h: HandlerStep)
    requires HandlerEnabled(s, h)
    ensures ApplyHandler(s.(cmds := c), h) == ApplyHandler(s, h).(cmds := c)
  {
  }

  lemma {:induction false} HandlerIgnoresCommands(s: State, c: Commands, ok: bool)
    ensures RunHandler(s.(cmds := c), ok) == RunHandler(s, ok).(cmds := c)
    decreases Remaining(s.pc)
  {
    if s.pc.Handling() {
      var h := NextInHandler(s.pc, ok);
      HandlerStepIgnoresCommands(s, c, h);
      HandlerIgnoresCommands(ApplyHandler(s, h), c, ok);
    }
  }

  /** Steps inside the handler, and those of everyone else. */
  predicate DuringHandler(st: Step, ok: bool) {
    match st
    case Env(_) => true
    case Handler(h) => !h.RxTake? && !h.RxNone? && (h.StoreCall? ==> h.ok == ok)
    case _ => false
  }

  /** The handler's outcome is settled from the start: no step changes it, but for the commands. */
  lemma {:induction false} HandlerOutcomeIsSettled(s: State, run: seq<Step>, ok: bool)
    requires s.rx.armed == [] && After(s, run).Some?
    requires forall i :: 0 <= i < |run| ==> DuringHandler(run[i], ok)
    ensures var t := After(s, run).value;
      t.rx.armed == [] && RunHandler(t, ok) == RunHandler(s, ok).(cmds := t.cmds)
  {
    if run == [] {
      HandlerIgnoresCommands(s, s.cmds, ok);
    } else {
      HandlerOutcomeIsSettled(s, run[..|run| - 1], ok);
      var u, st := After(s, run[..|run| - 1]).value, run[|run| - 1];
      StepKeepsOutcome(u, st, ok);
    }
  }

  lemma StepKeepsOutcome(u: State, st: Step, ok: bool)
    requires u.rx.armed == [] && Enabled(u, st) && DuringHandler(st, ok)
    ensures var t := Apply(u, st); t.rx.armed == [] && RunHandler(t, ok) == RunHandler(u, ok).(cmds := t.cmds)
  {
    match st
    case Env(e) =>
      EnvOnlyCommands(u, e);
      HandlerIgnoresCommands(u, ApplyEnv(u, e).cmds, ok);
    case Handler(h) =>
      var t := ApplyHandler(u, h);
      assert h == NextInHandler(u.pc, ok) && t.cmds == u.cmds && t.rx.armed == [];
      HandlerIgnoresCommands(u, u.cmds, ok);
      assert u.(cmds := u.cmds) == u;
  }

  /** From taking a completion to the end of the handler, with any steps of callers, hardware and interrupt in
    * between: exactly what HandleRxDone promises of the fields, the slots and the receiver. */
  lemma HandlerRefinesContract(s: State, run: seq<Step>, ok: bool)
    requires BaseInv(s) && s.pc.RxTaken? && After(s, run).Some? && After(s, run).value.pc.Drain?
    requires forall i :: 0 <= i < |run| ==> DuringHandler(run[i], ok)
    ensures var t := After(s, run).value;
      if !s.ctx.Live() then t == s.(pc := Drain, cmds := t.cmds)
      else Concluded(s, s.ctx.slot, LearnResult(s.rx.raw, s.rx.scratch, s.pc.ev.num, s.ctx.opts), ok, t)
  {
    HandlerOutcomeIsSettled(s, run, ok);
    RunHandlerConcludes(s, ok);
  }

  // ---------- Learn start ----------

  predicate DuringLearnStart(st: Step, accepted: bool) {
    match st
    case Env(_) => true
    case Command(c) => c == LearnBegin(accepted) || c == AdvanceGen
    case _ => false
  }

  /** Where a learn start that is carried out from `s` stands. Once armed, its receive is the only one, and it
    * may complete at any moment, before the lock is released included. */
  ghost predicate Starting(s: State, accepted: bool, t: State)
    requires s.pc.LearnEntered?
  {
    && t.log == s.log
    && match t.pc
       case LearnEntered(_, _) => t == s.(cmds := t.cmds)
       case LearnArmed => t.ctx == s.ctx.Armed(s.pc.slot, s.pc.opts, accepted) && ReceiveRequested(s, accepted, t.rx)
       case Drain =>
         t.ctx == s.ctx.Armed(s.pc.slot, s.pc.opts, accepted).NextGen() && ReceiveRequested(s, accepted, t.rx)
       case _ => false
  }

  /** Either nothing was requested, or the new learn's receive is armed or its completion waits in the queue. */
  ghost predicate ReceiveRequested(s: State, accepted: bool, rx: Rx)
    requires s.pc.LearnEntered?
  {
    if !accepted then rx == s.rx
    else
      var l := |s.rx.learns|;
      && |rx.learns| == l + 1 && rx.learns[..l] == s.rx.learns
      && rx.learns[l].slot == s.pc.slot && rx.learns[l].opts == s.pc.opts
      && rx.learns[l].scratch == rx.scratch == s.rx.scratch
      && ((rx.armed == [l] && rx.queue == [] && rx.learns[l].capture == None)
          || (rx.armed == [] && |rx.queue| == 1 && rx.queue[0].learn == l
              && rx.learns[l].capture == Some(Capture(rx.raw, rx.queue[0].num))))
  }

  lemma RequestStands(s: State, accepted: bool, rx: Rx, k: nat, raw: Buffer, num: nat)
    requires s.pc.LearnEntered? && ReceiveRequested(s, accepted, rx) && s.rx.armed == []
    requires k < |rx.armed| && rx.armed[k] < |rx.learns|
    ensures ReceiveRequested(s, accepted, Completed(rx, k, raw, num))
  {
  }

  lemma EnvKeepsStarting(s: State, accepted: bool, t: State, e: EnvStep)
    requires s.pc.LearnEntered? && s.rx.armed == [] && s.rx.queue == [] && Starting(s, accepted, t) && EnvEnabled(t, e)
    ensures Starting(s, accepted, ApplyEnv(t, e))
  {
    if e.Isr? {
      RequestStands(s, accepted, t.rx, e.k, e.raw, e.num);
    }
  }

  lemma CmdKeepsStarting(s: State, accepted: bool, t: State, c: CmdStep)
    requires s.pc.LearnEntered? && s.ctx.MayLearn() && s.rx.armed == [] && s.rx.queue == []
    requires Starting(s, accepted, t) && CmdEnabled(t, c) && (c == LearnBegin(accepted) || c == AdvanceGen)
    ensures Starting(s, accepted, ApplyCmd(t, c))
  {
  }

  lemma {:induction false} StartingIsKept(s: State, run: seq<Step>, accepted: bool)
    requires s.pc.LearnEntered? && s.ctx.MayLearn() && s.rx.armed == [] && s.rx.queue == [] && After(s, run).Some?
    requires forall i :: 0 <= i < |run| ==> DuringLearnStart(run[i], accepted)
    ensures Starting(s, accepted, After(s, run).value)
  {
    if run != [] {
      StartingIsKept(s, run[..|run| - 1], accepted);
      var u, st := After(s, run[..|run| - 1]).value, run[|run| - 1];
      match st {
        case Env(e) => EnvKeepsStarting(s, accepted, u, e);
        case Command(c) => CmdKeepsStarting(s, accepted, u, c);
      }
    }
  }

  lemma RefusedStep(s: State, st: Step, accepted: bool)
    requires (s.pc.LearnEntered? || s.pc.Drain?) && !s.ctx.MayLearn()
    requires Enabled(s, st) && DuringLearnStart(st, accepted)
    ensures var t := Apply(s, st);
      t.ctx == s.ctx && t.log == s.log && |t.rx.learns| == |s.rx.learns| && (t.pc == s.pc || t.pc.Drain?)
  {
    match st
    case Env(e) => assert ApplyEnv(s, e).pc == s.pc;
    case Command(c) => assert c.LearnBegin?;
  }

  lemma {:induction false} RefusedStartChangesNothing(s: State, run: seq<Step>, accepted: bool)
    requires s.pc.LearnEntered? && !s.ctx.MayLearn() && After(s, run).Some?
    requires forall i :: 0 <= i < |run| ==> DuringLearnStart(run[i], accepted)
    ensures var t := After(s, run).value;
      t.ctx == s.ctx && t.log == s.log && |t.rx.learns| == |s.rx.learns| && (t.pc == s.pc || t.pc.Drain?)
  {
    if run != [] {
      RefusedStartChangesNothing(s, run[..|run| - 1], accepted);
      RefusedStep(After(s, run[..|run| - 1]).value, run[|run| - 1], accepted);
    }
  }

  /** The two locked halves of a learn start, with any other steps before, between and after, are what
    * DoLearnStart promises, its refusal included; the receive it armed may have completed meanwhile. */
  lemma LearnStartRefinesContract(s: State, run: seq<Step>, accepted: bool)
    requires BaseInv(s) && s.pc.LearnEntered? && After(s, run).Some? && After(s, run).value.pc.Drain?
    requires forall i :: 0 <= i < |run| ==> DuringLearnStart(run[i], accepted)
    ensures var t := After(s, run).value;
      if !s.ctx.MayLearn() then t.ctx == s.ctx && t.log == s.log && |t.rx.learns| == |s.rx.learns|
      else t.ctx == s.ctx.Armed(s.pc.slot, s.pc.opts, accepted).NextGen() && t.log == s.log
           && ReceiveRequested(s, accepted, t.rx)
  {
    if s.ctx.MayLearn() {
      StartingIsKept(s, run, accepted);
    } else {
      RefusedStartChangesNothing(s, run, accepted);
    }
  }

  // ---------- The worker's loop ----------

  /** A state the system starts in has the fields the constructor gives, an enabled receiver, and nothing pending. */
  lemma StartsAsConstructed(s: State)
    requires Init(s)
    ensures s.ctx == Ctx(Idle, 0, None, 0, 0, s.ctx.hasStore, s.ctx.hasLoad) && s.pc == Drain
    ensures s.rx.queue == [] && s.rx.armed == [] && s.rx.learns == [] && s.rx.enabled && s.rx.drops == 0
    ensures s.cmds.queue == [] && s.cmds.callers == map[] && s.cmds.accepted == [] && s.cmds.taken == []
    ensures s.log.trace == [] && s.log.slots == s.log.slots0
  {
  }

  /** At the loop head the oldest completion is handled, whatever commands wait; only when there is none left the
    * oldest command is taken, and carried out as what it is; with none of those either, the loop begins anew. */
  lemma LoopTakesInOrder(s: State)
    ensures s.pc.Drain? && s.rx.queue != [] ==>
      && HandlerEnabled(s, RxTake) && !HandlerEnabled(s, RxNone)
      && ApplyHandler(s, RxTake) == s.(rx := s.rx.(queue := s.rx.queue[1..]), pc := RxTaken(s.rx.queue[0]))
    ensures s.pc.Drain? && s.rx.queue == [] ==>
      !HandlerEnabled(s, RxTake) && HandlerEnabled(s, RxNone) && ApplyHandler(s, RxNone) == s.(pc := TakeCmd)
    ensures s.pc.TakeCmd? && s.cmds.queue == [] ==>
      !CmdEnabled(s, CmdTake) && CmdEnabled(s, CmdTimeout) && ApplyCmd(s, CmdTimeout) == s.(pc := Drain)
    ensures s.pc.TakeCmd? && s.cmds.queue != [] ==>
      && CmdEnabled(s, CmdTake) && !CmdEnabled(s, CmdTimeout)
      && var first := s.cmds.queue[0];
      && ApplyCmd(s, CmdTake) ==
           s.(cmds := Commands(s.cmds.callers, s.cmds.queue[1..], s.cmds.accepted, s.cmds.taken + [first]),
              pc := match first
                    case LearnStart(slot, opts) => LearnEntered(slot, opts)
                    case LearnCancel => CancelEntered
                    case Send(slot, o) => SendEntered(slot, o))
  {
  }

  /** A cancel is one locked step, and what DoLearnCancel promises: a learn ends with its fields cleared and the
    * receiver disabled; outside a learn nothing happens. */
  lemma CancelRefinesContract(s: State)
    requires CmdEnabled(s, Cancel)
    ensures var t := ApplyCmd(s, Cancel);
      && t.pc == Drain && t.log == s.log && t.cmds == s.cmds
      && (if s.ctx.mode == Learning
          then t.ctx == Ctx(Idle, 0, None, s.ctx.gen, 0, s.ctx.hasStore, s.ctx.hasLoad)
               && t.rx == s.rx.(armed := [], enabled := false, cancelled := t.rx.cancelled)
          else t.ctx == s.ctx && t.rx == s.rx)
  {
  }

  // ---------- API calls ----------

  /** The two halves of an API call that passes its check, with nothing of that caller in between: the command
    * enters the queue as the API methods say, unless four are waiting. */
  lemma ApiCallRefinesContract(s: State, caller: nat, request: Cmd)
    requires EnvEnabled(s, ApiCheck(caller, request))
    ensures var checked := ApplyEnv(s, ApiCheck(caller, request));
      && EnvEnabled(checked, ApiEnqueue(caller))
      && var t := ApplyEnv(checked, ApiEnqueue(caller));
      && var cmd := match request
                    case LearnStart(slot, opts) => LearnStart(slot, Clamped(opts))
                    case _ => request;
      && t == s.(cmds := t.cmds) && t.cmds.taken == s.cmds.taken && t.cmds.callers == s.cmds.callers
      && t.cmds.queue == (if |s.cmds.queue| < 4 then s.cmds.queue + [cmd] else s.cmds.queue)
      && t.cmds.accepted == (if |s.cmds.queue| < 4 then s.cmds.accepted + [cmd] else s.cmds.accepted)
  {
    var checked := ApplyEnv(s, ApiCheck(caller, request));
    assert checked.cmds.callers - {caller} == s.cmds.callers;
  }

  // ---------- Sending ----------

  /** The worker runs a send to its end while every call it makes works. */
  function RunSend(s: State): State
    decreases SendRemaining(s.pc)
  {
    var next := NextInSend(s.pc, s.log.slots);
    if next.Some? && SendEnabled(s, next.value) then RunSend(ApplySend(s, next.value)) else s
  }

  /** The worker's next step if the call it makes there works. */
  function NextInSend(pc: Pc, slots: Slots): Option<SendStep> {
    match pc
    case SendEntered(_, _) => Some(BeginSend)
    case SendLoading(slot, _, _) => Some(Load(slot in slots))
    case SendCarrier(_, o, _, _) => Some(Carrier(GoodCarrier(o)))
    case SendRound(_, _, _, _, _) => Some(Round(true))
    case SendWaiting(_, _, _, _, _) => Some(Wait(true))
    case SendEnding(_, _) => Some(FinishSend)
    case _ => None
  }

  function SendRemaining(pc: Pc): nat {
    match pc
    case SendEntered(_, o) => 2 * TotalOf(o) + 5
    case SendLoading(_, o, _) => 2 * TotalOf(o) + 4
    case SendCarrier(_, o, _, _) => 2 * TotalOf(o) + 3
    case SendRound(_, o, _, _, i) => if i < TotalOf(o) then 2 * (TotalOf(o) - i) + 2 else 2
    case SendWaiting(_, o, _, _, i) => if i < TotalOf(o) then 2 * (TotalOf(o) - i) + 1 else 3
    case SendEnding(_, _) => 1
    case _ => 0
  }

  /** `s` after its send is over, the trace being `trace` but for the final event. */
  function SendOver(s: State, trace: seq<Event>, ok: bool, begin: nat): State {
    s.(ctx := s.ctx.(mode := Idle), pc := Drain, log := s.log.(trace := trace + [SendEnd(ok, begin)]))
  }

  /** Somewhere in the rounds, with `start` the trace before them. */
  ghost predicate InRounds(s: State, start: seq<Event>) {
    && (s.pc.SendRound? || s.pc.SendWaiting?) && s.pc.frame.Valid()
    && (if s.pc.SendRound? then s.pc.i <= TotalOf(s.pc.o) else s.pc.i < TotalOf(s.pc.o))
    && s.log.trace == start + Airtime(s.pc.frame.Payload(), s.pc.o, s.pc.i, TotalOf(s.pc.o))
                      + (if s.pc.SendWaiting? then [Transmit(s.pc.frame.Payload())] else [])
  }

  lemma LastStepOfSend(s: State)
    requires s.pc.SendEnding?
    ensures RunSend(s) == SendOver(s, s.log.trace, s.pc.ok, s.pc.begin)
  {
    assert RunSend(s) == RunSend(ApplySend(s, FinishSend));
  }

  lemma RoundAdvances(s: State, start: seq<Event>)
    requires InRounds(s, start) && s.pc.SendRound? && s.pc.i < TotalOf(s.pc.o)
    ensures InRounds(ApplySend(s, Round(true)), start)
  {
  }

  lemma WaitAdvances(s: State, start: seq<Event>)
    requires InRounds(s, start) && s.pc.SendWaiting?
    ensures InRounds(ApplySend(s, Wait(true)), start)
  {
    var p, o := s.pc.frame.Payload(), s.pc.o;
    AirtimeNext(p, o, s.pc.i, TotalOf(o));
    var a := Airtime(p, o, s.pc.i, TotalOf(o)) + [Transmit(p)];
    assert start + Airtime(p, o, s.pc.i, TotalOf(o)) + [Transmit(p)] == start + a;
    assert start + a + [Gap(GapMs(o))] == start + (a + [Gap(GapMs(o))]);
  }

  lemma {:induction false} RoundsConclude(s: State, start: seq<Event>)
    requires InRounds(s, start)
    ensures RunSend(s) ==
      SendOver(s, start + Airtime(s.pc.frame.Payload(), s.pc.o, TotalOf(s.pc.o), TotalOf(s.pc.o)), true, s.pc.begin)
    decreases SendRemaining(s.pc)
  {
    if s.pc.SendWaiting? {
      WaitAdvances(s, start);
      var t := ApplySend(s, Wait(true));
      RoundsConclude(t, start);
    } else if s.pc.i < TotalOf(s.pc.o) {
      RoundAdvances(s, start);
      var t := ApplySend(s, Round(true));
      RoundsConclude(t, start);
    } else {
      assert RunSend(s) == RunSend(ApplySend(s, Round(true)));
      LastStepOfSend(ApplySend(s, Round(true)));
    }
  }

  lemma LoadingConcludes(s: State)
    requires s.pc.SendLoading?
    ensures var slots := s.log.slots;
      RunSend(s) == SendOver(s, s.log.trace + Pattern(slots, s.pc.slot, s.pc.o),
        s.pc.slot in slots && slots[s.pc.slot].Valid() && GoodCarrier(s.pc.o), s.pc.begin)
  {
    var t := ApplySend(s, Load(s.pc.slot in s.log.slots));
    assert RunSend(s) == RunSend(t);
    assert s.log.trace + [] == s.log.trace;
    if t.pc.SendCarrier? {
      var u := ApplySend(t, Carrier(GoodCarrier(t.pc.o)));
      assert RunSend(t) == RunSend(u);
      if u.pc.SendRound? {
        RoundsConclude(u, s.log.trace);
      } else {
        LastStepOfSend(u);
      }
    } else {
      LastStepOfSend(t);
    }
  }

  /** Undisturbed: a send whose calls all work answers as DoSend does, and transmits its whole pattern or
    * nothing; a refused one changes nothing. */
  lemma RunSendConcludes(s: State)
    requires s.pc.SendEntered?
    ensures !s.ctx.MaySend() ==> RunSend(s) == s.(pc := Drain)
    ensures s.ctx.MaySend() ==>
      RunSend(s) == SendOver(s, s.log.trace + [SendBegin(s.pc.slot, s.pc.o)] + Pattern(s.log.slots, s.pc.slot, s.pc.o),
        SendStatus(s.ctx, s.log.slots, s.pc.slot, s.pc.o) == Ok, |s.log.trace|)
  {
    var t := ApplySend(s, BeginSend);
    assert RunSend(s) == RunSend(t);
    if s.ctx.MaySend() {
      LoadingConcludes(t);
    }
  }

  lemma SendStepIgnoresCommands(s: State, c: Commands, x: SendStep)
    requires SendEnabled(s, x)
    ensures ApplySend(s.(cmds := c), x) == ApplySend(s, x).(cmds := c)
  {
  }

  lemma {:induction false} SendIgnoresCommands(s: State, c: Commands)
    ensures RunSend(s.(cmds := c)) == RunSend(s).(cmds := c)
    decreases SendRemaining(s.pc)
  {
    var next := NextInSend(s.pc, s.log.slots);
    if next.Some? && SendEnabled(s, next.value) {
      SendStepIgnoresCommands(s, c, next.value);
      SendIgnoresCommands(ApplySend(s, next.value), c);
    }
  }

  /** Steps of a send whose call works, and those of everyone else. */
  predicate DuringSend(s: State, st: Step) {
    match st
    case Env(_) => true
    case Sending(x) => NextInSend(s.pc, s.log.slots) == Some(x)
    case _ => false
  }

  /** Every step of the run from `s` is such a step. */
  predicate IsSend(s: State, run: seq<Step>) {
    run == [] ||
    (IsSend(s, run[..|run| - 1])
     && var before := After(s, run[..|run| - 1]);
     before.Some? && DuringSend(before.value, run[|run| - 1]))
  }

  lemma SendStepKeepsOutcome(u: State, st: Step)
    requires u.rx.armed == [] && Enabled(u, st) && DuringSend(u, st)
    ensures var t := Apply(u, st); t.rx.armed == [] && RunSend(t) == RunSend(u).(cmds := t.cmds)
  {
    match st
    case Env(e) =>
      EnvOnlyCommands(u, e);
      SendIgnoresCommands(u, ApplyEnv(u, e).cmds);
    case Sending(x) =>
      var t := ApplySend(u, x);
      assert t.cmds == u.cmds && t.rx == u.rx && RunSend(t) == RunSend(u);
      SendIgnoresCommands(u, u.cmds);
      assert u.(cmds := u.cmds) == u;
  }

  lemma {:induction false} SendOutcomeIsSettled(s: State, run: seq<Step>)
    requires s.rx.armed == [] && After(s, run).Some? && IsSend(s, run)
    ensures var t := After(s, run).value;
      t.rx.armed == [] && RunSend(t) == RunSend(s).(cmds := t.cmds)
  {
    if run == [] {
      SendIgnoresCommands(s, s.cmds);
    } else {
      SendOutcomeIsSettled(s, run[..|run| - 1]);
      SendStepKeepsOutcome(After(s, run[..|run| - 1]).value, run[|run| - 1]);
    }
  }

  lemma {:induction false} RefusedSendChangesNothing(s: State, run: seq<Step>)
    requires s.pc.SendEntered? && !s.ctx.MaySend() && After(s, run).Some? && IsSend(s, run)
    ensures var t := After(s, run).value; t.ctx == s.ctx && t.log == s.log && (t.pc == s.pc || t.pc.Drain?)
  {
    if run != [] {
      RefusedSendChangesNothing(s, run[..|run| - 1]);
    }
  }

  /** From its entry to its end, with any other steps in between, a send whose calls work is what DoSend
    * promises: the same answer, exactly the frame's pattern on the air or nothing, and the mode restored. */
  lemma SendRefinesContract(s: State, run: seq<Step>)
    requires BaseInv(s) && s.pc.SendEntered? && After(s, run).Some? && After(s, run).value.pc.Drain? && IsSend(s, run)
    ensures var t := After(s, run).value;
      if !s.ctx.MaySend() then t.ctx == s.ctx && t.log == s.log
      else
        var ok := SendStatus(s.ctx, s.log.slots, s.pc.slot, s.pc.o) == Ok;
        && t.ctx == s.ctx && t.rx == s.rx && t.log.slots == s.log.slots
        && t.log.trace == s.log.trace + [SendBegin(s.pc.slot, s.pc.o)]
           + (if ok then Airtime(s.log.slots[s.pc.slot].Payload(), s.pc.o, TotalOf(s.pc.o), TotalOf(s.pc.o)) else [])
           + [SendEnd(ok, |s.log.trace|)]
  {
    if s.ctx.MaySend() {
      SendOutcomeIsSettled(s, run);
      RunSendConcludes(s);
    } else {
      RefusedSendChangesNothing(s, run);
    }
  }

  /** Where a send that is carried out from `s` stands when its calls answer anything; `sent` is what it has put
    * on the air so far. */
  ghost predicate Going(s: State, sent: seq<Event>, ok: bool, t: State)
    requires s.pc.SendEntered?
  {
    var u := Open(|s.log.trace|, s.pc.slot, s.pc.o, sent);
    && t.rx == s.rx && t.log.slots == s.log.slots
    && (if t.pc.SendEntered? then t == s.(cmds := t.cmds)
        else if t.pc.InSend() then
          && t.ctx == s.ctx.(mode := Mode.Sending) && SendFits(t.pc, s.log.slots, u)
          && sent <= Pattern(s.log.slots, s.pc.slot, s.pc.o)
          && t.log.trace == s.log.trace + [SendBegin(s.pc.slot, s.pc.o)] + sent
        else
          && t.pc.Drain? && t.ctx == s.ctx && (ok ==> Ended(s.log.slots, u))
          && sent <= Pattern(s.log.slots, s.pc.slot, s.pc.o)
          && t.log.trace == s.log.trace + [SendBegin(s.pc.slot, s.pc.o)] + sent + [SendEnd(ok, |s.log.trace|)])
  }

  lemma RoundKeepsGoing(s: State, sent: seq<Event>, ok: bool, t: State, done: bool) returns (sent': seq<Event>)
    requires s.pc.SendEntered? && Going(s, sent, ok, t) && SendEnabled(t, Round(done))
    ensures Going(s, sent', ok, ApplySend(t, Round(done)))
  {
    sent' := sent;
    if t.pc.i < TotalOf(t.pc.o) && done {
      var e := Transmit(t.pc.frame.Payload());
      TransmitFits(t.pc, s.log.slots, Open(|s.log.trace|, s.pc.slot, s.pc.o, sent), e);
      sent' := sent + [e];
      assert t.log.trace + [e] == s.log.trace + [SendBegin(s.pc.slot, s.pc.o)] + sent';
    }
  }

  lemma WaitKeepsGoing(s: State, sent: seq<Event>, ok: bool, t: State, done: bool) returns (sent': seq<Event>)
    requires s.pc.SendEntered? && Going(s, sent, ok, t) && SendEnabled(t, Wait(done))
    ensures Going(s, sent', ok, ApplySend(t, Wait(done)))
  {
    var u := Open(|s.log.trace|, s.pc.slot, s.pc.o, sent);
    sent' := sent;
    if t.pc.o.blocking && !done {
    } else if t.pc.o.gapUs != 0 && t.pc.i + 1 < TotalOf(t.pc.o) {
      var e := Gap(GapMs(t.pc.o));
      PauseFits(t.pc, s.log.slots, u, e);
      sent' := sent + [e];
      assert t.log.trace + [e] == s.log.trace + [SendBegin(s.pc.slot, s.pc.o)] + sent';
    } else {
      NoPauseFits(t.pc, s.log.slots, u);
    }
  }

  lemma SendKeepsGoing(s: State, sent: seq<Event>, ok: bool, t: State, x: SendStep)
    returns (sent': seq<Event>, ok': bool)
    requires s.pc.SendEntered? && s.ctx.MaySend() && Going(s, sent, ok, t) && SendEnabled(t, x)
    ensures Going(s, sent', ok', ApplySend(t, x))
  {
    sent', ok' := sent, ok;
    match x
    case BeginSend => sent' := [];
    case Round(done) => sent' := RoundKeepsGoing(s, sent, ok, t, done);
    case Wait(done) => sent' := WaitKeepsGoing(s, sent, ok, t, done);
    case FinishSend => ok' := t.pc.ok;
    case _ =>
  }

  lemma {:induction false} GoingIsKept(s: State, run: seq<Step>) returns (sent: seq<Event>, ok: bool)
    requires s.pc.SendEntered? && s.ctx.MaySend() && s.rx.armed == [] && After(s, run).Some?
    requires forall i :: 0 <= i < |run| ==> run[i].Env? || run[i].Sending?
    ensures Going(s, sent, ok, After(s, run).value)
  {
    sent, ok := [], false;
    if run != [] {
      sent, ok := GoingIsKept(s, run[..|run| - 1]);
      var u := After(s, run[..|run| - 1]).value;
      match run[|run| - 1]
      case Env(e) => EnvOnlyCommands(u, e);
      case Sending(x) => sent, ok := SendKeepsGoing(s, sent, ok, u, x);
    }
  }

  /** The same when any call may fail: the fields, the receiver and the slots end as they were, what is on the
    * air is a beginning of the pattern, and success means all of it. */
  lemma FailingSendRefinesContract(s: State, run: seq<Step>) returns (sent: seq<Event>, ok: bool)
    requires BaseInv(s) && s.pc.SendEntered? && s.ctx.MaySend()
    requires After(s, run).Some? && After(s, run).value.pc.Drain?
    requires forall i :: 0 <= i < |run| ==> run[i].Env? || run[i].Sending?
    ensures var t := After(s, run).value;
      && t.ctx == s.ctx && t.rx == s.rx && t.log.slots == s.log.slots
      && t.log.trace == s.log.trace + [SendBegin(s.pc.slot, s.pc.o)] + sent + [SendEnd(ok, |s.log.trace|)]
    ensures sent <= Pattern(s.log.slots, s.pc.slot, s.pc.o)
    ensures ok ==>
      SendStatus(s.ctx, s.log.slots, s.pc.slot, s.pc.o) == Ok && sent == Pattern(s.log.slots, s.pc.slot, s.pc.o)
  {
    sent, ok := GoingIsKept(s, run);
  }

  // ---------- The generation counter ----------

  /** Counterfactual: by RxInv no reachable state meets this precondition. It shows that the draining, not the
    * counter, keeps old captures out: were a completion left in the queue when a learn starts, it would pass
    * the generation check. */
  lemma CounterWouldNotRejectLeftover(s: State)
    requires CmdEnabled(s, LearnBegin(true)) && s.ctx.MayLearn() && s.rx.queue != []
    ensures !BaseInv(s)
    ensures var armed := ApplyCmd(ApplyCmd(s, LearnBegin(true)), AdvanceGen);
      var checked := ApplyHandler(ApplyHandler(armed, RxTake), Snapshot);
      checked.pc.RxSnapshot? && checked.pc.ev == s.rx.queue[0] && !ApplyHandler(checked, Validate).pc.Drain?
  {
  }
}
