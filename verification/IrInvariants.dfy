/** What every step of the controller keeps. */
module IrInvariants {
  import opened Common
  import opened Symbols
  import opened LearnPipeline
  import opened IrTypes
  import opened IrProtocol

  /** The mode fits the worker's place; inside the handler and a send the local copies are still current. */
  ghost predicate ModeInv(c: Ctx, pc: Pc) {
    match pc
    case RxSnapshot(_, slot, opts) => c.mode == Learning && slot == c.slot && opts == c.opts
    case RxInverting(_, slot, opts, _) => c.mode == Learning && slot == c.slot && opts == c.opts
    case RxHook(_, slot, opts, _, inScratch) =>
      c.mode == Learning && slot == c.slot && opts == c.opts && inScratch == Inverts(opts)
    case RxStoring(_, slot, _, _) => c.mode == Learning && slot == c.slot
    case RxFinishing(_) => c.mode == Learning
    case RxCancelling(_) => c.mode == Learning
    case _ => if pc.InSend() then c.mode == Mode.Sending else c.mode == Idle || c.mode == Learning
  }

  /** While learning, the generation the handler compares is current; only the arming step is in between. */
  ghost predicate GenInv(c: Ctx, pc: Pc) {
    c.mode == Learning && !pc.LearnArmed? ==> c.activeGen == c.gen
  }

  function Outstanding(pc: Pc, rx: Rx): nat {
    |rx.armed| + |rx.queue| + (if pc.Handling() then 1 else 0)
  }

  /** At most one capture is outstanding, and outside a learn nothing is armed or, once drained, queued. */
  ghost predicate RxInv(c: Ctx, pc: Pc, rx: Rx) {
    && Outstanding(pc, rx) <= 1
    && rx.drops == 0
    && (c.mode != Learning ==> rx.armed == [] && (!pc.Drain? && !pc.RxTaken? ==> rx.queue == []))
  }

  ghost predicate BaseInv(s: State) {
    ModeInv(s.ctx, s.pc) && GenInv(s.ctx, s.pc) && RxInv(s.ctx, s.pc, s.rx)
  }

  lemma EnvKeepsBase(s: State, e: EnvStep)
    requires BaseInv(s) && EnvEnabled(s, e)
    ensures BaseInv(ApplyEnv(s, e))
  {
  }

  lemma HandlerKeepsBase(s: State, h: HandlerStep)
    requires BaseInv(s) && HandlerEnabled(s, h)
    ensures BaseInv(ApplyHandler(s, h))
  {
  }

  lemma CmdKeepsBase(s: State, c: CmdStep)
    requires BaseInv(s) && CmdEnabled(s, c)
    ensures BaseInv(ApplyCmd(s, c))
  {
  }

  lemma SendKeepsBase(s: State, x: SendStep)
    requires BaseInv(s) && SendEnabled(s, x)
    ensures BaseInv(ApplySend(s, x))
  {
    assert ApplySend(s, x).rx == s.rx;
  }

  // ---------- Which capture is stored where ----------

  /** What the learn's own capture is to be stored as. */
  function Result(l: Learn): Option<Frame>
    requires l.capture.Some?
  {
    LearnResult(l.capture.value.raw, l.scratch, l.capture.value.num, l.opts)
  }

  /** What the handler will store if it goes on from its present place with the present buffers. */
  function Planned(pc: Pc, rx: Rx): Option<Frame>
    requires pc.RxTaken? || pc.RxSnapshot? || pc.RxInverting? || pc.RxHook? || pc.RxStoring?
  {
    match pc
    case RxHook(_, _, opts, n, inScratch) => PlannedHook(rx, opts, n, inScratch)
    case RxStoring(_, _, finalN, inScratch) => FinalFrame(rx, inScratch, finalN)
    case _ => None
  }

  function PlannedHook(rx: Rx, opts: Option<LearnOpts>, n: Len, inScratch: bool): Option<Frame> {
    match ActiveHook(opts)
    case None => FinalFrame(rx, inScratch, n)
    case Some(f) =>
      var r := if inScratch then f(rx.scratch[..n], rx.raw) else f(rx.raw[..n], rx.scratch);
      if 1 <= r.len <= MAX_FRAME_SIZE then Some(PaddedFrame(r.out[..r.len])) else None
  }

  /** While learning, everything armed, queued or being handled belongs to the latest learn, whose slot and
    * options are the shared ones. */
  ghost predicate CurrentInv(c: Ctx, pc: Pc, rx: Rx) {
    c.mode == Learning ==>
      && rx.learns != []
      && var cur := |rx.learns| - 1;
      && rx.learns[cur].slot == c.slot && rx.learns[cur].opts == c.opts
      && (rx.armed != [] ==> rx.armed[0] == cur)
      && (rx.queue != [] ==> rx.queue[0].learn == cur)
      && (pc.Handling() ==> pc.ev.learn == cur)
  }

  /** The buffers hold what the latest learn captured, from its completion to the end of its processing. */
  ghost predicate BufferInv(c: Ctx, pc: Pc, rx: Rx) {
    c.mode == Learning && rx.learns != [] ==>
      var l := rx.learns[|rx.learns| - 1];
      && (!pc.RxHook? && !pc.RxStoring? && !pc.RxFinishing? && !pc.RxCancelling? ==> rx.scratch == l.scratch)
      && (rx.queue != [] ==> l.capture == Some(Capture(rx.raw, rx.queue[0].num)))
      && (pc.RxTaken? || pc.RxSnapshot? || pc.RxInverting? ==> l.capture == Some(Capture(rx.raw, pc.ev.num)))
      && (pc.RxInverting? ==> pc.n == SeenCount(pc.ev.num) && Accepts(pc.opts, pc.n))
      && (pc.RxHook? || pc.RxStoring? ==> l.capture.Some? && Planned(pc, rx) == Result(l))
  }

  ghost predicate LearnInv(s: State) {
    CurrentInv(s.ctx, s.pc, s.rx) && BufferInv(s.ctx, s.pc, s.rx)
  }

  lemma EnvKeepsLearn(s: State, e: EnvStep)
    requires BaseInv(s) && LearnInv(s) && EnvEnabled(s, e)
    ensures LearnInv(ApplyEnv(s, e))
  {
  }

  lemma InvertKeepsPlan(s: State)
    requires BaseInv(s) && LearnInv(s) && s.pc.RxInverting?
    ensures LearnInv(ApplyHandler(s, Invert))
  {
    var t := ApplyHandler(s, Invert);
    var n, opts := s.pc.n, s.pc.opts;
    assert (if Inverts(opts) then t.rx.scratch else t.rx.raw)[..n] == MaybeInverted(s.rx.raw[..n], Inverts(opts));
    assert t.rx.raw == s.rx.raw && (!Inverts(opts) ==> t.rx.scratch == s.rx.scratch);
  }

  lemma HookKeepsPlan(s: State)
    requires BaseInv(s) && LearnInv(s) && s.pc.RxHook?
    ensures LearnInv(ApplyHandler(s, RunHook))
  {
    var t := ApplyHandler(s, RunHook);
    assert t.ctx == s.ctx && t.rx.learns == s.rx.learns && t.rx.armed == s.rx.armed && t.rx.queue == s.rx.queue == [];
    if t.pc.RxStoring? {
      HookGivesPlanned(s);
    }
  }

  lemma HookGivesPlanned(s: State)
    requires s.pc.RxHook? && ApplyHandler(s, RunHook).pc.RxStoring?
    ensures var t := ApplyHandler(s, RunHook); Planned(t.pc, t.rx) == Planned(s.pc, s.rx)
  {
  }

  lemma HandlerKeepsLearn(s: State, h: HandlerStep)
    requires BaseInv(s) && LearnInv(s) && HandlerEnabled(s, h)
    ensures LearnInv(ApplyHandler(s, h))
  {
    match h
    case Invert => InvertKeepsPlan(s);
    case RunHook => HookKeepsPlan(s);
    case _ =>
  }

  lemma BeginKeepsLearn(s: State, accepted: bool)
    requires BaseInv(s) && LearnInv(s) && CmdEnabled(s, LearnBegin(accepted))
    ensures LearnInv(ApplyCmd(s, LearnBegin(accepted)))
  {
  }

  lemma CmdKeepsLearn(s: State, c: CmdStep)
    requires BaseInv(s) && LearnInv(s) && CmdEnabled(s, c)
    ensures LearnInv(ApplyCmd(s, c))
  {
    var t := ApplyCmd(s, c);
    match c
    case LearnBegin(accepted) => BeginKeepsLearn(s, accepted);
    case Cancel => assert t.ctx.mode != Learning;
    case _ => assert t.rx == s.rx && t.ctx.mode == s.ctx.mode && t.ctx.slot == s.ctx.slot && t.ctx.opts == s.ctx.opts;
  }

  lemma SendKeepsLearn(s: State, x: SendStep)
    requires BaseInv(s) && LearnInv(s) && SendEnabled(s, x)
    ensures LearnInv(ApplySend(s, x))
  {
    assert ApplySend(s, x).rx == s.rx;
  }
}
