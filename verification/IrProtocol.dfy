/** The controller as a concurrent system: API callers, the receive hardware with its interrupt, and the
  * worker, interleaved between any two accesses to what they share. Runs are between init and deinit. */
module IrProtocol {
  import opened Common
  import opened Symbols
  import opened LearnPipeline
  import opened IrTypes

  type Len = n: nat | n <= MAX_FRAME_SIZE

  /** The receive buffer and symbol count at the moment a receive completed. */
  datatype Capture = Capture(raw: Buffer, num: nat)

  /** History: one receive the driver accepted, the learn start it belongs to (by position among the taken
    * commands), what that start chose, the scratch buffer it found, and the capture it led to. */
  datatype Learn = Learn(slot: uint16, opts: Option<LearnOpts>, cmd: nat, scratch: Buffer, capture: Option<Capture>)

  /** A queued completion. Only `num` exists in the program; `learn` is the history tag of its receive. */
  datatype RxEvent = RxEvent(num: nat, learn: nat)

  /** Where the worker is. The Rx states are inside the completion handler, the Sending ones inside a send. */
  datatype Pc =
    | Drain
    | RxTaken(ev: RxEvent)
    | RxSnapshot(ev: RxEvent, slot: uint16, opts: Option<LearnOpts>)
    | RxInverting(ev: RxEvent, slot: uint16, opts: Option<LearnOpts>, n: Len)
    | RxHook(ev: RxEvent, slot: uint16, opts: Option<LearnOpts>, n: Len, inScratch: bool)
    | RxStoring(ev: RxEvent, slot: uint16, finalN: uint16, inScratch: bool)
    | RxFinishing(ev: RxEvent)
    | RxCancelling(ev: RxEvent)
    | TakeCmd
    | LearnEntered(slot: uint16, opts: Option<LearnOpts>)
    | LearnArmed                      // lock still held: the generation is about to advance
    | CancelEntered
    | SendEntered(slot: uint16, o: SendOpts)
    | SendLoading(slot: uint16, o: SendOpts, begin: nat)
    | SendCarrier(slot: uint16, o: SendOpts, begin: nat, frame: Frame)
    | SendRound(slot: uint16, o: SendOpts, begin: nat, frame: Frame, i: nat)
    | SendWaiting(slot: uint16, o: SendOpts, begin: nat, frame: Frame, i: nat)
    | SendEnding(ok: bool, begin: nat)
  {
    predicate Handling() {
      RxTaken? || RxSnapshot? || RxInverting? || RxHook? || RxStoring? || RxFinishing? || RxCancelling?
    }

    predicate InSend() {
      SendLoading? || SendCarrier? || SendRound? || SendWaiting? || SendEnding?
    }
  }

  /** The receiver: buffers, queued and owed completions, and the history of accepted receives. */
  datatype Rx = Rx(raw: Buffer, scratch: Buffer, queue: seq<RxEvent>, drops: nat,
                   armed: seq<nat>,            // receives the driver still owes a completion for, by learn
                   enabled: bool, learns: seq<Learn>,
                   failed: set<nat>,           // learns whose store callback failed
                   cancelled: map<nat, nat>)   // learns a cancel command ended, with its position among the taken

  /** The command queue; callers are API calls whose check passed and whose enqueue is still to come. */
  datatype Commands = Commands(callers: map<nat, Cmd>, queue: seq<Cmd>, accepted: seq<Cmd>, taken: seq<Cmd>)

  /** The slot store at the start and now, and everything observable so far. */
  datatype Log = Log(slots0: Slots, slots: Slots, trace: seq<Event>)

  datatype State = State(ctx: Ctx, pc: Pc, rx: Rx, cmds: Commands, log: Log,
                         strict: bool)         // the driver refuses a receive on a disabled channel

  /** API callers, the hardware and the interrupt. */
  datatype EnvStep =
    | ApiCheck(caller: nat, request: Cmd)
    | ApiEnqueue(caller: nat)
    | HwWrite(raw: Buffer)                     // the hardware fills the buffer of an armed receive
    | Isr(k: nat, raw: Buffer, num: nat)

  datatype HandlerStep =
    | RxTake | RxNone | Snapshot | Validate | Invert | RunHook | StoreCall(ok: bool) | Finish | Reject

  datatype CmdStep =
    | CmdTimeout | CmdTake | LearnBegin(accepted: bool) | AdvanceGen | Cancel

  datatype SendStep =
    | BeginSend | Load(found: bool) | Carrier(ok: bool) | Round(ok: bool) | Wait(ok: bool) | FinishSend

  datatype Step = Env(e: EnvStep) | Handler(h: HandlerStep) | Command(c: CmdStep) | Sending(x: SendStep)

  ghost predicate Init(s: State) {
    && s.ctx.mode == Idle && s.ctx.gen == s.ctx.activeGen == 0 && s.ctx.slot == 0 && s.ctx.opts == None
    && s.pc == Drain
    && s.rx.queue == [] && s.rx.drops == 0 && s.rx.armed == [] && s.rx.enabled
    && s.rx.learns == [] && s.rx.failed == {} && s.rx.cancelled == map[]
    && s.cmds == Commands(map[], [], [], [])
    && s.log.slots == s.log.slots0 && s.log.trace == []
  }

  // ---------- API callers, hardware, interrupt ----------

  predicate ApiAllows(c: Ctx, request: Cmd) {
    match request
    case LearnStart(_, _) => c.mode != Uninit && !c.Busy()
    case LearnCancel => c.mode != Uninit
    case Send(_, _) => c.mode != Uninit && c.mode != Mode.Sending
  }

  predicate EnvEnabled(s: State, e: EnvStep) {
    match e
    // an API call reads the mode under the lock, which the worker holds across steps at one place only
    case ApiCheck(t, request) => !s.pc.LearnArmed? && t !in s.cmds.callers && ApiAllows(s.ctx, request)
    case ApiEnqueue(t) => t in s.cmds.callers
    case HwWrite(_) => s.rx.armed != []
    case Isr(k, _, _) => k < |s.rx.armed| && s.rx.armed[k] < |s.rx.learns|
  }

  function Accept(request: Cmd): Cmd {
    if request.LearnStart? then request.(opts := Clamped(request.opts)) else request
  }

  function ApplyEnv(s: State, e: EnvStep): State
    requires EnvEnabled(s, e)
  {
    match e
    case ApiCheck(t, request) => s.(cmds := s.cmds.(callers := s.cmds.callers[t := Accept(request)]))
    case ApiEnqueue(t) => s.(cmds := Enqueued(s.cmds, t))
    case HwWrite(raw) => s.(rx := s.rx.(raw := raw))
    case Isr(k, raw, num) => s.(rx := Completed(s.rx, k, raw, num))
  }

  function Enqueued(c: Commands, t: nat): Commands
    requires t in c.callers
  {
    if |c.queue| < CMD_QUEUE_DEPTH
    then Commands(c.callers - {t}, c.queue + [c.callers[t]], c.accepted + [c.callers[t]], c.taken)
    else c.(callers := c.callers - {t})
  }

  /** Any one of the armed receives completes, with any contents of the buffer and any count. */
  function Completed(rx: Rx, k: nat, raw: Buffer, num: nat): Rx
    requires k < |rx.armed| && rx.armed[k] < |rx.learns|
  {
    var l := rx.armed[k];
    var full := |rx.queue| >= RX_QUEUE_DEPTH;
    rx.(raw := raw,
        queue := if full then rx.queue else rx.queue + [RxEvent(num, l)],
        drops := if full then rx.drops + 1 else rx.drops,
        armed := rx.armed[..k] + rx.armed[k + 1..],
        learns := rx.learns[l := rx.learns[l].(capture := Some(Capture(raw, num)))])
  }

  // ---------- Completion handler ----------

  predicate HandlerEnabled(s: State, h: HandlerStep) {
    match h
    case RxTake => s.pc.Drain? && s.rx.queue != []
    case RxNone => s.pc.Drain? && s.rx.queue == []
    case Snapshot => s.pc.RxTaken?
    case Validate => s.pc.RxSnapshot?
    case Invert => s.pc.RxInverting?
    case RunHook => s.pc.RxHook?
    case StoreCall(_) => s.pc.RxStoring?
    case Finish => s.pc.RxFinishing?
    case Reject => s.pc.RxCancelling?
  }

  function Disabled(rx: Rx): Rx {
    rx.(armed := [], enabled := false)
  }

  function ApplyHandler(s: State, h: HandlerStep): State
    requires HandlerEnabled(s, h)
  {
    match h
    case RxTake => s.(rx := s.rx.(queue := s.rx.queue[1..]), pc := RxTaken(s.rx.queue[0]))
    case RxNone => s.(pc := TakeCmd)
    case Snapshot => s.(pc := if s.ctx.mode == Learning then RxSnapshot(s.pc.ev, s.ctx.slot, s.ctx.opts) else Drain)
    case Validate => s.(pc := Validated(s.ctx, s.pc))
    case Invert =>
      s.(rx := if Inverts(s.pc.opts)
               then s.rx.(scratch := Overwrite(s.rx.scratch, Inverted(s.rx.raw[..s.pc.n]))) else s.rx,
         pc := RxHook(s.pc.ev, s.pc.slot, s.pc.opts, s.pc.n, Inverts(s.pc.opts)))
    case RunHook => Hooked(s)
    case StoreCall(ok) => Stored(s, ok)
    case Finish => s.(ctx := s.ctx.Finished(), rx := Disabled(s.rx), pc := Drain)
    case Reject => CancelLearn(s)
  }

  function Validated(c: Ctx, pc: Pc): Pc
    requires pc.RxSnapshot?
  {
    var n := SeenCount(pc.ev.num);
    if c.activeGen != c.gen then Drain
    else if n > MAX_FRAME_SIZE || !Accepts(pc.opts, n) then RxCancelling(pc.ev)
    else RxInverting(pc.ev, pc.slot, pc.opts, n)
  }

  /** The hook reads the buffer the symbols are in and writes the other one. */
  function Hooked(s: State): State
    requires s.pc.RxHook?
  {
    match ActiveHook(s.pc.opts)
    case None => s.(pc := RxStoring(s.pc.ev, s.pc.slot, s.pc.n, s.pc.inScratch))
    case Some(f) =>
      var r := if s.pc.inScratch then f(s.rx.scratch[..s.pc.n], s.rx.raw) else f(s.rx.raw[..s.pc.n], s.rx.scratch);
      s.(rx := if s.pc.inScratch then s.rx.(raw := r.out) else s.rx.(scratch := r.out),
         pc := if r.len == 0 || r.len > MAX_FRAME_SIZE then RxCancelling(s.pc.ev)
               else RxStoring(s.pc.ev, s.pc.slot, r.len, !s.pc.inScratch))
  }

  function FinalFrame(rx: Rx, inScratch: bool, n: uint16): Option<Frame> {
    if 1 <= n <= MAX_FRAME_SIZE then Some(PaddedFrame((if inScratch then rx.scratch else rx.raw)[..n])) else None
  }

  function Stored(s: State, ok: bool): State
    requires s.pc.RxStoring?
  {
    var f := FinalFrame(s.rx, s.pc.inScratch, s.pc.finalN);
    if f.Some? && ok
    then s.(log := Log(s.log.slots0, s.log.slots[s.pc.slot := f.value],
                       s.log.trace + [Store(s.pc.slot, f.value, s.pc.ev.learn)]),
            pc := RxFinishing(s.pc.ev))
    else s.(rx := if f.Some? then s.rx.(failed := s.rx.failed + {s.pc.ev.learn}) else s.rx,
            pc := RxCancelling(s.pc.ev))
  }

  /** ir_do_learn_cancel, from a command or from the handler. */
  function CancelLearn(s: State): State {
    if s.ctx.mode == Learning then s.(ctx := s.ctx.Cancelled(), rx := Disabled(s.rx), pc := Drain) else s.(pc := Drain)
  }

  // ---------- Commands ----------

  predicate CmdEnabled(s: State, c: CmdStep) {
    match c
    case CmdTimeout => s.pc.TakeCmd? && s.cmds.queue == []
    case CmdTake => s.pc.TakeCmd? && s.cmds.queue != []
    case LearnBegin(accepted) => s.pc.LearnEntered? && s.cmds.taken != [] && (accepted && s.strict ==> s.rx.enabled)
    case AdvanceGen => s.pc.LearnArmed?
    case Cancel => s.pc.CancelEntered?
  }

  function Entry(cmd: Cmd): Pc {
    match cmd
    case LearnStart(slot, opts) => LearnEntered(slot, opts)
    case LearnCancel => CancelEntered
    case Send(slot, o) => SendEntered(slot, o)
  }

  function ApplyCmd(s: State, c: CmdStep): State
    requires CmdEnabled(s, c)
  {
    match c
    case CmdTimeout => s.(pc := Drain)
    case CmdTake =>
      s.(cmds := s.cmds.(queue := s.cmds.queue[1..], taken := s.cmds.taken + [s.cmds.queue[0]]),
         pc := Entry(s.cmds.queue[0]))
    case LearnBegin(accepted) =>
      if !s.ctx.MayLearn() then s.(pc := Drain)
      else s.(ctx := s.ctx.Armed(s.pc.slot, s.pc.opts, accepted), pc := LearnArmed,
              rx := if accepted then Requested(s.rx, s.pc.slot, s.pc.opts, |s.cmds.taken| - 1) else s.rx)
    case AdvanceGen => s.(ctx := s.ctx.NextGen(), pc := Drain)
    case Cancel => CancelLearn(s.(rx := if s.ctx.mode == Learning then CancelNoted(s.rx, s.cmds) else s.rx))
  }

  function CancelNoted(rx: Rx, c: Commands): Rx {
    if rx.learns == [] || c.taken == [] then rx
    else rx.(cancelled := rx.cancelled[|rx.learns| - 1 := |c.taken| - 1])
  }

  /** The driver took the receive of the learn start at position `cmd` among the taken commands. */
  function Requested(rx: Rx, slot: uint16, opts: Option<LearnOpts>, cmd: nat): Rx {
    rx.(armed := rx.armed + [|rx.learns|], learns := rx.learns + [Learn(slot, opts, cmd, rx.scratch, None)])
  }

  // ---------- Sending ----------

  predicate SendEnabled(s: State, x: SendStep) {
    match x
    case BeginSend => s.pc.SendEntered?
    case Load(found) => s.pc.SendLoading? && (found ==> s.pc.slot in s.log.slots)
    case Carrier(ok) => s.pc.SendCarrier? && (ok ==> GoodCarrier(s.pc.o))
    case Round(_) => s.pc.SendRound? && s.pc.frame.Valid()
    case Wait(_) => s.pc.SendWaiting?
    case FinishSend => s.pc.SendEnding?
  }

  /** The worker moves on, making `e` observable. */
  function Emit(s: State, e: Event, pc: Pc): State {
    s.(log := s.log.(trace := s.log.trace + [e]), pc := pc)
  }

  function NextRound(pc: Pc): Pc
    requires pc.SendWaiting?
  {
    SendRound(pc.slot, pc.o, pc.begin, pc.frame, pc.i + 1)
  }

  function ApplySend(s: State, x: SendStep): State
    requires SendEnabled(s, x)
  {
    match x
    case BeginSend =>
      if s.ctx.MaySend()
      then Emit(s.(ctx := s.ctx.(mode := Mode.Sending)), SendBegin(s.pc.slot, s.pc.o),
                SendLoading(s.pc.slot, s.pc.o, |s.log.trace|))
      else s.(pc := Drain)
    case Load(found) =>
      s.(pc := if found && s.log.slots[s.pc.slot].Valid()
               then SendCarrier(s.pc.slot, s.pc.o, s.pc.begin, s.log.slots[s.pc.slot])
               else SendEnding(false, s.pc.begin))
    case Carrier(ok) =>
      s.(pc := if ok then SendRound(s.pc.slot, s.pc.o, s.pc.begin, s.pc.frame, 0) else SendEnding(false, s.pc.begin))
    case Round(ok) =>
      if s.pc.i >= TotalOf(s.pc.o) then s.(pc := SendEnding(true, s.pc.begin))
      else if !ok then s.(pc := SendEnding(false, s.pc.begin))
      else Emit(s, Transmit(s.pc.frame.Payload()), SendWaiting(s.pc.slot, s.pc.o, s.pc.begin, s.pc.frame, s.pc.i))
    case Wait(ok) =>
      if s.pc.o.blocking && !ok then s.(pc := SendEnding(false, s.pc.begin))
      else if s.pc.o.gapUs != 0 && s.pc.i + 1 < TotalOf(s.pc.o) then Emit(s, Gap(GapMs(s.pc.o)), NextRound(s.pc))
      else s.(pc := NextRound(s.pc))
    case FinishSend =>
      Emit(s.(ctx := s.ctx.(mode := Idle)), SendEnd(s.pc.ok, s.pc.begin), Drain)
  }

  // ---------- Runs ----------

  predicate Enabled(s: State, st: Step) {
    match st
    case Env(e) => EnvEnabled(s, e)
    case Handler(h) => HandlerEnabled(s, h)
    case Command(c) => CmdEnabled(s, c)
    case Sending(x) => SendEnabled(s, x)
  }

  function Apply(s: State, st: Step): State
    requires Enabled(s, st)
  {
    match st
    case Env(e) => ApplyEnv(s, e)
    case Handler(h) => ApplyHandler(s, h)
    case Command(c) => ApplyCmd(s, c)
    case Sending(x) => ApplySend(s, x)
  }

  /** The state a run from `s` ends in, or None if some step of it was not enabled. */
  function After(s: State, run: seq<Step>): Option<State> {
    if run == [] then Some(s) else
    var before := After(s, run[..|run| - 1]);
    if before.Some? && Enabled(before.value, run[|run| - 1])
    then Some(Apply(before.value, run[|run| - 1]))
    else None
  }
}
