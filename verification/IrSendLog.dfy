/** What is stored and what is sent, as a trace of events: the order the worker keeps them in. */
module IrSendLog {
  import opened Common
  import opened Symbols
  import opened IrTypes
  import opened IrProtocol

  // ---------- Traces ----------

  /** The slot store that a trace leads to: a map updated by every store. */
  function SlotsAfter(slots0: Slots, trace: seq<Event>): Slots {
    if trace == [] then slots0 else
    var e := trace[|trace| - 1];
    var before := SlotsAfter(slots0, trace[..|trace| - 1]);
    if e.Store? then before[e.slot := e.frame] else before
  }

  /** A send that is still going on: where it began, what it was asked for, and the events since. */
  datatype Open = Open(begin: nat, slot: uint16, o: SendOpts, sent: seq<Event>)

  /** The send going on after an event at position `at`. */
  function NextOpen(open: Option<Open>, at: nat, e: Event): Option<Open> {
    match e
    case SendBegin(slot, o) => Some(Open(at, slot, o, []))
    case SendEnd(_, _) => None
    case _ => if open.Some? then Some(open.value.(sent := open.value.sent + [e])) else None
  }

  function OpenSend(trace: seq<Event>): Option<Open> {
    if trace == [] then None
    else NextOpen(OpenSend(trace[..|trace| - 1]), |trace| - 1, trace[|trace| - 1])
  }

  /** The events of an open send are the trace's events since its beginning. */
  lemma {:induction false} OpenSendIsSlice(trace: seq<Event>)
    requires OpenSend(trace).Some?
    ensures var u := OpenSend(trace).value;
      && u.begin < |trace| && trace[u.begin] == SendBegin(u.slot, u.o)
      && u.sent == trace[u.begin + 1..]
  {
    var before, e := trace[..|trace| - 1], trace[|trace| - 1];
    if !e.SendBegin? {
      OpenSendIsSlice(before);
      assert trace == before + [e];
    }
  }

  /** What slot `slot` holds, if that can be sent. */
  function Sendable(slots: Slots, slot: uint16): Option<seq<Symbol>> {
    if slot in slots && slots[slot].Valid() then Some(slots[slot].Payload()) else None
  }

  /** Everything a send of `slot` puts on the air if nothing stops it: nothing for an empty slot or a carrier
    * that is refused. */
  function Pattern(slots: Slots, slot: uint16, o: SendOpts): seq<Event> {
    if Sendable(slots, slot).Some? && GoodCarrier(o)
    then Airtime(Sendable(slots, slot).value, o, TotalOf(o), TotalOf(o))
    else []
  }

  /** `e` may come next. Stores and new sends come only between sends; transmissions and pauses only inside
    * one, and only as the continuation of its pattern, with the symbols the slot holds at that moment; a send
    * ends well only after its whole pattern. */
  predicate Follows(slots: Slots, open: Option<Open>, e: Event) {
    match e
    case Store(_, _, _) => open.None?
    case SendBegin(_, _) => open.None?
    case Transmit(symbols) =>
      && open.Some?
      && Sendable(slots, open.value.slot) == Some(symbols)
      && open.value.sent + [e] <= Pattern(slots, open.value.slot, open.value.o)
    case Gap(_) =>
      open.Some? && open.value.sent + [e] <= Pattern(slots, open.value.slot, open.value.o)
    case SendEnd(ok, begin) =>
      && open.Some? && begin == open.value.begin
      && (ok ==> Ended(slots, open.value))
  }

  /** The send has put its whole pattern on the air. */
  predicate Ended(slots: Slots, u: Open) {
    Sendable(slots, u.slot).Some? && GoodCarrier(u.o) && u.sent == Pattern(slots, u.slot, u.o)
  }

  predicate TraceOk(slots0: Slots, trace: seq<Event>) {
    trace == [] ||
    (var before := trace[..|trace| - 1];
     TraceOk(slots0, before) && Follows(SlotsAfter(slots0, before), OpenSend(before), trace[|trace| - 1]))
  }

  lemma {:induction false} TraceOkAt(slots0: Slots, trace: seq<Event>, k: nat)
    requires TraceOk(slots0, trace) && k < |trace|
    ensures TraceOk(slots0, trace[..k]) && Follows(SlotsAfter(slots0, trace[..k]), OpenSend(trace[..k]), trace[k])
  {
    if k < |trace| - 1 {
      TraceOkAt(slots0, trace[..|trace| - 1], k);
      assert trace[..|trace| - 1][..k] == trace[..k];
    }
  }

  lemma TraceGrows(slots0: Slots, trace: seq<Event>, e: Event)
    requires TraceOk(slots0, trace) && Follows(SlotsAfter(slots0, trace), OpenSend(trace), e)
    ensures TraceOk(slots0, trace + [e])
    ensures SlotsAfter(slots0, trace + [e])
         == if e.Store? then SlotsAfter(slots0, trace)[e.slot := e.frame] else SlotsAfter(slots0, trace)
    ensures OpenSend(trace + [e]) == NextOpen(OpenSend(trace), |trace|, e)
  {
    assert (trace + [e])[..|trace|] == trace;
  }

  /** At no time, however the send goes on or ends, has it put anything but a beginning of its pattern on the air. */
  lemma {:induction false} OpenSendIsPrefix(slots0: Slots, trace: seq<Event>)
    requires TraceOk(slots0, trace) && OpenSend(trace).Some?
    ensures var u := OpenSend(trace).value; u.sent <= Pattern(SlotsAfter(slots0, trace), u.slot, u.o)
  {
    var before, e := trace[..|trace| - 1], trace[|trace| - 1];
    if !e.SendBegin? {
      OpenSendIsPrefix(slots0, before);
    }
  }

  // ---------- The worker's sends ----------

  /** What the worker's variables say the open send is; the last case leaves the events open. */
  ghost predicate SendFits(pc: Pc, slots: Slots, u: Open)
    requires pc.InSend()
  {
    && u.begin == pc.begin
    && match pc
       case SendLoading(slot, o, _) => u.slot == slot && u.o == o && u.sent == []
       case SendCarrier(slot, o, _, frame) => Carries(slots, u, slot, o, frame) && u.sent == []
       case SendRound(slot, o, _, frame, i) =>
         && Carries(slots, u, slot, o, frame) && GoodCarrier(o) && i <= TotalOf(o)
         && u.sent == Airtime(frame.Payload(), o, i, TotalOf(o))
       case SendWaiting(slot, o, _, frame, i) =>
         && Carries(slots, u, slot, o, frame) && GoodCarrier(o) && i < TotalOf(o)
         && u.sent == Airtime(frame.Payload(), o, i, TotalOf(o)) + [Transmit(frame.Payload())]
       case SendEnding(ok, _) => ok ==> Ended(slots, u)
  }

  predicate Carries(slots: Slots, u: Open, slot: uint16, o: SendOpts, frame: Frame) {
    u.slot == slot && u.o == o && slot in slots && slots[slot] == frame && frame.Valid()
  }

  ghost predicate SendInv(pc: Pc, slots: Slots, open: Option<Open>) {
    if pc.InSend() then open.Some? && SendFits(pc, slots, open.value) else open.None?
  }

  ghost predicate LogInv(s: State) {
    && s.log.slots == SlotsAfter(s.log.slots0, s.log.trace)
    && TraceOk(s.log.slots0, s.log.trace)
    && SendInv(s.pc, s.log.slots, OpenSend(s.log.trace))
  }

  /** An event that may follow, together with a move of the worker that fits it, keeps the log in order. */
  lemma EmitKeepsLog(s: State, e: Event, pc: Pc)
    requires LogInv(s) && !e.Store? && Follows(s.log.slots, OpenSend(s.log.trace), e)
    requires SendInv(pc, s.log.slots, NextOpen(OpenSend(s.log.trace), |s.log.trace|, e))
    ensures LogInv(Emit(s, e, pc))
  {
    TraceGrows(s.log.slots0, s.log.trace, e);
  }

  lemma EnvKeepsLog(s: State, e: EnvStep)
    requires LogInv(s) && EnvEnabled(s, e)
    ensures LogInv(ApplyEnv(s, e))
  {
    var t := ApplyEnv(s, e);
    assert t.log == s.log && t.pc == s.pc;
  }

  lemma HandlerKeepsLog(s: State, h: HandlerStep)
    requires LogInv(s) && HandlerEnabled(s, h)
    ensures LogInv(ApplyHandler(s, h))
  {
    var t := ApplyHandler(s, h);
    assert !s.pc.InSend() && !t.pc.InSend();
    if h.StoreCall? && t.pc.RxFinishing? {
      var f := FinalFrame(s.rx, s.pc.inScratch, s.pc.finalN).value;
      TraceGrows(s.log.slots0, s.log.trace, Store(s.pc.slot, f, s.pc.ev.learn));
    } else {
      assert t.log == s.log;
    }
  }

  lemma CmdKeepsLog(s: State, c: CmdStep)
    requires LogInv(s) && CmdEnabled(s, c)
    ensures LogInv(ApplyCmd(s, c))
  {
    var t := ApplyCmd(s, c);
    assert t.log == s.log && !s.pc.InSend() && !t.pc.InSend();
  }

  lemma TransmitFits(pc: Pc, slots: Slots, u: Open, e: Event)
    requires pc.SendRound? && SendFits(pc, slots, u) && pc.i < TotalOf(pc.o) && e == Transmit(pc.frame.Payload())
    ensures Follows(slots, Some(u), e)
    ensures SendFits(SendWaiting(pc.slot, pc.o, pc.begin, pc.frame, pc.i), slots, u.(sent := u.sent + [e]))
  {
    AirtimeNext(pc.frame.Payload(), pc.o, pc.i, TotalOf(pc.o));
    AirtimeGrows(pc.frame.Payload(), pc.o, pc.i + 1, TotalOf(pc.o), TotalOf(pc.o));
  }

  lemma PauseFits(pc: Pc, slots: Slots, u: Open, e: Event)
    requires pc.SendWaiting? && SendFits(pc, slots, u) && e == Gap(GapMs(pc.o))
    requires pc.o.gapUs != 0 && pc.i + 1 < TotalOf(pc.o)
    ensures Follows(slots, Some(u), e)
    ensures SendFits(NextRound(pc), slots, u.(sent := u.sent + [e]))
  {
    AirtimeNext(pc.frame.Payload(), pc.o, pc.i, TotalOf(pc.o));
    AirtimeGrows(pc.frame.Payload(), pc.o, pc.i + 1, TotalOf(pc.o), TotalOf(pc.o));
  }

  lemma NoPauseFits(pc: Pc, slots: Slots, u: Open)
    requires pc.SendWaiting? && SendFits(pc, slots, u) && !(pc.o.gapUs != 0 && pc.i + 1 < TotalOf(pc.o))
    ensures SendFits(NextRound(pc), slots, u)
  {
    AirtimeNext(pc.frame.Payload(), pc.o, pc.i, TotalOf(pc.o));
  }

  lemma RoundKeepsLog(s: State, ok: bool)
    requires LogInv(s) && SendEnabled(s, Round(ok))
    ensures LogInv(ApplySend(s, Round(ok)))
  {
    if s.pc.i < TotalOf(s.pc.o) && ok {
      var e := Transmit(s.pc.frame.Payload());
      TransmitFits(s.pc, s.log.slots, OpenSend(s.log.trace).value, e);
      EmitKeepsLog(s, e, SendWaiting(s.pc.slot, s.pc.o, s.pc.begin, s.pc.frame, s.pc.i));
    }
  }

  lemma WaitKeepsLog(s: State, ok: bool)
    requires LogInv(s) && SendEnabled(s, Wait(ok))
    ensures LogInv(ApplySend(s, Wait(ok)))
  {
    var u := OpenSend(s.log.trace).value;
    if s.pc.o.blocking && !ok {
    } else if s.pc.o.gapUs != 0 && s.pc.i + 1 < TotalOf(s.pc.o) {
      PauseFits(s.pc, s.log.slots, u, Gap(GapMs(s.pc.o)));
      EmitKeepsLog(s, Gap(GapMs(s.pc.o)), NextRound(s.pc));
    } else {
      NoPauseFits(s.pc, s.log.slots, u);
    }
  }

  lemma BeginKeepsLog(s: State)
    requires LogInv(s) && SendEnabled(s, BeginSend)
    ensures LogInv(ApplySend(s, BeginSend))
  {
    if s.ctx.MaySend() {
      EmitKeepsLog(s.(ctx := s.ctx.(mode := Mode.Sending)), SendBegin(s.pc.slot, s.pc.o),
                   SendLoading(s.pc.slot, s.pc.o, |s.log.trace|));
    }
  }

  lemma FinishKeepsLog(s: State)
    requires LogInv(s) && SendEnabled(s, FinishSend)
    ensures LogInv(ApplySend(s, FinishSend))
  {
    EmitKeepsLog(s.(ctx := s.ctx.(mode := Idle)), SendEnd(s.pc.ok, s.pc.begin), Drain);
  }

  lemma SendKeepsLog(s: State, x: SendStep)
    requires LogInv(s) && SendEnabled(s, x)
    ensures LogInv(ApplySend(s, x))
  {
    match x
    case BeginSend => BeginKeepsLog(s);
    case Round(ok) => RoundKeepsLog(s, ok);
    case Wait(ok) => WaitKeepsLog(s, ok);
    case FinishSend => FinishKeepsLog(s);
    case Load(_) => assert ApplySend(s, x).log == s.log;
    case Carrier(_) => assert ApplySend(s, x).log == s.log;
  }
}
