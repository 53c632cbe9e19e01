/** What becomes of each capture: no capture worth storing is lost unaccounted for. */
module IrOutcome {
  import opened Common
  import opened Symbols
  import opened IrTypes
  import opened IrProtocol
  import opened IrInvariants
  import opened IrHistory

  /** Learn i has been stored. */
  predicate HasStore(trace: seq<Event>, i: nat) {
    trace != [] &&
    (var e := trace[|trace| - 1];
     (e.Store? && e.learn == i) || HasStore(trace[..|trace| - 1], i))
  }

  lemma HasStoreGrows(trace: seq<Event>, e: Event, i: nat)
    ensures HasStore(trace + [e], i) <==> (e.Store? && e.learn == i) || HasStore(trace, i)
  {
    assert (trace + [e])[..|trace|] == trace;
  }

  lemma {:induction false} HasStoreIff(trace: seq<Event>, i: nat)
    ensures HasStore(trace, i) <==> exists k :: 0 <= k < |trace| && trace[k].Store? && trace[k].learn == i
  {
    if trace != [] {
      var before := trace[..|trace| - 1];
      HasStoreIff(before, i);
      if HasStore(before, i) {
        var k :| 0 <= k < |before| && before[k].Store? && before[k].learn == i;
        assert trace[k].Store? && trace[k].learn == i;
      } else if k :| 0 <= k < |trace| && trace[k].Store? && trace[k].learn == i {
        assert k < |before| ==> before[k].Store? && before[k].learn == i;
      }
    }
  }

  /** The number of learns whose outcome is settled: all but the latest while it goes on. */
  function Decided(c: Ctx, pc: Pc, n: nat): nat {
    if c.mode == Learning && !pc.RxFinishing? && !pc.RxCancelling? && n > 0 then n - 1 else n
  }

  /** One learn's outcome: none yet; or at most one of stored, callback failed and cancelled, and one of them if
    * its capture was to be stored. */
  ghost predicate Outcome(l: Learn, decided: bool, stored: bool, failed: bool, cancelled: Option<nat>,
                          taken: seq<Cmd>)
  {
    if !decided then !stored && !failed && cancelled.None?
    else
      && (cancelled.Some? ==>
           l.cmd < cancelled.value < |taken| && taken[cancelled.value] == LearnCancel && !stored && !failed)
      && !(stored && failed)
      && (l.capture.Some? && Result(l).Some? ==> stored || failed || cancelled.Some?)
  }

  function CancelOf(rx: Rx, i: nat): Option<nat> {
    if i in rx.cancelled then Some(rx.cancelled[i]) else None
  }

  ghost predicate OutcomeOf(s: State, i: nat)
    requires i < |s.rx.learns|
  {
    Outcome(s.rx.learns[i], i < Decided(s.ctx, s.pc, |s.rx.learns|), HasStore(s.log.trace, i), i in s.rx.failed,
            CancelOf(s.rx, i), s.cmds.taken)
  }

  /** Nothing is on record for learns still to come. */
  ghost predicate NoneAhead(rx: Rx, trace: seq<Event>) {
    forall i: nat :: i >= |rx.learns| ==> i !in rx.failed && i !in rx.cancelled && !HasStore(trace, i)
  }

  ghost predicate Records(s: State) {
    NoneAhead(s.rx, s.log.trace) && forall i :: 0 <= i < |s.rx.learns| ==> OutcomeOf(s, i)
  }

  /** A learn that goes on has exactly one capture outstanding, armed only as long as it is not complete. */
  ghost predicate Progress(c: Ctx, pc: Pc, rx: Rx) {
    && (c.mode == Learning ==> Outstanding(pc, rx) == 1)
    && (rx.armed != [] && rx.armed[0] < |rx.learns| ==> rx.learns[rx.armed[0]].capture == None)
  }

  ghost predicate CancelTaken(pc: Pc, taken: seq<Cmd>) {
    pc.CancelEntered? ==> taken != [] && taken[|taken| - 1] == LearnCancel
  }

  ghost predicate OutcomeInv(s: State) {
    Progress(s.ctx, s.pc, s.rx) && CancelTaken(s.pc, s.cmds.taken) && Records(s)
  }

  /** What the invariants of the other modules provide. */
  ghost predicate Basis(s: State) {
    BaseInv(s) && LearnInv(s) && CommandInv(s)
  }

  /** A step that decides nothing. */
  lemma RecordsCarryOver(s: State, t: State)
    requires Records(s) && t.rx.learns == s.rx.learns && t.rx.failed == s.rx.failed && t.rx.cancelled == s.rx.cancelled
    requires forall i: nat :: HasStore(t.log.trace, i) <==> HasStore(s.log.trace, i)
    requires s.cmds.taken <= t.cmds.taken
    requires Decided(t.ctx, t.pc, |s.rx.learns|) == Decided(s.ctx, s.pc, |s.rx.learns|)
    ensures Records(t)
  {
    forall i | 0 <= i < |t.rx.learns| ensures OutcomeOf(t, i) {
      assert OutcomeOf(s, i);
    }
  }

  lemma EnvKeepsOutcome(s: State, e: EnvStep)
    requires Basis(s) && OutcomeInv(s) && EnvEnabled(s, e)
    ensures OutcomeInv(ApplyEnv(s, e))
  {
    var t := ApplyEnv(s, e);
    if e.Isr? {
      CompletionKeepsRecords(s, e.k, e.raw, e.num);
    } else {
      RecordsCarryOver(s, t);
    }
  }

  lemma CompletionKeepsRecords(s: State, k: nat, raw: Buffer, num: nat)
    requires Basis(s) && OutcomeInv(s) && EnvEnabled(s, Isr(k, raw, num))
    ensures Records(ApplyEnv(s, Isr(k, raw, num)))
  {
    var t := ApplyEnv(s, Isr(k, raw, num));
    forall i | 0 <= i < |t.rx.learns| ensures OutcomeOf(t, i) {
      assert OutcomeOf(s, i);
    }
  }

  lemma StoreKeepsRecords(s: State, ok: bool)
    requires Basis(s) && Records(s) && HandlerEnabled(s, StoreCall(ok))
    ensures Records(ApplyHandler(s, StoreCall(ok)))
  {
    var t := ApplyHandler(s, StoreCall(ok));
    forall i: nat
      ensures HasStore(t.log.trace, i) <==> HasStore(s.log.trace, i) || (t.pc.RxFinishing? && i == s.pc.ev.learn)
    {
      if t.pc.RxFinishing? {
        HasStoreGrows(s.log.trace, t.log.trace[|s.log.trace|], i);
      }
    }
    forall i | 0 <= i < |t.rx.learns| ensures OutcomeOf(t, i) {
      assert OutcomeOf(s, i);
    }
  }

  /** The handler turns down a capture that is not to be stored. */
  lemma NothingToStore(s: State, t: State)
    requires Records(s) && t == s.(rx := t.rx, pc := t.pc) && s.ctx.mode == Learning && t.pc.RxCancelling?
    requires t.rx.learns == s.rx.learns && t.rx.failed == s.rx.failed && t.rx.cancelled == s.rx.cancelled
    requires !s.pc.RxFinishing? && !s.pc.RxCancelling? && s.rx.learns != []
    requires var l := s.rx.learns[|s.rx.learns| - 1]; l.capture.Some? && Result(l).None?
    ensures Records(t)
  {
    forall i | 0 <= i < |t.rx.learns| ensures OutcomeOf(t, i) {
      assert OutcomeOf(s, i);
    }
  }

  lemma HandlerKeepsRecords(s: State, h: HandlerStep)
    requires Basis(s) && Records(s) && HandlerEnabled(s, h)
    ensures Records(ApplyHandler(s, h))
  {
    var t := ApplyHandler(s, h);
    if h.StoreCall? {
      StoreKeepsRecords(s, h.ok);
    } else if h.Validate? && t.pc.RxCancelling? {
      NothingToStore(s, t);
    } else if h.RunHook? && t.pc.RxCancelling? {
      NothingToStore(s, t);
    } else {
      HandlerDecidesNothing(s, h);
      RecordsCarryOver(s, t);
    }
  }

  lemma HandlerDecidesNothing(s: State, h: HandlerStep)
    requires BaseInv(s) && HandlerEnabled(s, h) && !h.StoreCall?
    requires (h.Validate? || h.RunHook?) ==> !ApplyHandler(s, h).pc.RxCancelling?
    ensures var t := ApplyHandler(s, h); var n := |s.rx.learns|;
      && t.log == s.log && t.cmds == s.cmds && t.rx.learns == s.rx.learns
      && t.rx.failed == s.rx.failed && t.rx.cancelled == s.rx.cancelled
      && Decided(t.ctx, t.pc, n) == Decided(s.ctx, s.pc, n)
  {
  }

  lemma HandlerKeepsProgress(s: State, h: HandlerStep)
    requires BaseInv(s) && HandlerEnabled(s, h) && Progress(s.ctx, s.pc, s.rx)
    ensures var t := ApplyHandler(s, h); Progress(t.ctx, t.pc, t.rx) && !t.pc.CancelEntered?
  {
  }

  lemma HandlerKeepsOutcome(s: State, h: HandlerStep)
    requires Basis(s) && OutcomeInv(s) && HandlerEnabled(s, h)
    ensures OutcomeInv(ApplyHandler(s, h))
  {
    HandlerKeepsProgress(s, h);
    HandlerKeepsRecords(s, h);
  }

  lemma CancelKeepsRecords(s: State)
    requires Basis(s) && OutcomeInv(s) && CmdEnabled(s, Cancel)
    ensures Records(ApplyCmd(s, Cancel))
  {
    var t := ApplyCmd(s, Cancel);
    forall i | 0 <= i < |t.rx.learns| ensures OutcomeOf(t, i) {
      assert OutcomeOf(s, i);
    }
  }

  lemma BeginKeepsRecords(s: State, accepted: bool)
    requires BaseInv(s) && Records(s) && CmdEnabled(s, LearnBegin(accepted))
    ensures Records(ApplyCmd(s, LearnBegin(accepted)))
  {
    var t := ApplyCmd(s, LearnBegin(accepted));
    forall i | 0 <= i < |t.rx.learns| ensures OutcomeOf(t, i) {
      assert i < |s.rx.learns| ==> OutcomeOf(s, i);
    }
  }

  lemma CmdKeepsProgress(s: State, c: CmdStep)
    requires BaseInv(s) && CmdEnabled(s, c) && Progress(s.ctx, s.pc, s.rx)
    ensures var t := ApplyCmd(s, c); Progress(t.ctx, t.pc, t.rx) && CancelTaken(t.pc, t.cmds.taken)
  {
  }

  lemma CmdKeepsOutcome(s: State, c: CmdStep)
    requires Basis(s) && OutcomeInv(s) && CmdEnabled(s, c)
    ensures OutcomeInv(ApplyCmd(s, c))
  {
    CmdKeepsProgress(s, c);
    match c
    case Cancel => CancelKeepsRecords(s);
    case LearnBegin(accepted) => BeginKeepsRecords(s, accepted);
    case _ => RecordsCarryOver(s, ApplyCmd(s, c));
  }

  lemma SendStoresNothing(s: State, x: SendStep, i: nat)
    requires SendEnabled(s, x)
    ensures HasStore(ApplySend(s, x).log.trace, i) <==> HasStore(s.log.trace, i)
  {
    var t := ApplySend(s, x);
    if t.log != s.log {
      var e := t.log.trace[|s.log.trace|];
      assert t.log.trace == s.log.trace + [e];
      HasStoreGrows(s.log.trace, e, i);
    }
  }

  lemma SendKeepsModes(s: State, x: SendStep)
    requires ModeInv(s.ctx, s.pc) && SendEnabled(s, x)
    ensures var t := ApplySend(s, x);
      && t.rx == s.rx && t.cmds == s.cmds && !t.pc.CancelEntered? && !t.pc.Handling() && !s.pc.Handling()
      && (t.ctx.mode == Learning <==> s.ctx.mode == Learning)
  {
  }

  lemma SendKeepsOutcome(s: State, x: SendStep)
    requires Basis(s) && OutcomeInv(s) && SendEnabled(s, x)
    ensures OutcomeInv(ApplySend(s, x))
  {
    SendKeepsModes(s, x);
    forall i: nat ensures HasStore(ApplySend(s, x).log.trace, i) <==> HasStore(s.log.trace, i) {
      SendStoresNothing(s, x, i);
    }
    RecordsCarryOver(s, ApplySend(s, x));
  }
}
