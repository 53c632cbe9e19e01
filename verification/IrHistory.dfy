/** Histories of the controller: which learn a stored frame comes from, and the order of commands. */
module IrHistory {
  import opened Common
  import opened Symbols
  import opened IrTypes
  import opened IrProtocol
  import opened IrInvariants

  // ---------- Stores ----------

  /** The stored frame is the outcome of the capture of the very learn that chose the slot. */
  ghost predicate FreshStore(e: Event, learns: seq<Learn>)
    requires e.Store?
  {
    && e.learn < |learns|
    && learns[e.learn].slot == e.slot
    && learns[e.learn].capture.Some?
    && Result(learns[e.learn]) == Some(e.frame)
  }

  /** Every store is fresh and belongs to a learn below `bound`, and no learn stores twice. */
  ghost predicate StoresFresh(trace: seq<Event>, learns: seq<Learn>, bound: nat) {
    && (forall k :: 0 <= k < |trace| && trace[k].Store? ==> trace[k].learn < bound && FreshStore(trace[k], learns))
    && (forall j, k :: 0 <= j < k < |trace| && trace[j].Store? && trace[k].Store? ==> trace[j].learn < trace[k].learn)
  }

  /** The number of learns that may already have stored: all but one that is still waiting. */
  function Settled(c: Ctx, pc: Pc, rx: Rx): nat {
    if c.mode == Learning && !pc.RxFinishing? && rx.learns != [] then |rx.learns| - 1 else |rx.learns|
  }

  ghost predicate StoreInv(s: State) {
    StoresFresh(s.log.trace, s.rx.learns, Settled(s.ctx, s.pc, s.rx))
  }

  lemma OtherEventKeepsFresh(trace: seq<Event>, e: Event, learns: seq<Learn>, bound: nat)
    requires StoresFresh(trace, learns, bound) && !e.Store?
    ensures StoresFresh(trace + [e], learns, bound)
  {
  }

  lemma StoreKeepsFresh(trace: seq<Event>, e: Event, learns: seq<Learn>, bound: nat)
    requires StoresFresh(trace, learns, bound) && e.Store? && e.learn == bound && FreshStore(e, learns)
    ensures StoresFresh(trace + [e], learns, bound + 1)
  {
  }

  /** A change to learns that have not stored yet is invisible to the stores. */
  lemma LaterLearnsKeepFresh(trace: seq<Event>, learns: seq<Learn>, learns': seq<Learn>, bound: nat, bound': nat)
    requires StoresFresh(trace, learns, bound) && bound <= bound'
    requires bound <= |learns| && bound <= |learns'| && learns'[..bound] == learns[..bound]
    ensures StoresFresh(trace, learns', bound')
  {
    forall k | 0 <= k < |trace| && trace[k].Store? ensures FreshStore(trace[k], learns') {
      var l := trace[k].learn;
      assert learns'[l] == learns'[..bound][l] == learns[..bound][l];
    }
  }

  lemma EnvKeepsStores(s: State, e: EnvStep)
    requires BaseInv(s) && LearnInv(s) && StoreInv(s) && EnvEnabled(s, e)
    ensures StoreInv(ApplyEnv(s, e))
  {
    if e.Isr? {
      var t := ApplyEnv(s, e);
      LaterLearnsKeepFresh(s.log.trace, s.rx.learns, t.rx.learns,
                           Settled(s.ctx, s.pc, s.rx), Settled(t.ctx, t.pc, t.rx));
    }
  }

  lemma HandlerKeepsStores(s: State, h: HandlerStep)
    requires BaseInv(s) && LearnInv(s) && StoreInv(s) && HandlerEnabled(s, h)
    ensures StoreInv(ApplyHandler(s, h))
  {
    var t := ApplyHandler(s, h);
    if h.StoreCall? && t.pc.RxFinishing? {
      StoreKeepsFresh(s.log.trace, t.log.trace[|s.log.trace|], s.rx.learns, |s.rx.learns| - 1);
    } else {
      LaterLearnsKeepFresh(s.log.trace, s.rx.learns, t.rx.learns,
                           Settled(s.ctx, s.pc, s.rx), Settled(t.ctx, t.pc, t.rx));
    }
  }

  lemma CmdKeepsStores(s: State, c: CmdStep)
    requires BaseInv(s) && LearnInv(s) && StoreInv(s) && CmdEnabled(s, c)
    ensures StoreInv(ApplyCmd(s, c))
  {
    var t := ApplyCmd(s, c);
    LaterLearnsKeepFresh(s.log.trace, s.rx.learns, t.rx.learns, Settled(s.ctx, s.pc, s.rx), Settled(t.ctx, t.pc, t.rx));
  }

  lemma SendKeepsStores(s: State, x: SendStep)
    requires BaseInv(s) && LearnInv(s) && StoreInv(s) && SendEnabled(s, x)
    ensures StoreInv(ApplySend(s, x))
  {
    var t := ApplySend(s, x);
    assert t.rx == s.rx && Settled(t.ctx, t.pc, t.rx) == Settled(s.ctx, s.pc, s.rx);
    if t.log != s.log {
      var e := t.log.trace[|s.log.trace|];
      assert t.log.trace == s.log.trace + [e];
      OtherEventKeepsFresh(s.log.trace, e, s.rx.learns, Settled(s.ctx, s.pc, s.rx));
    }
  }

  // ---------- Commands ----------

  /** Learns stand in the order of the learn starts that made them, and carry what those asked for. */
  ghost predicate LearnsFromCommands(learns: seq<Learn>, taken: seq<Cmd>, bound: nat) {
    && bound <= |taken|
    && (forall k :: 0 <= k < |learns| ==>
         learns[k].cmd < bound && taken[learns[k].cmd] == LearnStart(learns[k].slot, learns[k].opts))
    && (forall j, k :: 0 <= j < k < |learns| ==> learns[j].cmd < learns[k].cmd)
  }

  /** The learns there are came from the commands before the one being started. */
  function LearnBound(pc: Pc, taken: seq<Cmd>): nat {
    if pc.LearnEntered? && taken != [] then |taken| - 1 else |taken|
  }

  ghost predicate QueueInv(c: Commands) {
    c.accepted == c.taken + c.queue && |c.queue| <= CMD_QUEUE_DEPTH
  }

  ghost predicate CommandInv(s: State) {
    && QueueInv(s.cmds)
    && LearnsFromCommands(s.rx.learns, s.cmds.taken, LearnBound(s.pc, s.cmds.taken))
    && (s.pc.LearnEntered? ==>
         s.cmds.taken != [] && s.cmds.taken[|s.cmds.taken| - 1] == LearnStart(s.pc.slot, s.pc.opts))
  }

  lemma EnqueueKeepsQueue(c: Commands, t: nat)
    requires QueueInv(c) && t in c.callers
    ensures QueueInv(Enqueued(c, t)) && Enqueued(c, t).taken == c.taken
  {
  }

  lemma CompletionKeepsCommands(rx: Rx, k: nat, raw: Buffer, num: nat, taken: seq<Cmd>, bound: nat)
    requires k < |rx.armed| && rx.armed[k] < |rx.learns| && LearnsFromCommands(rx.learns, taken, bound)
    ensures LearnsFromCommands(Completed(rx, k, raw, num).learns, taken, bound)
  {
  }

  lemma EnvKeepsCommands(s: State, e: EnvStep)
    requires CommandInv(s) && EnvEnabled(s, e)
    ensures CommandInv(ApplyEnv(s, e))
  {
    match e
    case ApiEnqueue(t) => EnqueueKeepsQueue(s.cmds, t);
    case Isr(k, raw, num) =>
      CompletionKeepsCommands(s.rx, k, raw, num, s.cmds.taken, LearnBound(s.pc, s.cmds.taken));
    case _ =>
  }

  lemma HandlerKeepsCommands(s: State, h: HandlerStep)
    requires CommandInv(s) && HandlerEnabled(s, h)
    ensures CommandInv(ApplyHandler(s, h))
  {
    var t := ApplyHandler(s, h);
    assert t.cmds == s.cmds && t.rx.learns == s.rx.learns && !t.pc.LearnEntered?;
  }

  lemma TakeKeepsCommands(s: State)
    requires CommandInv(s) && CmdEnabled(s, CmdTake)
    ensures CommandInv(ApplyCmd(s, CmdTake))
  {
    var c, t := s.cmds, ApplyCmd(s, CmdTake);
    assert QueueInv(t.cmds) by {
      assert c.queue == [c.queue[0]] + c.queue[1..];
    }
    assert forall k :: 0 <= k < |c.taken| ==> t.cmds.taken[k] == c.taken[k];
  }

  lemma BeginKeepsCommands(s: State, accepted: bool)
    requires CommandInv(s) && CmdEnabled(s, LearnBegin(accepted))
    ensures CommandInv(ApplyCmd(s, LearnBegin(accepted)))
  {
    var t := ApplyCmd(s, LearnBegin(accepted));
    assert t.cmds == s.cmds && !t.pc.LearnEntered?;
  }

  lemma CmdKeepsCommands(s: State, c: CmdStep)
    requires CommandInv(s) && CmdEnabled(s, c)
    ensures CommandInv(ApplyCmd(s, c))
  {
    match c
    case CmdTake => TakeKeepsCommands(s);
    case LearnBegin(accepted) => BeginKeepsCommands(s, accepted);
    case _ =>
      var t := ApplyCmd(s, c);
      assert t.cmds == s.cmds && t.rx.learns == s.rx.learns && !t.pc.LearnEntered?;
  }

  lemma SendKeepsCommands(s: State, x: SendStep)
    requires CommandInv(s) && SendEnabled(s, x)
    ensures CommandInv(ApplySend(s, x))
  {
    var t := ApplySend(s, x);
    assert t.cmds == s.cmds && t.rx == s.rx && !t.pc.LearnEntered?;
  }
}
