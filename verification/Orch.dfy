/** The orchestrator: the system state, the command gate and the allocator of operation numbers. */
module Orch {
  import opened Common
  import opened LittleEndian

  const CMD_ID_MAX: nat := 7
  const CMD_AUTH_LOGIN: nat := 0

  // Values of orch_state_t; an event can carry any other 32-bit value as well.
  const BOOT: uint32 := 0
  const LOCKED: uint32 := 1
  const NORMAL: uint32 := 2

  const EVT_STATE_CHANGED: uint16 := 1
  const STATE_CHANGED_SIZE: nat := 16

  const IDS: nat := 0x1_0000_0000

  /** An event of the bus, with its inline payload. */
  datatype Evt = Evt(id: uint16, len: uint16, payload: Bytes)
  {
    predicate Valid() {
      |payload| == STATE_CHANGED_SIZE
    }
  }

  /** The state a well-formed state-change event announces: the second word of its payload. */
  function Announced(e: Evt): Option<uint32>
    requires e.Valid()
  {
    if e.id == EVT_STATE_CHANGED && e.len == STATE_CHANGED_SIZE then Some(Get32(e.payload, 4)) else None
  }

  datatype Answer = EInval | EBusy | EState | Handled(code: int)

  predicate Admits(state: uint32, cmd: nat) {
    cmd < CMD_ID_MAX && (state == NORMAL || (state == LOCKED && cmd == CMD_AUTH_LOGIN))
  }

  /** Why a request that is not admitted is turned away. */
  function Refusal(state: uint32, cmd: nat): Answer {
    if cmd >= CMD_ID_MAX then EInval else if state == BOOT then EBusy else EState
  }

  /** Who gets in and why others do not, in numbers: states 0 BOOT, 1 LOCKED, 2 NORMAL; commands 0 to 6, 0 the
    * login. */
  lemma Admission(state: uint32, cmd: nat)
    ensures Admits(state, cmd) <==> (state == 1 && cmd == 0) || (state == 2 && cmd <= 6)
    ensures !Admits(state, cmd) ==>
      Refusal(state, cmd) == if cmd > 6 then EInval else if state == 0 then EBusy else EState
  {
  }

  /** A state-change event is one with number 1 and a 16-byte payload; bytes 4 to 7 are the new state. */
  lemma AnnouncedState(e: Evt)
    requires e.Valid()
    ensures Announced(e).Some? <==> e.id == 1 && e.len == 16
    ensures Announced(e).Some? ==>
      var b4: nat, b5: nat, b6: nat, b7: nat := e.payload[4], e.payload[5], e.payload[6], e.payload[7];
      Announced(e).value == b4 + 0x100 * b5 + 0x1_0000 * b6 + 0x100_0000 * b7
  {
  }

  class Orchestrator {
    var state: uint32
    var nextOpId: uint32
    ghost var handedOut: nat   // how many operation numbers were handed out

    /** Before the i-th allocation the counter holds the number to come, or 0 in place of 1 after wrapping. */
    ghost predicate Valid()
      reads this
    {
      var next := handedOut % (IDS - 1);
      nextOpId == 1 + next || (nextOpId == 0 && next == 0)
    }

    constructor ()
      ensures Valid() && state == BOOT && nextOpId == 1 && handedOut == 0
    {
      state, nextOpId, handedOut := BOOT, 1, 0;
    }

    method OnStateChange(evt: Option<Evt>)
      requires evt.Some? ==> evt.value.Valid()
      modifies `state
      ensures state == if evt.Some? && Announced(evt.value).Some? then Announced(evt.value).value else old(state)
    {
      if evt.None? || evt.value.id != EVT_STATE_CHANGED || evt.value.len != STATE_CHANGED_SIZE {
        return;
      }
      state := Get32(evt.value.payload, 4);
    }

    method FetchAdd() returns (before: uint32)
      modifies `nextOpId
      ensures before == old(nextOpId) && nextOpId == (old(nextOpId) + 1) % IDS
    {
      before := nextOpId;
      nextOpId := (nextOpId + 1) % IDS;
    }

    /** The i-th allocation, when calls do not overlap, is 1 + i modulo 2^32-1. */
    method NextOpId() returns (id: uint32)
      requires Valid()
      modifies `nextOpId, `handedOut
      ensures Valid() && handedOut == old(handedOut) + 1
      ensures id == 1 + old(handedOut) % 0xFFFF_FFFF
    {
      id := FetchAdd();
      if id == 0 {
        id := FetchAdd();
      }
      NextIndex(handedOut);
      handedOut := handedOut + 1;
    }

    /** Answers a request; `handler` gives what the command's handler would return for an operation number. In
      * LOCKED only the login is handled, in NORMAL every command, in BOOT none for now, in any other state none. */
    method ProcessReq(ctx: Option<nat>, handler: (nat, uint32) -> int) returns (answer: Answer, opId: Option<uint32>)
      requires Valid()
      modifies `nextOpId, `handedOut
      ensures Valid()
      ensures ctx.None? || ctx.value >= 7 ==> answer == EInval && opId.None?
      ensures ctx.Some? && ctx.value <= 6 && state == 0 ==> answer == EBusy && opId.None?
      ensures ctx.Some? && 1 <= ctx.value <= 6 && state == 1 ==> answer == EState && opId.None?
      ensures ctx.Some? && ctx.value <= 6 && state > 2 ==> answer == EState && opId.None?
      ensures ctx.Some? && ((state == 2 && ctx.value <= 6) || (state == 1 && ctx.value == 0)) ==>
        opId.Some? && answer == Handled(handler(ctx.value, opId.value))
      ensures opId.Some? <==> ctx.Some? && Admits(state, ctx.value)
      ensures opId.Some? ==>
        opId.value == 1 + old(handedOut) % 0xFFFF_FFFF && answer == Handled(handler(ctx.value, opId.value))
      ensures opId.None? ==>
        nextOpId == old(nextOpId) && answer == if ctx.None? then EInval else Refusal(state, ctx.value)
      ensures handedOut == old(handedOut) + (if opId.Some? then 1 else 0)
    {
      if ctx.None? || ctx.value >= CMD_ID_MAX {
        return EInval, None;
      }
      var cmd := ctx.value;
      var valid := false;
      if state == BOOT {
        return EBusy, None;
      } else if state == LOCKED {
        valid := cmd == CMD_AUTH_LOGIN;
      } else if state == NORMAL {
        valid := true;
      }
      if !valid {
        return EState, None;
      }
      var id := NextOpId();
      return Handled(handler(cmd, id)), Some(id);
    }
  }

  lemma NextIndex(i: nat)
    ensures (i + 1) % (IDS - 1) == if i % (IDS - 1) == IDS - 2 then 0 else i % (IDS - 1) + 1
  {
  }
}
