/** Commands, modes and the shared controller fields, with the changes the worker makes to them. */
module IrTypes {
  import opened Common
  import opened Symbols
  import opened LearnPipeline

  const RX_QUEUE_DEPTH: nat := 4
  const CMD_QUEUE_DEPTH: nat := 4

  datatype Mode = Uninit | Idle | Learning | Sending

  datatype SendOpts = SendOpts(repeat: uint32, gapUs: uint32, blocking: bool,
                               overrideCarrier: bool, carrierHz: uint32, duty: real)

  datatype Cmd =
    | LearnStart(slot: uint16, opts: Option<LearnOpts>)
    | LearnCancel
    | Send(slot: uint16, sendOpts: SendOpts)

  datatype Err = Ok | InvalidArg | InvalidState | NoMem | NotFound | InvalidSize | Fail

  type Slots = map<uint16, Frame>

  /** The fields the lock protects; hasStore and hasLoad say whether the slot callbacks were supplied. */
  datatype Ctx = Ctx(mode: Mode, slot: uint16, opts: Option<LearnOpts>, gen: uint16, activeGen: uint16,
                     hasStore: bool, hasLoad: bool)
  {
    predicate Busy() {
      mode == Learning || mode == Sending
    }

    /** A learn start is carried out rather than refused. */
    predicate MayLearn() {
      mode == Idle && hasStore
    }

    predicate MaySend() {
      mode == Idle && hasLoad
    }

    /** The handler treats a receive event as belonging to the current learn. */
    predicate Live() {
      mode == Learning && activeGen == gen
    }

    function Finished(): Ctx {
      this.(mode := Idle, slot := 0, opts := None)
    }

    function Cancelled(): Ctx {
      this.(activeGen := 0).Finished()
    }

    /** After the receive was requested: LEARNING if the driver took it, IDLE if not. */
    function Armed(slot: uint16, opts: Option<LearnOpts>, accepted: bool): Ctx {
      if accepted then this.(mode := Learning, slot := slot, opts := opts) else Finished()
    }

    function NextGen(): Ctx {
      var g := (gen + 1) % 0x1_0000;
      this.(gen := g, activeGen := g)
    }
  }

  /** What can be observed of the controller: stores into slots, and what goes on the air. `learn` numbers
    * the learn that chose the slot; `begin` is the position of the matching SendBegin. */
  datatype Event =
    | Store(slot: uint16, frame: Frame, learn: nat)
    | SendBegin(slot: uint16, sendOpts: SendOpts)
    | Transmit(symbols: seq<Symbol>)
    | Gap(ms: nat)
    | SendEnd(ok: bool, begin: nat)

  /** The changes of the fields, one by one. */
  lemma FieldChanges(c: Ctx, slot: uint16, opts: Option<LearnOpts>, accepted: bool)
    ensures c.Finished() == Ctx(Idle, 0, None, c.gen, c.activeGen, c.hasStore, c.hasLoad)
    ensures c.Cancelled() == Ctx(Idle, 0, None, c.gen, 0, c.hasStore, c.hasLoad)
    ensures c.Armed(slot, opts, accepted) ==
      if accepted then Ctx(Learning, slot, opts, c.gen, c.activeGen, c.hasStore, c.hasLoad)
      else Ctx(Idle, 0, None, c.gen, c.activeGen, c.hasStore, c.hasLoad)
    ensures var g := if c.gen == 0xFFFF then 0 else c.gen + 1;
      c.NextGen() == Ctx(c.mode, c.slot, c.opts, g, g, c.hasStore, c.hasLoad)
    ensures c.MayLearn() <==> c.mode == Idle && c.hasStore
    ensures c.MaySend() <==> c.mode == Idle && c.hasLoad
    ensures c.Busy() <==> c.mode == Learning || c.mode == Mode.Sending
    ensures c.Live() <==> c.mode == Learning && c.activeGen == c.gen
  {
  }

  /** What loading a slot answers when the callback works. */
  function LoadStatus(hasLoad: bool, slots: Slots, slot: uint16): Err {
    if !hasLoad then InvalidState
    else if slot !in slots then NotFound
    else if !slots[slot].Valid() then InvalidSize
    else Ok
  }

  predicate GoodCarrier(o: SendOpts) {
    o.overrideCarrier ==> o.carrierHz != 0 && 0.0 < o.duty < 1.0
  }

  /** What a send answers when every call it makes works. */
  function SendStatus(c: Ctx, slots: Slots, slot: uint16, o: SendOpts): Err {
    if !c.MaySend() then InvalidState
    else if LoadStatus(c.hasLoad, slots, slot) != Ok then LoadStatus(c.hasLoad, slots, slot)
    else if !GoodCarrier(o) then InvalidArg
    else Ok
  }

  /** The answers of a send whose calls all work, each with its cause; the first cause wins. */
  lemma SendAnswers(c: Ctx, slots: Slots, slot: uint16, o: SendOpts)
    ensures SendStatus(c, slots, slot, o) ==
      if c.mode != Idle || !c.hasLoad then InvalidState
      else if slot !in slots then NotFound
      else if slots[slot].numSyms == 0 || slots[slot].numSyms > 64 then InvalidSize
      else if o.overrideCarrier && (o.carrierHz == 0 || o.duty <= 0.0 || o.duty >= 1.0) then InvalidArg
      else Ok
    ensures LoadStatus(c.hasLoad, slots, slot) ==
      if !c.hasLoad then InvalidState
      else if slot !in slots then NotFound
      else if slots[slot].numSyms == 0 || slots[slot].numSyms > 64 then InvalidSize
      else Ok
    ensures GoodCarrier(o) <==> !o.overrideCarrier || (o.carrierHz > 0 && o.duty > 0.0 && o.duty < 1.0)
  {
  }

  /** 32-bit arithmetic: a repeat count of 2^32-1 wraps to no transmission at all. */
  function TotalOf(o: SendOpts): uint32 {
    (1 + o.repeat) % 0x1_0000_0000
  }

  /** The pause between frames in milliseconds, rounded up in 32-bit arithmetic. */
  function GapMs(o: SendOpts): nat {
    (o.gapUs + 999) % 0x1_0000_0000 / 1000
  }

  /** The pause, if any, that ends round k. */
  function PauseAfter(o: SendOpts, k: nat, total: nat): seq<Event> {
    if o.gapUs != 0 && k < total then [Gap(GapMs(o))] else []
  }

  /** What is on the air after the first k of `total` rounds: a pause after every round but the last. */
  function Airtime(symbols: seq<Symbol>, o: SendOpts, k: nat, total: nat): seq<Event>
    requires k <= total
  {
    if k == 0 then []
    else Airtime(symbols, o, k - 1, total) + [Transmit(symbols)] + PauseAfter(o, k, total)
  }

  lemma {:induction false} AirtimeGrows(symbols: seq<Symbol>, o: SendOpts, k: nat, m: nat, total: nat)
    requires k <= m <= total
    ensures Airtime(symbols, o, k, total) <= Airtime(symbols, o, m, total)
  {
    if k < m {
      AirtimeGrows(symbols, o, k, m - 1, total);
    }
  }

  lemma AirtimeNext(symbols: seq<Symbol>, o: SendOpts, k: nat, total: nat)
    requires k < total
    ensures var sent := Airtime(symbols, o, k, total) + [Transmit(symbols)];
      Airtime(symbols, o, k + 1, total) == if o.gapUs != 0 && k + 1 < total then sent + [Gap(GapMs(o))] else sent
  {
    var sent := Airtime(symbols, o, k, total) + [Transmit(symbols)];
    assert sent + [] == sent;
  }

  /** A send that stops inside round k has put a prefix of the complete send on the air. */
  lemma RoundIsOnTheWay(start: seq<Event>, symbols: seq<Symbol>, o: SendOpts, k: nat, total: nat)
    requires k < total
    ensures start + Airtime(symbols, o, k, total) <= start + Airtime(symbols, o, total, total)
    ensures start + Airtime(symbols, o, k, total) + [Transmit(symbols)] <= start + Airtime(symbols, o, total, total)
    ensures start + Airtime(symbols, o, k, total) + [Transmit(symbols)]
            + (if o.gapUs != 0 && k + 1 < total then [Gap(GapMs(o))] else [])
         == start + Airtime(symbols, o, k + 1, total)
  {
    AirtimeGrows(symbols, o, k, total, total);
    AirtimeGrows(symbols, o, k + 1, total, total);
    var a, t := Airtime(symbols, o, k, total), [Transmit(symbols)];
    assert Airtime(symbols, o, k + 1, total) == a + t + (if o.gapUs != 0 && k + 1 < total then [Gap(GapMs(o))] else []);
    assert start + a + t == start + (a + t);
  }

  function Transmissions(tr: seq<Event>): nat {
    if tr == [] then 0 else Transmissions(tr[..|tr| - 1]) + (if tr[|tr| - 1].Transmit? then 1 else 0)
  }

  function Pauses(tr: seq<Event>): nat {
    if tr == [] then 0 else Pauses(tr[..|tr| - 1]) + (if tr[|tr| - 1].Gap? then 1 else 0)
  }

  lemma CountsOfAppend(tr: seq<Event>, e: Event)
    ensures Transmissions(tr + [e]) == Transmissions(tr) + (if e.Transmit? then 1 else 0)
    ensures Pauses(tr + [e]) == Pauses(tr) + (if e.Gap? then 1 else 0)
  {
    assert (tr + [e])[..|tr|] == tr;
  }

  lemma {:induction false} PrefixTransmitsLess(a: seq<Event>, b: seq<Event>)
    requires a <= b
    ensures Transmissions(a) <= Transmissions(b)
  {
    if |a| < |b| {
      PrefixTransmitsLess(a, b[..|b| - 1]);
    } else {
      assert a == b;
    }
  }

  /** One round: a transmission and at most one pause. */
  lemma CountsOfRound(before: seq<Event>, t: Event, g: seq<Event>)
    requires t.Transmit? && (g == [] || (|g| == 1 && g[0].Gap?))
    ensures Transmissions(before + [t] + g) == Transmissions(before) + 1
    ensures Pauses(before + [t] + g) == Pauses(before) + |g|
  {
    CountsOfAppend(before, t);
    if g == [] {
      assert before + [t] + g == before + [t];
    } else {
      CountsOfAppend(before + [t], g[0]);
      assert before + [t] + g == before + [t] + [g[0]];
    }
  }

  lemma {:induction false} CountsInside(symbols: seq<Symbol>, o: SendOpts, k: nat, total: nat)
    requires k < total
    ensures Transmissions(Airtime(symbols, o, k, total)) == k
    ensures Pauses(Airtime(symbols, o, k, total)) == if o.gapUs == 0 then 0 else k
  {
    if k > 0 {
      CountsInside(symbols, o, k - 1, total);
      CountsOfRound(Airtime(symbols, o, k - 1, total), Transmit(symbols), PauseAfter(o, k, total));
    }
  }

  /** k of `total` rounds are k transmissions and a pause after each of them but the last of all. */
  lemma AirtimeCounts(symbols: seq<Symbol>, o: SendOpts, k: nat, total: nat)
    requires k <= total
    ensures Transmissions(Airtime(symbols, o, k, total)) == k
    ensures Pauses(Airtime(symbols, o, k, total))
         == if o.gapUs == 0 then 0 else if k < total || k == 0 then k else k - 1
  {
    if k < total {
      CountsInside(symbols, o, k, total);
    } else if k > 0 {
      CountsInside(symbols, o, k - 1, total);
      CountsOfRound(Airtime(symbols, o, k - 1, total), Transmit(symbols), PauseAfter(o, k, total));
    }
  }

  /** A complete send transmits the frame repeat+1 times with repeat pauses when a gap is asked for,
    * except at repeat = 2^32-1, where it transmits nothing. */
  lemma CompleteSendCounts(symbols: seq<Symbol>, o: SendOpts)
    ensures var a := Airtime(symbols, o, TotalOf(o), TotalOf(o));
      && Transmissions(a) == (if o.repeat == 0xFFFF_FFFF then 0 else o.repeat + 1)
      && Pauses(a) == (if o.repeat == 0xFFFF_FFFF || o.gapUs == 0 then 0 else o.repeat)
  {
    AirtimeCounts(symbols, o, TotalOf(o), TotalOf(o));
  }

  /** The pause is at least the gap asked for exactly when adding 999 does not wrap. */
  lemma GapIsLongEnough(o: SendOpts)
    ensures GapMs(o) * 1000 >= o.gapUs <==> o.gapUs <= 0xFFFF_FFFF - 999
  {
  }

  /** The pause is the gap asked for, rounded up to whole milliseconds; above 2^32-1000 it is none. */
  lemma GapIsRoundedUp(o: SendOpts)
    ensures o.gapUs <= 0xFFFF_FFFF - 999 ==> o.gapUs <= GapMs(o) * 1000 < o.gapUs + 1000
    ensures o.gapUs > 0xFFFF_FFFF - 999 ==> GapMs(o) == 0
  {
  }

  /** The number of rounds. */
  lemma RoundsOfSend(o: SendOpts)
    ensures TotalOf(o) == if o.repeat == 0xFFFF_FFFF then 0 else o.repeat + 1
  {
  }

  /** Event by event: with a gap, transmissions and pauses take turns, beginning and ending with a transmission
    * once all rounds are done; without one there are only transmissions. */
  lemma {:induction false} AirtimeAt(symbols: seq<Symbol>, o: SendOpts, k: nat, total: nat, j: nat)
    requires k <= total
    ensures var a := Airtime(symbols, o, k, total);
      && |a| == (if o.gapUs == 0 then k else if k < total || k == 0 then 2 * k else 2 * k - 1)
      && (j < |a| ==> a[j] == if o.gapUs == 0 || j % 2 == 0 then Transmit(symbols) else Gap(GapMs(o)))
  {
    if k > 0 {
      AirtimeAt(symbols, o, k - 1, total, j);
    }
  }
}
