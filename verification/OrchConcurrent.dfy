/** The orchestrator under concurrent callers and event deliveries: every atomic access is one step. */
module OrchConcurrent {
  import opened Common
  import opened Orch

  /** How far a request has come. `zeroAt` and `first` are the position of a fetch that returned 0 and was thrown away,
    * `fetch` that of the one whose value is the operation number. */
  datatype Progress =
    | Refused(answer: Answer)
    | Admitted
    | Retrying(zeroAt: nat)
    | Allocated(id: uint32, first: Option<nat>, fetch: nat)
    | Dispatched(id: uint32, first: Option<nat>, fetch: nat)
  {
    /** The positions among all fetches that this request has made. */
    predicate Made(j: nat) {
      match this
      case Retrying(zeroAt) => j == zeroAt
      case Allocated(_, first, fetch) => j == fetch || first == Some(j)
      case Dispatched(_, first, fetch) => j == fetch || first == Some(j)
      case _ => false
    }

    predicate MadeBelow(n: nat) {
      match this
      case Retrying(zeroAt) => zeroAt < n
      case Allocated(_, first, fetch) => fetch < n && (first.Some? ==> first.value < n)
      case Dispatched(_, first, fetch) => fetch < n && (first.Some? ==> first.value < n)
      case _ => true
    }

    predicate HasId() {
      Allocated? || Dispatched?
    }
  }

  /** A request, the state its single read saw, and how many events had been delivered by then. */
  datatype Call = Call(cmd: nat, seen: uint32, readAt: nat, progress: Progress)

  datatype System = System(state: uint32, counter: uint32, events: seq<Evt>, calls: seq<Call>, fetches: seq<nat>)

  datatype Step = Deliver(e: Evt) | Request(cmd: nat) | Fetch(k: nat) | Dispatch(k: nat)

  predicate Init(s: System) {
    s == System(BOOT, 1, [], [], [])
  }

  predicate Enabled(s: System, st: Step) {
    match st
    case Deliver(e) => e.Valid()
    case Request(_) => true
    case Fetch(k) => k < |s.calls| && (s.calls[k].progress.Admitted? || s.calls[k].progress.Retrying?)
    case Dispatch(k) => k < |s.calls| && s.calls[k].progress.Allocated?
  }

  function Apply(s: System, st: Step): System
    requires Enabled(s, st)
  {
    match st
    case Deliver(e) => s.(state := if Announced(e).Some? then Announced(e).value else s.state, events := s.events + [e])
    case Request(cmd) =>
      var progress := if Admits(s.state, cmd) then Admitted else Refused(Refusal(s.state, cmd));
      s.(calls := s.calls + [Call(cmd, s.state, |s.events|, progress)])
    case Fetch(k) => Fetched(s, k)
    case Dispatch(k) =>
      var p := s.calls[k].progress;
      s.(calls := s.calls[k := s.calls[k].(progress := Dispatched(p.id, p.first, p.fetch))])
  }

  /** A fetch-add by request k. Only the first of a request's two fetches is checked against 0. */
  function Fetched(s: System, k: nat): System
    requires k < |s.calls| && (s.calls[k].progress.Admitted? || s.calls[k].progress.Retrying?)
  {
    var p := s.calls[k].progress;
    var p' := if p.Retrying? then Allocated(s.counter, Some(p.zeroAt), |s.fetches|)
              else if s.counter == 0 then Retrying(|s.fetches|)
              else Allocated(s.counter, None, |s.fetches|);
    s.(counter := (s.counter + 1) % IDS, fetches := s.fetches + [k], calls := s.calls[k := s.calls[k].(progress := p')])
  }

  function After(s: System, run: seq<Step>): Option<System> {
    if run == [] then Some(s) else
    var before := After(s, run[..|run| - 1]);
    if before.Some? && Enabled(before.value, run[|run| - 1]) then Some(Apply(before.value, run[|run| - 1])) else None
  }

  /** The state that well-formed events lead to, from BOOT. */
  function Fold(events: seq<Evt>): uint32 {
    if events == [] then BOOT else
    var e := events[|events| - 1];
    if e.Valid() && Announced(e).Some? then Announced(e).value else Fold(events[..|events| - 1])
  }

  /** It is the one the last well-formed event announced, or BOOT before any. */
  lemma {:induction false} FoldIsLast(events: seq<Evt>, k: nat)
    requires k <= |events| && forall i :: 0 <= i < |events| ==> events[i].Valid()
    requires forall i :: k <= i < |events| ==> Announced(events[i]).None?
    ensures k == 0 ==> Fold(events) == 0
    ensures k > 0 && Announced(events[k - 1]).Some? ==> Fold(events) == Announced(events[k - 1]).value
  {
    if k < |events| {
      FoldIsLast(events[..|events| - 1], k);
    }
  }

  /** The value the j-th fetch-add returns. */
  function Value(j: nat): uint32 {
    (1 + j) % IDS
  }

  ghost predicate StateInv(s: System) {
    && s.state == Fold(s.events)
    && s.counter == Value(|s.fetches|)
    && (forall j :: 0 <= j < |s.fetches| ==> s.fetches[j] < |s.calls|)
  }

  ghost predicate ReadOk(events: seq<Evt>, c: Call) {
    && c.readAt <= |events| && c.seen == Fold(events[..c.readAt])
    && (if c.progress.Refused? then !Admits(c.seen, c.cmd) && c.progress.answer == Refusal(c.seen, c.cmd)
        else Admits(c.seen, c.cmd))
  }

  ghost predicate IdOk(p: Progress) {
    && (p.Retrying? ==> Value(p.zeroAt) == 0)
    && (p.HasId() ==>
         && p.id == Value(p.fetch)
         && (if p.first.Some? then p.first.value < p.fetch && Value(p.first.value) == 0 else p.id != 0))
  }

  /** The fetches made by request k are exactly those its progress tells of. */
  ghost predicate FetchesOk(fetches: seq<nat>, k: nat, p: Progress) {
    && p.MadeBelow(|fetches|)
    && (forall j :: 0 <= j < |fetches| ==> (fetches[j] == k <==> p.Made(j)))
  }

  ghost predicate CallOk(s: System, k: nat)
    requires k < |s.calls|
  {
    ReadOk(s.events, s.calls[k]) && IdOk(s.calls[k].progress) && FetchesOk(s.fetches, k, s.calls[k].progress)
  }

  ghost predicate CallsInv(s: System) {
    forall k :: 0 <= k < |s.calls| ==> CallOk(s, k)
  }

  lemma DeliverKeeps(s: System, e: Evt)
    requires StateInv(s) && CallsInv(s) && e.Valid()
    ensures StateInv(Apply(s, Deliver(e))) && CallsInv(Apply(s, Deliver(e)))
  {
    var t := Apply(s, Deliver(e));
    assert t.events[..|s.events|] == s.events;
    forall k | 0 <= k < |t.calls| ensures CallOk(t, k) {
      assert CallOk(s, k);
      assert t.events[..s.calls[k].readAt] == s.events[..s.calls[k].readAt];
    }
  }

  lemma RequestKeeps(s: System, cmd: nat)
    requires StateInv(s) && CallsInv(s)
    ensures StateInv(Apply(s, Request(cmd))) && CallsInv(Apply(s, Request(cmd)))
  {
    var t := Apply(s, Request(cmd));
    assert s.events[..|s.events|] == s.events;
    forall k | 0 <= k < |t.calls| ensures CallOk(t, k) {
      if k < |s.calls| {
        assert CallOk(s, k);
      }
    }
  }

  lemma FetchKeepsState(s: System, k: nat)
    requires StateInv(s) && Enabled(s, Fetch(k))
    ensures StateInv(Fetched(s, k))
  {
  }

  /** The request that fetched. */
  lemma FetchKeepsOwn(s: System, k: nat)
    requires StateInv(s) && Enabled(s, Fetch(k)) && CallOk(s, k)
    ensures CallOk(Fetched(s, k), k)
  {
  }

  lemma FetchKeepsOther(s: System, k: nat, m: nat)
    requires Enabled(s, Fetch(k)) && m < |s.calls| && m != k && CallOk(s, m)
    ensures CallOk(Fetched(s, k), m)
  {
    OthersFetchesOk(s.fetches, k, m, s.calls[m].progress);
  }

  lemma OthersFetchesOk(fetches: seq<nat>, k: nat, m: nat, p: Progress)
    requires m != k && FetchesOk(fetches, m, p)
    ensures FetchesOk(fetches + [k], m, p)
  {
  }

  lemma FetchKeeps(s: System, k: nat)
    requires StateInv(s) && CallsInv(s) && Enabled(s, Fetch(k))
    ensures StateInv(Fetched(s, k)) && CallsInv(Fetched(s, k))
  {
    FetchKeepsState(s, k);
    FetchKeepsOwn(s, k);
    forall m | 0 <= m < |s.calls| ensures CallOk(Fetched(s, k), m) {
      if m != k {
        FetchKeepsOther(s, k, m);
      }
    }
  }

  lemma DispatchKeeps(s: System, k: nat)
    requires StateInv(s) && CallsInv(s) && Enabled(s, Dispatch(k))
    ensures StateInv(Apply(s, Dispatch(k))) && CallsInv(Apply(s, Dispatch(k)))
  {
    var t := Apply(s, Dispatch(k));
    forall m | 0 <= m < |t.calls| ensures CallOk(t, m) {
      assert CallOk(s, m);
    }
  }

  lemma {:induction false} RunKeepsInv(s0: System, run: seq<Step>)
    requires Init(s0) && After(s0, run).Some?
    ensures StateInv(After(s0, run).value) && CallsInv(After(s0, run).value)
  {
    if run != [] {
      RunKeepsInv(s0, run[..|run| - 1]);
      var s := After(s0, run[..|run| - 1]).value;
      match run[|run| - 1]
      case Deliver(e) => DeliverKeeps(s, e);
      case Request(cmd) => RequestKeeps(s, cmd);
      case Fetch(k) => FetchKeeps(s, k);
      case Dispatch(k) => DispatchKeeps(s, k);
    }
  }

  /** Admission over every interleaving: the state is the fold of the events, each request is judged by the
    * state after the events delivered before its one read, and exactly the admitted ones fetch numbers. */
  lemma AdmissionIsByTheStateRead(s0: System, run: seq<Step>, k: nat)
    requires Init(s0) && After(s0, run).Some? && k < |After(s0, run).value.calls|
    ensures var s := After(s0, run).value; var c := s.calls[k];
      && s.state == Fold(s.events)
      && c.readAt <= |s.events|
      && (if Admits(Fold(s.events[..c.readAt]), c.cmd) then !c.progress.Refused?
          else c.progress == Refused(Refusal(Fold(s.events[..c.readAt]), c.cmd)))
      && (c.progress.Refused? || c.progress.Admitted? <==> forall j :: 0 <= j < |s.fetches| ==> s.fetches[j] != k)
  {
    RunKeepsInv(s0, run);
    var s := After(s0, run).value;
    var c := s.calls[k];
    assert CallOk(s, k);
    match c.progress
    case Retrying(zeroAt) => assert c.progress.Made(zeroAt);
    case Allocated(_, _, fetch) => assert c.progress.Made(fetch);
    case Dispatched(_, _, fetch) => assert c.progress.Made(fetch);
    case _ =>
  }

  /** In every run a request that has got, or is getting, an operation number was a login seen in LOCKED or one of
    * the seven commands seen in NORMAL; all others were answered for a reason. */
  lemma OnlyLoginWhileLocked(s0: System, run: seq<Step>, k: nat)
    requires Init(s0) && After(s0, run).Some? && k < |After(s0, run).value.calls|
    ensures var s := After(s0, run).value; var c := s.calls[k];
      && c.readAt <= |s.events|
      && var seen := Fold(s.events[..c.readAt]);
      && c.seen == seen
      && (!c.progress.Refused? <==> (seen == 1 && c.cmd == 0) || (seen == 2 && c.cmd <= 6))
      && (c.progress.Refused? ==>
           c.progress.answer == if c.cmd > 6 then EInval else if seen == 0 then EBusy else EState)
  {
    RunKeepsInv(s0, run);
    assert CallOk(After(s0, run).value, k);
  }

  /** Operation numbers of different requests are equal exactly when a multiple of 2^32 fetches lies between
    * them: within any window of fewer than 2^32 fetches they are pairwise distinct. */
  lemma IdsAreDistinct(s0: System, run: seq<Step>, k: nat, m: nat)
    requires Init(s0) && After(s0, run).Some?
    requires var calls := After(s0, run).value.calls;
      k < |calls| && m < |calls| && k != m && calls[k].progress.HasId() && calls[m].progress.HasId()
    ensures var p, q := After(s0, run).value.calls[k].progress, After(s0, run).value.calls[m].progress;
      && p.fetch != q.fetch
      && (p.id == q.id <==> (p.fetch - q.fetch) % 0x1_0000_0000 == 0)
      && (-0x1_0000_0000 < p.fetch - q.fetch < 0x1_0000_0000 ==> p.id != q.id)
  {
    RunKeepsInv(s0, run);
    var s := After(s0, run).value;
    var p, q := s.calls[k].progress, s.calls[m].progress;
    assert CallOk(s, k) && CallOk(s, m);
    assert p.Made(p.fetch) && q.Made(q.fetch);
    SameValue(p.fetch, q.fetch);
  }

  /** An operation number is 0 exactly when a multiple of 2^32 fetches lies between the request's own two. */
  lemma IdIsZeroIff(s0: System, run: seq<Step>, k: nat)
    requires Init(s0) && After(s0, run).Some?
    requires var calls := After(s0, run).value.calls; k < |calls| && calls[k].progress.HasId()
    ensures var p := After(s0, run).value.calls[k].progress;
      && (p.id == 0 <==> p.first.Some? && (p.fetch - p.first.value) % 0x1_0000_0000 == 0)
      && (p.first.Some? ==> p.first.value < p.fetch && (p.fetch - p.first.value < 0x1_0000_0000 ==> p.id != 0))
  {
    RunKeepsInv(s0, run);
    var s := After(s0, run).value;
    var p := s.calls[k].progress;
    assert CallOk(s, k);
    if p.first.Some? {
      SameValue(p.fetch, p.first.value);
    }
  }

  lemma SameValue(i: nat, j: nat)
    ensures Value(i) == Value(j) <==> (i - j) % IDS == 0
    ensures i != j && -(IDS as int) < i - j < IDS ==> (i - j) % IDS != 0
  {
  }

  // ---------- A run that hands out 0 ----------

  lemma Extend(s0: System, run: seq<Step>, st: Step)
    requires After(s0, run).Some? && Enabled(After(s0, run).value, st)
    ensures After(s0, run + [st]) == Some(Apply(After(s0, run).value, st))
  {
    assert (run + [st])[..|run|] == run;
  }

  /** n new requests, each with one fetch. */
  lemma {:induction false} Traffic(s0: System, run: seq<Step>, n: nat) returns (run': seq<Step>)
    requires After(s0, run).Some? && After(s0, run).value.state == NORMAL
    ensures After(s0, run').Some?
    ensures var s, t := After(s0, run).value, After(s0, run').value;
      && t.state == NORMAL && t.counter == (s.counter + n) % IDS
      && |s.calls| <= |t.calls| && t.calls[..|s.calls|] == s.calls
  {
    run' := run;
    if n > 0 {
      run' := Traffic(s0, run, n - 1);
      var s, t := After(s0, run).value, After(s0, run').value;
      var k := |t.calls|;
      Extend(s0, run', Request(0));
      Extend(s0, run' + [Request(0)], Fetch(k));
      run' := run' + [Request(0)] + [Fetch(k)];
      StepUp(s.counter, n - 1);
    }
  }

  lemma StepUp(c: uint32, n: nat)
    ensures ((c + n) % IDS + 1) % IDS == (c + n + 1) % IDS
  {
  }

  function ToNormal(): (e: Evt)
    ensures e.Valid() && Announced(e) == Some(NORMAL)
  {
    Evt(EVT_STATE_CHANGED, STATE_CHANGED_SIZE, [0, 0, 0, 0, 2, 0, 0, 0, 0, 0, 0, 0, 0, 0, 0, 0])
  }

  /** The number 0 is handed out in this run: a request that fetched 0 is overtaken by 2^32-1 other fetches, and
    * its second fetch, which is not checked, returns 0 again. */
  lemma ZeroCanBeHandedOut(s0: System) returns (run: seq<Step>, k: nat)
    requires Init(s0)
    ensures After(s0, run).Some? && k < |After(s0, run).value.calls|
    ensures var p := After(s0, run).value.calls[k].progress; p.HasId() && p.id == 0
  {
    run := [];
    Extend(s0, run, Deliver(ToNormal()));
    run := Traffic(s0, run + [Deliver(ToNormal())], IDS - 1);
    k := |After(s0, run).value.calls|;
    Extend(s0, run, Request(0));
    run := run + [Request(0)];
    Extend(s0, run, Fetch(k));
    run := run + [Fetch(k)];
    var waiting := After(s0, run).value.calls[k];
    assert waiting.progress.Retrying?;
    var run' := Traffic(s0, run, IDS - 1);
    assert After(s0, run').value.calls[k] == waiting;
    Extend(s0, run', Fetch(k));
    run := run' + [Fetch(k)];
  }
}
