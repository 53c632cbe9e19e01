/** The NEC normalisation hook: snapping captured durations to the protocol's nominal values. */
module NecCanon {
  import opened Common
  import opened Symbols

  const LEAD0: Duration := 9000
  const LEAD1: Duration := 4500
  const REPEAT1: Duration := 2250
  const SHORT: Duration := 560
  const LONG: Duration := 1690

  /** Half-way between SHORT and LONG. */
  const THRESHOLD: Duration := 1125

  function Abs(x: int): nat {
    if x < 0 then -x else x
  }

  predicate Within(v: Duration, nominal: Duration, tolerance: nat) {
    Abs(v - nominal) <= tolerance
  }

  function Snap2(v: Duration, a: Duration, b: Duration): Duration {
    if Abs(v - a) <= Abs(v - b) then a else b
  }

  // The bins the code tests for, one predicate a test.

  predicate IsEnd(s: Symbol) {
    s.duration1 == 0
  }

  predicate IsLead(s: Symbol) {
    Within(s.duration0, LEAD0, 1200) && Within(s.duration1, LEAD1, 1200)
  }

  predicate IsRepeat(s: Symbol) {
    Within(s.duration0, LEAD0, 1200) && Within(s.duration1, REPEAT1, 800)
  }

  predicate IsZero(s: Symbol) {
    Within(s.duration0, SHORT, 250) && Within(s.duration1, SHORT, 250)
  }

  predicate IsOne(s: Symbol) {
    Within(s.duration0, SHORT, 250) && Within(s.duration1, LONG, 350)
  }

  function WithDurations(s: Symbol, d0: Duration, d1: Duration): Symbol {
    s.(duration0 := d0, duration1 := d1)
  }

  function Threshold(d: Duration): Duration {
    if d <= THRESHOLD then SHORT else LONG
  }

  /** The simple form: end marker, leading code, repeat code, and otherwise one threshold a duration. */
  function Canonical(s: Symbol): Symbol {
    if IsEnd(s) then WithDurations(s, SHORT, 0)
    else if IsLead(s) then WithDurations(s, LEAD0, LEAD1)
    else if IsRepeat(s) then WithDurations(s, LEAD0, REPEAT1)
    else WithDurations(s, Threshold(s.duration0), Threshold(s.duration1))
  }

  function CanonicalAll(s: seq<Symbol>): (r: seq<Symbol>)
    ensures |r| == |s|
  {
    seq(|s|, i requires 0 <= i < |s| => Canonical(s[i]))
  }

  /** The hook as the learn pipeline sees it: symbols past the frame keep what the buffer held. */
  function NecHook(input: seq<Symbol>, before: Buffer): HookResult {
    if 1 <= |input| <= MAX_FRAME_SIZE
    then HookResult(Overwrite(before, CanonicalAll(input)), |input|)
    else HookResult(before, 0)
  }

  /** The code's five tests and its fallback, on a symbol in place; proved equal to the simple form. */
  method CanonicalizeAt(a: array<Symbol>, i: nat)
    requires i < a.Length
    modifies a
    ensures a[..] == old(a[..])[i := Canonical(old(a[i]))]
  {
    var d0, d1 := a[i].duration0, a[i].duration1;
    if d1 == 0 {
      a[i] := a[i].(duration0 := Snap2(d0, SHORT, SHORT));
      return;
    }
    if Within(d0, LEAD0, 1200) && Within(d1, LEAD1, 1200) {
      a[i] := a[i].(duration0 := LEAD0, duration1 := LEAD1);
      return;
    }
    if Within(d0, LEAD0, 1200) && Within(d1, REPEAT1, 800) {
      a[i] := a[i].(duration0 := LEAD0, duration1 := REPEAT1);
      return;
    }
    if Within(d0, SHORT, 250) && Within(d1, SHORT, 250) {
      a[i] := a[i].(duration0 := SHORT, duration1 := SHORT);
      return;
    }
    if Within(d0, SHORT, 250) && Within(d1, LONG, 350) {
      a[i] := a[i].(duration0 := SHORT, duration1 := LONG);
      return;
    }
    a[i] := a[i].(duration0 := Snap2(d0, SHORT, LONG), duration1 := Snap2(d1, SHORT, LONG));
  }

  /** ir_post_nec_canon: copy through, then canonicalise in place. The buffers may even be the same. */
  method PostNecCanon(input: array<Symbol>, n: uint16, out: array<Symbol>) returns (outN: uint16)
    requires n <= input.Length && out.Length == MAX_FRAME_SIZE
    modifies out
    ensures HookResult(out[..], outN) == NecHook(old(input[..n]), old(out[..]))
  {
    if n == 0 || n > MAX_FRAME_SIZE {
      return 0;
    }
    ghost var src, before := input[..n], out[..];
    for i := 0 to n
      invariant forall k :: 0 <= k < i ==> out[k] == src[k]
      invariant forall k :: i <= k < MAX_FRAME_SIZE ==> out[k] == before[k]
      invariant forall k :: i <= k < n ==> input[k] == src[k]
    {
      out[i] := input[i];
    }
    for i := 0 to n
      invariant forall k :: 0 <= k < i ==> out[k] == Canonical(src[k])
      invariant forall k :: i <= k < n ==> out[k] == src[k]
      invariant forall k :: n <= k < MAX_FRAME_SIZE ==> out[k] == before[k]
    {
      ghost var now := out[..];
      CanonicalizeAt(out, i);
      assert forall k :: 0 <= k < MAX_FRAME_SIZE && k != i ==> out[..][k] == now[k];
    }
    assert out[..] == Overwrite(before, CanonicalAll(src));
    return n;
  }

  /** The four cases in numbers: end marker, leading code, repeat code, data. */
  lemma CanonicalInNumbers(s: Symbol)
    ensures var c := Canonical(s); var d0, d1 := s.duration0, s.duration1;
      && c.level0 == s.level0 && c.level1 == s.level1
      && (c.duration0, c.duration1) ==
           if d1 == 0 then (560, 0)
           else if 7800 <= d0 <= 10200 && 3300 <= d1 <= 5700 then (9000, 4500)
           else if 7800 <= d0 <= 10200 && 1450 <= d1 <= 3050 then (9000, 2250)
           else (if d0 <= 1125 then 560 else 1690, if d1 <= 1125 then 560 else 1690)
  {
  }

  /** The hook writes one canonical symbol for each of 1..64 input symbols and leaves the rest of its buffer
    * alone; any other length is rejected with nothing written. */
  lemma NecHookInNumbers(input: seq<Symbol>, before: Buffer)
    ensures var r := NecHook(input, before);
      if 1 <= |input| <= 64 then
        && r.len == |input|
        && forall i :: 0 <= i < 64 ==> r.out[i] == if i < |input| then Canonical(input[i]) else before[i]
      else r.len == 0 && r.out == before
  {
  }

  /** The nominal symbols and the tolerances in numbers. */
  lemma TolerancesInNumbers(c: Symbol, s: Symbol)
    ensures var d := (c.duration0, c.duration1);
      Nominal(c) <==> d in {(9000, 4500), (9000, 2250), (560, 560), (560, 1690), (560, 0)}
    ensures Nominal(c) ==> (Jittered(c, s) <==>
      && c.level0 == s.level0 && c.level1 == s.level1
      && (c.duration1 == 0 ==> s.duration1 == 0)
      && (c.duration0 == 9000 ==> 7800 <= s.duration0 <= 10200)
      && (c.duration0 == 560 && c.duration1 != 0 ==> 310 <= s.duration0 <= 810)
      && (c.duration1 == 4500 ==> 3300 <= s.duration1 <= 5700)
      && (c.duration1 == 2250 ==> 1450 <= s.duration1 <= 3050)
      && (c.duration1 == 560 ==> 310 <= s.duration1 <= 810)
      && (c.duration1 == 1690 ==> 1340 <= s.duration1 <= 2040))
  {
  }

  /** No symbol is in two bins, so the order of the tests is immaterial. */
  lemma BinsAreDisjoint(s: Symbol)
    ensures !(IsEnd(s) && (IsLead(s) || IsRepeat(s) || IsZero(s) || IsOne(s)))
    ensures !(IsLead(s) && (IsRepeat(s) || IsZero(s) || IsOne(s)))
    ensures !(IsRepeat(s) && (IsZero(s) || IsOne(s)))
    ensures !(IsZero(s) && IsOne(s))
  {
  }

  lemma CanonicalIdempotent(s: Symbol)
    ensures Canonical(Canonical(s)) == Canonical(s)
  {
  }

  /** A symbol whose durations are nominal NEC values. */
  predicate Nominal(c: Symbol) {
    || (c.duration0 == LEAD0 && c.duration1 in {LEAD1, REPEAT1})
    || (c.duration0 == SHORT && c.duration1 in {SHORT, LONG, 0})
  }

  /** `s` is the nominal symbol `c` as received: same levels, every duration inside the code's tolerance. */
  predicate Jittered(c: Symbol, s: Symbol) {
    && c.level0 == s.level0 && c.level1 == s.level1
    && (if c.duration1 == 0 then IsEnd(s)
        else if c.duration0 == LEAD0 then if c.duration1 == LEAD1 then IsLead(s) else IsRepeat(s)
        else if c.duration1 == SHORT then IsZero(s) else IsOne(s))
  }

  /** The exact set of received symbols that decode to a nominal one: its own bin, widened for data bits
    * to everything on the right side of the threshold that is not a leading or a repeat code. */
  lemma DecodingRegion(c: Symbol, s: Symbol)
    requires Nominal(c)
    ensures Canonical(s) == c
       <==> c.level0 == s.level0 && c.level1 == s.level1 &&
            (Jittered(c, s) || (c.duration0 == SHORT && c.duration1 != 0 && !IsEnd(s) &&
                                s.duration0 <= THRESHOLD && (s.duration1 <= THRESHOLD <==> c.duration1 == SHORT)))
  {
  }

  /** Error correction over a whole frame: any per-symbol jitter inside the tolerances is removed. */
  lemma FrameCorrected(sent: seq<Symbol>, received: seq<Symbol>)
    requires |sent| == |received|
    requires forall i :: 0 <= i < |sent| ==> Nominal(sent[i]) && Jittered(sent[i], received[i])
    ensures CanonicalAll(received) == sent
  {
    forall i | 0 <= i < |sent| ensures Canonical(received[i]) == sent[i] {
      DecodingRegion(sent[i], received[i]);
    }
  }

  lemma CanonicalCommutesWithInversion(s: seq<Symbol>)
    ensures CanonicalAll(Inverted(s)) == Inverted(CanonicalAll(s))
  {
    forall i | 0 <= i < |s| ensures Canonical(InvertedSymbol(s[i])) == InvertedSymbol(Canonical(s[i])) {
    }
  }
}
