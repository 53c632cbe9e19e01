/** What one learn stores: acceptance, optional inversion, optional hook, zero padding. */
module LearnPipeline {
  import opened Common
  import opened Symbols
  import opened NecCanon

  /** A learn's options. The hook's user context is part of the function value. */
  datatype LearnOpts = LearnOpts(minSymbols: uint16, maxSymbols: uint16,
                                 invert: bool, normalize: bool, hook: Option<Hook>)

  predicate Accepts(opts: Option<LearnOpts>, n: uint16) {
    opts.Some? ==>
      && (opts.value.minSymbols != 0 ==> opts.value.minSymbols <= n)
      && (opts.value.maxSymbols != 0 ==> n <= opts.value.maxSymbols)
  }

  predicate Inverts(opts: Option<LearnOpts>) {
    opts.Some? && opts.value.invert
  }

  function ActiveHook(opts: Option<LearnOpts>): Option<Hook> {
    if opts.Some? && opts.value.normalize then opts.value.hook else None
  }

  /** The bounds the learn API rewrites before it queues a command. */
  function ClampOpts(o: LearnOpts): LearnOpts {
    o.(maxSymbols := if o.maxSymbols == 0 || o.maxSymbols > MAX_FRAME_SIZE then MAX_FRAME_SIZE else o.maxSymbols,
       minSymbols := if o.minSymbols > MAX_FRAME_SIZE then MAX_FRAME_SIZE else o.minSymbols)
  }

  function Clamped(opts: Option<LearnOpts>): Option<LearnOpts> {
    if opts.Some? then Some(ClampOpts(opts.value)) else None
  }

  function MaybeInverted(syms: seq<Symbol>, invert: bool): (r: seq<Symbol>)
    ensures |r| == |syms|
  {
    if invert then Inverted(syms) else syms
  }

  /** The 16 bits of the driver's symbol count that the handler looks at. */
  function SeenCount(num: nat): uint16 {
    num % 0x1_0000
  }

  /** The object a learn hands to the slot store, or None when it rejects the capture.
    * `raw` is the receive buffer at completion, `num` the driver's count; the hook is given
    * the buffer its input is not in. */
  function LearnResult(raw: Buffer, scratch: Buffer, num: nat, opts: Option<LearnOpts>): Option<Frame> {
    var n := SeenCount(num);
    if n > MAX_FRAME_SIZE || !Accepts(opts, n) then None else
    var src := MaybeInverted(raw[..n], Inverts(opts));
    match ActiveHook(opts)
    case Some(h) =>
      var r := h(src, if Inverts(opts) then raw else scratch);
      if 1 <= r.len <= MAX_FRAME_SIZE then Some(PaddedFrame(r.out[..r.len])) else None
    case None =>
      if n == 0 then None else Some(PaddedFrame(src))
  }

  /** A learn without options stores every capture of 1..64 symbols as it came, and no other; the driver's
    * count is taken modulo 2^16. */
  lemma StoredWithoutOptions(raw: Buffer, scratch: Buffer, num: nat)
    ensures var n, r := num % 0x1_0000, LearnResult(raw, scratch, num, None);
      && (r.Some? <==> 1 <= n <= 64)
      && (r.Some? ==> r.value.numSyms == n)
      && forall i :: 0 <= i < 64 && r.Some? ==>
           r.value.data[i] == if i < n then raw[i] else Symbol(false, 0, false, 0)
  {
  }

  /** Options without a hook in use: the bounds decide, and inversion flips the levels. */
  lemma StoredWithoutHook(raw: Buffer, scratch: Buffer, num: nat, o: LearnOpts)
    requires !o.normalize || o.hook.None?
    ensures var n, r := num % 0x1_0000, LearnResult(raw, scratch, num, Some(o));
      && (r.Some? <==>
           1 <= n <= 64 && (o.minSymbols == 0 || o.minSymbols <= n) && (o.maxSymbols == 0 || n <= o.maxSymbols))
      && (r.Some? ==> r.value.numSyms == n)
      && forall i :: 0 <= i < 64 && r.Some? ==>
           var s := raw[i];
           r.value.data[i] == if i >= n then Symbol(false, 0, false, 0)
                              else if o.invert then Symbol(!s.level0, s.duration0, !s.level1, s.duration1)
                              else s
  {
  }

  /** With a hook in use: it sees the capture, inverted if asked for, and the buffer the capture is not in; what
    * it reports is stored if that is 1..64 symbols. */
  lemma StoredWithHook(raw: Buffer, scratch: Buffer, num: nat, o: LearnOpts, h: Hook, input: seq<Symbol>)
    requires o.normalize && o.hook == Some(h)
    requires |input| == num % 0x1_0000 <= 64
    requires forall i :: 0 <= i < |input| ==>
      var s := raw[i];
      input[i] == if o.invert then Symbol(!s.level0, s.duration0, !s.level1, s.duration1) else s
    ensures var n, r := num % 0x1_0000, LearnResult(raw, scratch, num, Some(o));
      var hooked := h(input, if o.invert then raw else scratch);
      && (r.Some? <==>
           && (o.minSymbols == 0 || o.minSymbols <= n) && (o.maxSymbols == 0 || n <= o.maxSymbols)
           && 1 <= hooked.len <= 64)
      && (r.Some? ==> r.value.numSyms == hooked.len)
      && forall i :: 0 <= i < 64 && r.Some? ==>
           r.value.data[i] == if i < hooked.len then hooked.out[i] else Symbol(false, 0, false, 0)
  {
    var n := SeenCount(num);
    assert input == MaybeInverted(raw[..n], o.invert);
  }

  /** Captures of more than 64 symbols are never stored. */
  lemma TooLongIsNotStored(raw: Buffer, scratch: Buffer, num: nat, opts: Option<LearnOpts>)
    requires num % 0x1_0000 > 64
    ensures LearnResult(raw, scratch, num, opts) == None
  {
  }

  /** The API changes nothing in the caller's options but bounds outside 1..64 and 0..64. */
  lemma ClampedFields(o: LearnOpts)
    ensures Clamped(None) == None && Clamped(Some(o)).Some?
    ensures var c := Clamped(Some(o)).value;
      && c.invert == o.invert && c.normalize == o.normalize && c.hook == o.hook
      && c.maxSymbols == (if 1 <= o.maxSymbols <= 64 then o.maxSymbols else 64)
      && c.minSymbols == (if o.minSymbols <= 64 then o.minSymbols else 64)
  {
  }

  /** So a learn stores the same with clamped options as with the caller's, but in one case: a minimum above 64,
    * which no capture meets, lets a capture of 64 symbols through. */
  lemma ClampKeepsResult(raw: Buffer, scratch: Buffer, num: nat, o: LearnOpts)
    ensures o.minSymbols <= 64 || num % 0x1_0000 != 64 ==>
      LearnResult(raw, scratch, num, Clamped(Some(o))) == LearnResult(raw, scratch, num, Some(o))
    ensures o.minSymbols > 64 && num % 0x1_0000 == 64 ==>
      && LearnResult(raw, scratch, num, Some(o)) == None
      && LearnResult(raw, scratch, num, Clamped(Some(o))) == LearnResult(raw, scratch, num, Some(o.(minSymbols := 0)))
  {
  }

  /** The normalised form, symbol by symbol. */
  lemma NormalizedAt(syms: seq<Symbol>, invert: bool, normalize: bool, i: nat)
    requires i < |syms|
    ensures var s := syms[i];
      var t := if invert then Symbol(!s.level0, s.duration0, !s.level1, s.duration1) else s;
      Normalized(syms, invert, normalize)[i] == if normalize then Canonical(t) else t
  {
  }

  /** Whatever is stored has 1..64 symbols and zeros behind them. */
  lemma StoredIsPadded(raw: Buffer, scratch: Buffer, num: nat, opts: Option<LearnOpts>)
    ensures var r := LearnResult(raw, scratch, num, opts);
      r.Some? ==> r.value.Valid() && r.value == PaddedFrame(r.value.Payload())
  {
    var r := LearnResult(raw, scratch, num, opts);
    if r.Some? {
      var f := r.value;
      assert f.data[..f.numSyms] + f.data[f.numSyms..] == f.data;
      assert f.data[f.numSyms..] == Zeros(MAX_FRAME_SIZE)[f.numSyms..];
    }
  }

  /** The hook `h` writes exactly the symbols `g(input)`, whatever its output buffer held. */
  ghost predicate Writes(h: Hook, g: seq<Symbol> -> seq<Symbol>) {
    forall input, before: Buffer ::
      var r := h(input, before);
      r.len == |g(input)| && (r.len <= MAX_FRAME_SIZE ==> r.out[..r.len] == g(input))
  }

  /** For such a hook the stored object is the padded post(invert(capture)); leftovers in the buffers play no part. */
  lemma StoresPostOfInvert(raw: Buffer, scratch: Buffer, num: nat, opts: LearnOpts, h: Hook,
                           g: seq<Symbol> -> seq<Symbol>)
    requires Writes(h, g) && opts.hook == Some(h) && opts.normalize
    requires SeenCount(num) <= MAX_FRAME_SIZE && Accepts(Some(opts), SeenCount(num))
    ensures var syms := g(MaybeInverted(raw[..SeenCount(num)], opts.invert));
      LearnResult(raw, scratch, num, Some(opts))
      == if 1 <= |syms| <= MAX_FRAME_SIZE then Some(PaddedFrame(syms)) else None
  {
    var input := MaybeInverted(raw[..SeenCount(num)], opts.invert);
    var r := h(input, if opts.invert then raw else scratch);
    assert r.len == |g(input)| && (r.len <= MAX_FRAME_SIZE ==> r.out[..r.len] == g(input));
  }

  function NecSymbols(input: seq<Symbol>): seq<Symbol> {
    if 1 <= |input| <= MAX_FRAME_SIZE then CanonicalAll(input) else []
  }

  lemma NecHookWrites()
    ensures Writes(NecHook, NecSymbols)
  {
  }

  /** The transformation both the controller and the test bench's sniffer are meant to compute. */
  function Normalized(syms: seq<Symbol>, invert: bool, normalize: bool): (r: seq<Symbol>)
    ensures |r| == |syms|
  {
    var s := MaybeInverted(syms, invert);
    if normalize then CanonicalAll(s) else s
  }

  /** With the NEC hook a learn stores the padded normalised capture, for every capture of 1..64 symbols. */
  lemma LearnStoresNormalized(raw: Buffer, scratch: Buffer, n: nat, opts: LearnOpts)
    requires 1 <= n <= MAX_FRAME_SIZE && Accepts(Some(opts), n) && opts.hook == Some(NecHook)
    ensures LearnResult(raw, scratch, n, Some(opts))
         == Some(PaddedFrame(Normalized(raw[..n], opts.invert, opts.normalize)))
  {
    if opts.normalize {
      NecHookWrites();
      StoresPostOfInvert(raw, scratch, n, opts, NecHook, NecSymbols);
    }
  }

  /** End to end: a frame of nominal symbols, jittered inside the tolerances and received with inverted
    * levels, is stored exactly as it was sent. */
  lemma InvertedJitteredFrameIsRestored(sent: seq<Symbol>, received: seq<Symbol>, raw: Buffer, scratch: Buffer,
                                        opts: LearnOpts)
    requires 1 <= |sent| == |received| <= MAX_FRAME_SIZE
    requires forall i :: 0 <= i < |sent| ==> Nominal(sent[i]) && Jittered(sent[i], received[i])
    requires raw[..|sent|] == Inverted(received)
    requires opts.invert && opts.normalize && opts.hook == Some(NecHook) && Accepts(Some(opts), |sent|)
    ensures LearnResult(raw, scratch, |sent|, Some(opts)) == Some(PaddedFrame(sent))
  {
    LearnStoresNormalized(raw, scratch, |sent|, opts);
    InvertedTwice(received);
    FrameCorrected(sent, received);
  }

  /** Clamping keeps the caller's acceptance test for every legal capture, except that a minimum
    * above 64 (which nothing could meet) comes to accept a capture of exactly 64 symbols. */
  lemma ClampKeepsAcceptance(o: LearnOpts, n: uint16)
    requires n <= MAX_FRAME_SIZE
    ensures (Accepts(Some(ClampOpts(o)), n) <==> Accepts(Some(o), n))
       <==> !(o.minSymbols > MAX_FRAME_SIZE && n == MAX_FRAME_SIZE
              && (o.maxSymbols == 0 || o.maxSymbols >= MAX_FRAME_SIZE))
  {
  }
}
