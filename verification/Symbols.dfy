/** RMT symbols, the fixed 64-symbol buffers and the frame object handed to the slot store. */
module Symbols {
  import opened Common

  const MAX_FRAME_SIZE: nat := 64

  type Duration = d: nat | d < 0x8000
  /** One rmt_symbol_word_t: two levels of one bit, two durations of 15 bits. */
  datatype Symbol = Symbol(level0: bool, duration0: Duration, level1: bool, duration1: Duration)

  const ZERO_SYMBOL := Symbol(false, 0, false, 0)

  function Zeros(n: nat): (s: seq<Symbol>)
    ensures |s| == n
  {
    seq(n, i => ZERO_SYMBOL)
  }

  type Buffer = s: seq<Symbol> | |s| == MAX_FRAME_SIZE witness Zeros(MAX_FRAME_SIZE)

  /** The buffer after its first |prefix| entries were written. */
  function Overwrite(buf: Buffer, prefix: seq<Symbol>): Buffer
    requires |prefix| <= MAX_FRAME_SIZE
  {
    prefix + buf[|prefix|..]
  }

  /** An object of type rmt_frame_obj_t. */
  datatype Frame = Frame(data: Buffer, numSyms: uint16)
  {
    predicate Valid() {
      1 <= numSyms <= MAX_FRAME_SIZE
    }

    function Payload(): seq<Symbol>
      requires Valid()
    {
      data[..numSyms]
    }
  }

  /** The zero-padded object holding exactly `syms`. */
  function PaddedFrame(syms: seq<Symbol>): Frame
    requires 1 <= |syms| <= MAX_FRAME_SIZE
  {
    Frame(Overwrite(Zeros(MAX_FRAME_SIZE), syms), |syms|)
  }

  /** What a post-processing hook leaves behind: the whole output buffer and the length it reports. */
  datatype HookResult = HookResult(out: Buffer, len: uint16)

  /** A hook sees its input symbols and the old contents of the output buffer it is given. */
  type Hook = (seq<Symbol>, Buffer) -> HookResult

  function Inverted(s: seq<Symbol>): (r: seq<Symbol>)
    ensures |r| == |s|
  {
    seq(|s|, i requires 0 <= i < |s| => InvertedSymbol(s[i]))
  }

  function InvertedSymbol(s: Symbol): Symbol {
    s.(level0 := !s.level0, level1 := !s.level1)
  }

  /** Inverting flips both levels of every symbol and keeps its durations. */
  lemma InvertedAt(s: seq<Symbol>, i: nat)
    requires i < |s|
    ensures var t := Inverted(s)[i];
      && t.level0 == !s[i].level0 && t.duration0 == s[i].duration0
      && t.level1 == !s[i].level1 && t.duration1 == s[i].duration1
  {
  }

  /** The object holds the symbols in front, nothing but zeros behind them, and their number. */
  lemma PaddedFrameAt(syms: seq<Symbol>, i: nat)
    requires 1 <= |syms| <= 64 && i < 64
    ensures var f := PaddedFrame(syms);
      && f.numSyms == |syms| && f.Valid() && f.Payload() == syms
      && f.data[i] == if i < |syms| then syms[i] else Symbol(false, 0, false, 0)
  {
  }

  /** A frame can be sent exactly if it has 1..64 symbols, and then as many are sent. */
  lemma ValidFrames(f: Frame)
    ensures f.Valid() <==> 1 <= f.numSyms <= 64
    ensures f.Valid() ==> |f.Payload()| == f.numSyms && forall i :: 0 <= i < f.numSyms ==> f.Payload()[i] == f.data[i]
  {
  }

  lemma InvertedTwice(s: seq<Symbol>)
    ensures Inverted(Inverted(s)) == s
  {
  }
}
