/** The test application's slot store and its sniffer, an independent second version of the learn pipeline. */
module TestBench {
  import opened Common
  import opened Symbols
  import opened NecCanon
  import opened LearnPipeline
  import opened IrTypes

  const STORAGE_SLOTS: nat := 16

  /** test_store and test_load: two arrays that behave as a map from slots to frames. */
  class SlotStore {
    const frames: array<Frame>
    const used: array<bool>

    ghost predicate Valid() {
      frames.Length == used.Length == STORAGE_SLOTS
    }

    ghost function Contents(): Slots
      requires Valid()
      reads frames, used
    {
      map slot: uint16 | 0 <= slot < STORAGE_SLOTS && used[slot] :: frames[slot]
    }

    constructor ()
      ensures Valid() && fresh(frames) && fresh(used)
      ensures Contents() == map[]
    {
      frames := new Frame[STORAGE_SLOTS](i => Frame(Zeros(MAX_FRAME_SIZE), 0));
      used := new bool[STORAGE_SLOTS](i => false);
    }

    /** `wholeObject` says that the length passed is that of a frame object. */
    method Store(slot: uint16, frame: Frame, wholeObject: bool) returns (ok: bool)
      requires Valid()
      modifies frames, used
      ensures ok == (slot < 16 && wholeObject)
      ensures Contents() == if ok then old(Contents())[slot := frame] else old(Contents())
    {
      if slot >= STORAGE_SLOTS || !wholeObject {
        return false;
      }
      frames[slot] := frame;
      used[slot] := true;
      return true;
    }

    method Load(slot: uint16, roomForObject: bool) returns (r: Option<Frame>)
      requires Valid()
      ensures r == if roomForObject && slot in Contents() then Some(Contents()[slot]) else None
    {
      if slot >= STORAGE_SLOTS || !used[slot] || !roomForObject {
        return None;
      }
      return Some(frames[slot]);
    }
  }

  /** A captured frame the sniffer rewrites in place. */
  class SniffedFrame {
    const data: array<Symbol>
    var numSyms: uint16

    ghost predicate Valid()
      reads this
    {
      data.Length == MAX_FRAME_SIZE && numSyms <= MAX_FRAME_SIZE
    }

    constructor (captured: seq<Symbol>)
      requires |captured| <= MAX_FRAME_SIZE
      ensures Valid() && fresh(data) && numSyms == |captured| && data[..numSyms] == captured
    {
      data := new Symbol[MAX_FRAME_SIZE](i => if 0 <= i < |captured| then captured[i] else ZERO_SYMBOL);
      numSyms := |captured|;
    }

    /** sniffer_postprocess_like_learn. The answer is false where the test's own assertion fails: on an
      * empty frame to be normalised. */
    method PostprocessLikeLearn(invert: bool, normalize: bool) returns (ok: bool)
      requires Valid()
      modifies this, data
      ensures Valid() && numSyms == old(numSyms)
      ensures ok == !(normalize && numSyms == 0)
      ensures ok ==> data[..] == Overwrite(old(data[..]), Normalized(old(data[..numSyms]), invert, normalize))
    {
      var n := numSyms;
      ghost var captured := data[..n];
      var cur := data;
      if invert {
        var inverted := new Symbol[MAX_FRAME_SIZE](i => ZERO_SYMBOL);
        InvertLevels(cur, n, inverted);
        cur := inverted;
      }
      assert cur[..n] == MaybeInverted(captured, invert);
      if normalize {
        var normalized := new Symbol[MAX_FRAME_SIZE](i => ZERO_SYMBOL);
        var outN := PostNecCanon(cur, n, normalized);
        if outN == 0 {
          return false;
        }
        assert normalized[..n] == CanonicalAll(MaybeInverted(captured, invert));
        CopySymbols(normalized, outN);
        numSyms := outN;
      } else if cur != data {
        CopySymbols(cur, n);
        numSyms := n;
      } else {
        assert data[..] == Overwrite(data[..], captured);
      }
      return true;
    }

    method InvertLevels(input: array<Symbol>, n: uint16, out: array<Symbol>)
      requires n <= input.Length && n <= out.Length && input != out
      modifies out
      ensures out[..n] == Inverted(input[..n])
    {
      for i := 0 to n
        invariant forall k :: 0 <= k < i ==> out[k] == InvertedSymbol(input[k])
      {
        out[i] := Symbol(!input[i].level0, input[i].duration0, !input[i].level1, input[i].duration1);
      }
    }

    method CopySymbols(from: array<Symbol>, n: uint16)
      requires data.Length == MAX_FRAME_SIZE && n <= MAX_FRAME_SIZE && n <= from.Length && from != data
      modifies data
      ensures data[..] == Overwrite(old(data[..]), from[..n])
    {
      forall i | 0 <= i < n {
        data[i] := from[i];
      }
    }
  }

  /** The two versions agree on every capture of 1..64 symbols: what the learn stores are the symbols the
    * sniffer ends up with. */
  lemma LearnMatchesSniffer(raw: Buffer, scratch: Buffer, n: nat, opts: LearnOpts, sniffed: Buffer)
    requires 1 <= n <= MAX_FRAME_SIZE && Accepts(Some(opts), n) && opts.hook == Some(NecHook)
    requires sniffed == Overwrite(raw, Normalized(raw[..n], opts.invert, opts.normalize))
    ensures LearnResult(raw, scratch, n, Some(opts)) == Some(PaddedFrame(sniffed[..n]))
  {
    LearnStoresNormalized(raw, scratch, n, opts);
  }
}
