/** Storage over whole runs, with power lost at any step of any operation. */
module StgHistory {
  import opened Common
  import opened LittleEndian
  import opened StgFormat
  import opened StgPath
  import opened StgSpec

  // ---------- One operation ----------

  /** Whether the header pass of a write lets `path` through when nothing is misread. */
  predicate Writable(f: Files, path: Path) {
    path !in f || |f[path]| < HEADER_SIZE || HeaderStatus(f[path]) == Ok
  }

  /** A write has lost an existing target exactly if the removal took effect and the rename did not. The new file
    * is then still whole under the temporary name, and both copies are lost exactly if that was dropped after a
    * rename that failed: never by a power loss alone. A write that returns loses its target only with an error. */
  lemma TargetIsLostIff(f: Files, path: Path, tmp: Path, data: Bytes, log: Log, out: Outcome, f': Files)
    requires path in f && path != tmp && WriteRel(f, path, tmp, data, log, out, f')
    ensures path !in f' <==> log.swap.removed && !log.swap.committed
    ensures path !in f' && tmp !in f' <==> log.swap.removed && !log.swap.committed && log.swap.dropped
    ensures path !in f' && tmp in f' ==> f'[tmp] == FileOf(data)
    ensures path !in f' && tmp !in f' ==> log.otherFault
    ensures path !in f' ==> out != Returned(Ok) && (out.PowerLost? || log.otherFault)
  {
  }

  /** The header pass, if its calls work and nothing is misread, case by case. */
  lemma HeaderPassAnswers(f: Files, path: Path, heal: bool, log: Log, st: Status, f': Files)
    requires EnsureRel(f, path, heal, log, Returned(st), f') && !log.Misread() && !log.otherFault
    ensures path !in f ==> st == Ok && f' == f[path := EmptyFile()]
    ensures path in f && |f[path]| < 16 ==>
      if heal then st == Ok && f' == f[path := EmptyFile()] else st == Fail && f' == f
    ensures path in f && |f[path]| >= 16 ==>
      f' == f && st == if f[path][0..4] != [0x4C, 0x4F, 0x4F, 0x43] then InvalidState
                       else if f[path][4..6] != [1, 0] then InvalidVersion
                       else Ok
  {
    if path in f {
      HeaderStatusOfBytes(f[path]);
    }
  }

  /** A write, if its calls work and nothing is misread, case by case. */
  lemma WriteAnswers(f: Files, path: Path, tmp: Path, data: Bytes, log: Log, st: Status, f': Files)
    requires path != tmp && WriteRel(f, path, tmp, data, log, Returned(st), f') && !log.Misread() && !log.otherFault
    ensures path !in f || |f[path]| < 16 || (f[path][0..4] == [0x4C, 0x4F, 0x4F, 0x43] && f[path][4..6] == [1, 0]) ==>
      st == Ok && f' == f[path := FileOf(data)] - {tmp}
    ensures path in f && |f[path]| >= 16 && f[path][0..4] != [0x4C, 0x4F, 0x4F, 0x43] ==> st == InvalidState && f' == f
    ensures path in f && |f[path]| >= 16 && f[path][0..4] == [0x4C, 0x4F, 0x4F, 0x43] && f[path][4..6] != [1, 0] ==>
      st == InvalidVersion && f' == f
    ensures FileOf(data)[16..] == data && |FileOf(data)| == 16 + |data|
    ensures var n := |data| % 0x1_0000_0000;
      FileOf(data)[..16] == [0x4C, 0x4F, 0x4F, 0x43, 1, 0, 0, 0,
        n % 0x100, n / 0x100 % 0x100, n / 0x1_0000 % 0x100, n / 0x100_0000, 0, 0, 0, 0]
  {
    HeaderBytes(|data|);
    assert FileOf(data)[..16] == Encode(DefaultHeader(|data|));
    if path in f {
      HeaderStatusOfBytes(f[path]);
    }
  }

  /** A read, if its calls work, case by case; `size` None is a size query. */
  lemma ReadAnswers(f: Files, path: Path, size: Option<nat>, log: Log, st: Status, lenOut: Option<nat>,
                    before: Bytes, after: Bytes)
    requires ReadRel(f, path, size, log, Returned(st), lenOut, before, after) && !log.shortRead && !log.otherFault
    ensures path !in f || |f[path]| < 16 ==> st == Fail && after == before
    ensures path in f && |f[path]| >= 16 && f[path][0..4] != [0x4C, 0x4F, 0x4F, 0x43] ==>
      st == InvalidState && after == before
    ensures path in f && |f[path]| >= 16 && f[path][0..4] == [0x4C, 0x4F, 0x4F, 0x43] && f[path][4..6] != [1, 0] ==>
      st == InvalidVersion && after == before
    ensures path in f && |f[path]| >= 16 && f[path][0..4] == [0x4C, 0x4F, 0x4F, 0x43] && f[path][4..6] == [1, 0] ==>
      var len := Decode(f[path]).payloadLen;
      if size.None? then st == Ok && lenOut == Some(len) && after == before
      else if size.value < len then st == NoMem && lenOut == Some(len) && after == before
      else if |f[path]| < 16 + len then st == Fail
      else st == Ok && lenOut == Some(len) && after == f[path][16..16 + len] + before[len..]
  {
    if path in f {
      HeaderStatusOfBytes(f[path]);
    }
  }

  /** With working calls a write succeeds exactly when the target is not the temporary file itself and is
    * missing, short, or has a good header. */
  lemma WriteSucceedsIff(f: Files, path: Path, tmp: Path, data: Bytes, log: Log, st: Status, f': Files)
    requires if path == tmp then WriteToTmpRel(f, tmp, data, log, Returned(st), f')
      else WriteRel(f, path, tmp, data, log, Returned(st), f')
    requires !log.Misread() && !log.otherFault
    ensures st == Ok <==> path != tmp && Writable(f, path)
    ensures path == tmp && Writable(f, path) ==> path !in f'
  {
  }

  /** A misinformed header pass whose other calls work reports success over the emptied file. */
  lemma MisreadReportsSuccess(f: Files, path: Path, heal: bool, log: Log, st: Status, f': Files)
    requires EnsureRel(f, path, heal, log, Returned(st), f') && !log.otherFault
    requires log.statLied || (log.shortRead && heal)
    ensures st == Ok && f' == f[path := EmptyFile()]
  {
  }

  /** Byte-level round trip: after a successful write of less than 2^32 bytes, a size query gives the length,
    * a read with room gives the bytes and leaves the rest of the buffer alone, a read without room says how
    * much is needed, and other files read as before. */
  lemma RoundTrip(f: Files, path: Path, tmp: Path, data: Bytes, log: Log, f': Files,
                  size: Option<nat>, readLog: Log, out: Outcome, lenOut: Option<nat>, before: Bytes, after: Bytes)
    requires path != tmp && |data| < TWO32 && WriteRel(f, path, tmp, data, log, Returned(Ok), f')
    requires ReadRel(f', path, size, readLog, out, lenOut, before, after)
    requires !readLog.otherFault && !readLog.shortRead && !out.PowerLost?
    ensures lenOut == Some(|data|)
    ensures size.None? ==> out == Returned(Ok) && after == before
    ensures size.Some? && size.value >= |data| ==> out == Returned(Ok) && after == data + before[|data|..]
    ensures size.Some? && size.value < |data| ==> out == Returned(NoMem) && after == before
    ensures forall p :: p != path && p != tmp ==> SameAt(f, f', p)
  {
    FileOfDecodes(data);
    WrittenReadsBack(data);
  }

  // ---------- Runs ----------

  datatype Op = WriteOp(path: Path, data: Bytes) | CheckOp(path: Path) | FormatOp | MountOp(wipes: bool)
  {
    predicate On(p: Path) {
      (WriteOp? || CheckOp?) && path == p
    }
  }

  /** One operation of a run, how it went, and the files it left; a power loss ends the operation, not the run. */
  datatype Entry = Entry(op: Op, log: Log, out: Outcome, files: Files)
  {
    /** The volume was emptied as a whole. */
    predicate Forgets() {
      (op.FormatOp? && out == Returned(Ok)) || op == MountOp(true)
    }
  }

  ghost predicate Happens(tmp: Path, default: Path, f: Files, e: Entry) {
    match e.op
    case WriteOp(path, data) =>
      if path == tmp then WriteToTmpRel(f, tmp, data, e.log, e.out, e.files)
      else WriteRel(f, path, tmp, data, e.log, e.out, e.files)
    case CheckOp(path) => EnsureRel(f, path, false, e.log, e.out, e.files) && !e.log.swap.committed
    case FormatOp => FormatRel(f, default, e.log, e.out, e.files)
    case MountOp(wipes) => e.files == if wipes then map[] else f
  }

  function FilesAfter(f0: Files, run: seq<Entry>): Files {
    if run == [] then f0 else run[|run| - 1].files
  }

  ghost predicate Run(tmp: Path, default: Path, f0: Files, run: seq<Entry>) {
    run == [] ||
    (Run(tmp, default, f0, run[..|run| - 1]) && Happens(tmp, default, FilesAfter(f0, run[..|run| - 1]), run[|run| - 1]))
  }

  /** The file each path was last given: what the volume began with, updated by every write whose rename
    * took effect, and forgotten by every completed format and every mount that wipes the volume. */
  function LastCommitted(tmp: Path, f0: Files, run: seq<Entry>): Files {
    if run == [] then f0 else
    Committed(tmp, LastCommitted(tmp, f0, run[..|run| - 1]), run[|run| - 1])
  }

  function Committed(tmp: Path, last: Files, e: Entry): Files {
    if e.Forgets() then map[]
    else if e.op.WriteOp? && e.log.swap.committed && e.op.path != tmp then last[e.op.path := FileOf(e.op.data)]
    else last
  }

  /** Every file other than the temporary one is the last committed one, or the beginning of a default header. */
  ghost predicate Genuine(tmp: Path, last: Files, f: Files) {
    forall p :: p in f && p != tmp ==> (p in last && f[p] == last[p]) || f[p] <= EmptyFile()
  }

  lemma {:induction false} RunIsGenuine(tmp: Path, default: Path, f0: Files, run: seq<Entry>)
    requires Run(tmp, default, f0, run)
    ensures Genuine(tmp, LastCommitted(tmp, f0, run), FilesAfter(f0, run))
  {
    if run != [] {
      RunIsGenuine(tmp, default, f0, run[..|run| - 1]);
      var before := run[..|run| - 1];
      StepIsGenuine(tmp, default, LastCommitted(tmp, f0, before), FilesAfter(f0, before), run[|run| - 1],
                    LastCommitted(tmp, f0, run));
    }
  }

  lemma StepIsGenuine(tmp: Path, default: Path, last: Files, f: Files, e: Entry, last': Files)
    requires Genuine(tmp, last, f) && Happens(tmp, default, f, e)
    requires last' == Committed(tmp, last, e)
    ensures Genuine(tmp, last', e.files)
  {
    forall p | p in e.files && p != tmp ensures (p in last' && e.files[p] == last'[p]) || e.files[p] <= EmptyFile() {
      if e.op.WriteOp? && p != e.op.path {
        assert SameAt(f, e.files, p);
      }
    }
  }

  /** Read integrity. However the run went, a successful read of a path other than the temporary file returns
    * the payload of the file last committed there, or nothing at all: never a torn or mixed payload. */
  lemma ReadIntegrity(tmp: Path, default: Path, f0: Files, run: seq<Entry>, path: Path, size: nat, log: Log,
                      lenOut: Option<nat>, before: Bytes, after: Bytes)
    requires Run(tmp, default, f0, run) && path != tmp
    requires ReadRel(FilesAfter(f0, run), path, Some(size), log, Returned(Ok), lenOut, before, after)
    ensures lenOut.Some? && lenOut.value <= |after|
    ensures var last := LastCommitted(tmp, f0, run);
      lenOut.value == 0 || (path in last && ReadBack(last[path]) == Good(after[..lenOut.value]))
  {
    RunIsGenuine(tmp, default, f0, run);
    var file := FilesAfter(f0, run)[path];
    if file <= EmptyFile() {
      PartOfEmptyFile(file);
    }
  }

  lemma {:induction false} LastCommittedIs(tmp: Path, default: Path, f0: Files, run: seq<Entry>, j: nat)
    requires j < |run| && run[j].op.WriteOp? && run[j].log.swap.committed && run[j].op.path != tmp
    requires forall k :: j < k < |run| ==>
      !run[k].Forgets() && !(run[k].op.WriteOp? && run[k].log.swap.committed && run[k].op.path == run[j].op.path)
    ensures var last := LastCommitted(tmp, f0, run);
      run[j].op.path in last && last[run[j].op.path] == FileOf(run[j].op.data)
  {
    if j < |run| - 1 {
      LastCommittedIs(tmp, default, f0, run[..|run| - 1], j);
    }
  }

  /** The same, for the data: once a write's rename took effect, reads return that write's bytes, or nothing,
    * until another write of the path takes effect or the volume is emptied. */
  lemma ReadsLatestWrite(tmp: Path, default: Path, f0: Files, run: seq<Entry>, j: nat, size: nat, log: Log,
                         lenOut: Option<nat>, before: Bytes, after: Bytes)
    requires Run(tmp, default, f0, run)
    requires j < |run| && run[j].op.WriteOp? && run[j].log.swap.committed && run[j].op.path != tmp
    requires |run[j].op.data| < TWO32
    requires forall k :: j < k < |run| ==>
      !run[k].Forgets() && !(run[k].op.WriteOp? && run[k].log.swap.committed && run[k].op.path == run[j].op.path)
    requires ReadRel(FilesAfter(f0, run), run[j].op.path, Some(size), log, Returned(Ok), lenOut, before, after)
    ensures lenOut.Some? && lenOut.value <= |after|
    ensures lenOut.value == 0 || after[..lenOut.value] == run[j].op.data
  {
    ReadIntegrity(tmp, default, f0, run, run[j].op.path, size, log, lenOut, before, after);
    LastCommittedIs(tmp, default, f0, run, j);
    WrittenReadsBack(run[j].op.data);
  }

  /** `e` empties nothing and does not misread `p`. */
  predicate Clear(p: Path, e: Entry) {
    !e.op.FormatOp? && e.op != MountOp(true) && (e.op.On(p) ==> !e.log.Misread())
  }

  /** `e` cannot disturb a file `p` with a whole header: it is no format, does not misread `p`, and writes `p`
    * only if its header is bad, so that the write is turned down. */
  predicate Harmless(p: Path, badHeader: bool, e: Entry) {
    Clear(p, e) && (e.op.WriteOp? && e.op.path == p ==> badHeader)
  }

  /** Such operations leave the file's bytes alone, whatever fails in them and wherever power is lost. */
  lemma {:induction false} UndisturbedFileIsKept(tmp: Path, default: Path, f0: Files, run: seq<Entry>, p: Path)
    requires Run(tmp, default, f0, run) && p != tmp && p in f0 && |f0[p]| >= HEADER_SIZE
    requires forall k :: 0 <= k < |run| ==> Harmless(p, HeaderStatus(f0[p]) != Ok, run[k])
    ensures p in FilesAfter(f0, run) && FilesAfter(f0, run)[p] == f0[p]
  {
    if run != [] {
      UndisturbedFileIsKept(tmp, default, f0, run[..|run| - 1], p);
      var f, e := FilesAfter(f0, run[..|run| - 1]), run[|run| - 1];
      assert Harmless(p, HeaderStatus(f0[p]) != Ok, e);
      if e.op.WriteOp? && e.op.path != p {
        assert SameAt(f, e.files, p);
      }
    }
  }

  /** Corruption is sticky: a file of at least 16 bytes with wrong magic or version keeps its exact bytes
    * through any checks and writes on it and any such calls elsewhere, and every call on it whose own calls
    * work gives the same error. */
  lemma CorruptionIsSticky(tmp: Path, default: Path, f0: Files, run: seq<Entry>, p: Path, e: Entry)
    requires Run(tmp, default, f0, run) && p != tmp && p in f0 && |f0[p]| >= HEADER_SIZE && HeaderStatus(f0[p]) != Ok
    requires forall k :: 0 <= k < |run| ==> Harmless(p, true, run[k])
    requires e.op.On(p) && Happens(tmp, default, FilesAfter(f0, run), e)
    requires !e.log.Misread() && !e.log.otherFault && !e.out.PowerLost?
    ensures p in FilesAfter(f0, run) && FilesAfter(f0, run)[p] == f0[p]
    ensures e.out == Returned(HeaderStatus(f0[p])) && e.files == FilesAfter(f0, run)
    ensures forall size :: ReadStatus(FilesAfter(f0, run), p, size) == HeaderStatus(f0[p])
  {
    UndisturbedFileIsKept(tmp, default, f0, run, p);
  }

  /** `e` is no write of `p` that removes it without putting the new file in its place. */
  predicate Keeps(p: Path, e: Entry) {
    e.op.WriteOp? && e.op.path == p ==> e.log.swap.removed ==> e.log.swap.committed
  }

  predicate Careful(p: Path, e: Entry) {
    Clear(p, e) && Keeps(p, e)
  }

  /** Through any such operations, whatever else fails in them and wherever power is lost, a path holds exactly
    * its last committed file. */
  lemma {:induction false} CommittedFileSurvives(tmp: Path, default: Path, f0: Files, run: seq<Entry>, p: Path)
    requires Run(tmp, default, f0, run) && p != tmp && p in f0 && |f0[p]| >= HEADER_SIZE
    requires forall k :: 0 <= k < |run| ==> Careful(p, run[k])
    ensures var f, last := FilesAfter(f0, run), LastCommitted(tmp, f0, run);
      p in f && p in last && f[p] == last[p] && |f[p]| >= HEADER_SIZE
  {
    if run != [] {
      CommittedFileSurvives(tmp, default, f0, run[..|run| - 1], p);
      var f, e := FilesAfter(f0, run[..|run| - 1]), run[|run| - 1];
      assert Careful(p, e);
      if e.op.WriteOp? && e.op.path != p {
        assert SameAt(f, e.files, p);
      }
    }
  }

  /** And these are the only ones: with nothing emptied or misread, a path is at every moment of the run what
    * was last committed there if and only if every write of it that removed it also renamed. */
  lemma FileSurvivesIff(tmp: Path, default: Path, f0: Files, run: seq<Entry>, p: Path)
    requires Run(tmp, default, f0, run) && p != tmp && p in f0 && |f0[p]| >= HEADER_SIZE
    requires forall k :: 0 <= k < |run| ==> Clear(p, run[k])
    ensures (forall k :: 0 <= k <= |run| ==> SameAt(LastCommitted(tmp, f0, run[..k]), FilesAfter(f0, run[..k]), p))
       <==> (forall k :: 0 <= k < |run| ==> Keeps(p, run[k]))
  {
    if forall k :: 0 <= k < |run| ==> Keeps(p, run[k]) {
      forall k | 0 <= k <= |run| ensures SameAt(LastCommitted(tmp, f0, run[..k]), FilesAfter(f0, run[..k]), p) {
        RunPrefix(tmp, default, f0, run, k);
        CommittedFileSurvives(tmp, default, f0, run[..k], p);
      }
    } else {
      var k :| 0 <= k < |run| && !Keeps(p, run[k]);
      RunPrefix(tmp, default, f0, run, k + 1);
      StaysCommitted(tmp, f0, run[..k + 1], p);
      assert run[..k + 1][k] == run[k] && p !in run[k].files;
      assert !SameAt(LastCommitted(tmp, f0, run[..k + 1]), FilesAfter(f0, run[..k + 1]), p);
    }
  }

  lemma {:induction false} RunPrefix(tmp: Path, default: Path, f0: Files, run: seq<Entry>, k: nat)
    requires Run(tmp, default, f0, run) && k <= |run|
    ensures Run(tmp, default, f0, run[..k])
    ensures k > 0 ==> Happens(tmp, default, FilesAfter(f0, run[..k - 1]), run[k - 1])
  {
    if k == |run| {
      assert run[..k] == run;
    } else {
      RunPrefix(tmp, default, f0, run[..|run| - 1], k);
      assert run[..|run| - 1][..k] == run[..k];
      assert k > 0 ==> run[..|run| - 1][..k - 1] == run[..k - 1];
    }
  }

  lemma {:induction false} StaysCommitted(tmp: Path, f0: Files, run: seq<Entry>, p: Path)
    requires p in f0 && forall k :: 0 <= k < |run| ==> Clear(p, run[k])
    ensures p in LastCommitted(tmp, f0, run)
  {
    if run != [] {
      StaysCommitted(tmp, f0, run[..|run| - 1], p);
      assert Clear(p, run[|run| - 1]);
    }
  }

  // ---------- Writing again ----------

  /** A path that can be written can be written after anything: no failure, misreading, power loss or format,
    * in any operation of any run, leaves a whole header that a later write would turn down. */
  lemma {:induction false} WritableStays(tmp: Path, default: Path, f0: Files, run: seq<Entry>, p: Path)
    requires Run(tmp, default, f0, run) && p != tmp && Writable(f0, p)
    ensures Writable(FilesAfter(f0, run), p)
  {
    if run != [] {
      WritableStays(tmp, default, f0, run[..|run| - 1], p);
      StepKeepsWritable(tmp, default, FilesAfter(f0, run[..|run| - 1]), run[|run| - 1], p);
    }
  }

  lemma StepKeepsWritable(tmp: Path, default: Path, f: Files, e: Entry, p: Path)
    requires Happens(tmp, default, f, e) && p != tmp && Writable(f, p)
    ensures Writable(e.files, p)
  {
    FileOfDecodes([]);
    if e.op.WriteOp? {
      FileOfDecodes(e.op.data);
      assert p != e.op.path ==> SameAt(f, e.files, p);
    }
    if p in e.files && e.files[p] <= EmptyFile() {
      PartOfEmptyFile(e.files[p]);
    }
  }

  /** Cut off or failed, then retried: after any run whatever, the next write of the path whose own calls work
    * succeeds, leaves exactly the new file and no temporary one, and touches nothing else. */
  lemma RetrySucceeds(tmp: Path, default: Path, f0: Files, run: seq<Entry>, e: Entry)
    requires Run(tmp, default, f0, run) && e.op.WriteOp? && e.op.path != tmp && Writable(f0, e.op.path)
    requires Happens(tmp, default, FilesAfter(f0, run), e)
    requires !e.log.Misread() && !e.log.otherFault && !e.out.PowerLost?
    ensures e.out == Returned(Ok)
    ensures e.files == FilesAfter(f0, run)[e.op.path := FileOf(e.op.data)] - {tmp}
  {
    WritableStays(tmp, default, f0, run, e.op.path);
  }

  /** With nothing emptied or misread the start decides: a write whose calls work succeeds after the run if and
    * only if the path could be written before it. */
  lemma WriteSucceedsAfterRunIff(tmp: Path, default: Path, f0: Files, run: seq<Entry>, e: Entry)
    requires Run(tmp, default, f0, run) && e.op.WriteOp? && e.op.path != tmp
    requires forall k :: 0 <= k < |run| ==> Clear(e.op.path, run[k])
    requires Happens(tmp, default, FilesAfter(f0, run), e)
    requires !e.log.Misread() && !e.log.otherFault && !e.out.PowerLost?
    ensures e.out == Returned(Ok) <==> Writable(f0, e.op.path)
  {
    if Writable(f0, e.op.path) {
      RetrySucceeds(tmp, default, f0, run, e);
    } else {
      UndisturbedFileIsKept(tmp, default, f0, run, e.op.path);
    }
  }

  /** So a write that returned OK is read back in full after any careful run. */
  lemma WrittenDataSurvives(tmp: Path, default: Path, f: Files, path: Path, data: Bytes, log: Log, f0: Files,
                            run: seq<Entry>, size: nat, readLog: Log, out: Outcome, lenOut: Option<nat>,
                            before: Bytes, after: Bytes)
    requires path != tmp && |data| < TWO32 && |data| <= size && WriteRel(f, path, tmp, data, log, Returned(Ok), f0)
    requires Run(tmp, default, f0, run)
    requires forall k :: 0 <= k < |run| ==> Clear(path, run[k]) && !(run[k].op.WriteOp? && run[k].op.path == path)
    requires ReadRel(FilesAfter(f0, run), path, Some(size), readLog, out, lenOut, before, after)
    requires !readLog.otherFault && !readLog.shortRead && !out.PowerLost?
    ensures out == Returned(Ok) && lenOut == Some(|data|) && after == data + before[|data|..]
  {
    CommittedFileSurvives(tmp, default, f0, run, path);
    NotCommittedAgain(tmp, f0, run, path);
    FileOfDecodes(data);
    WrittenReadsBack(data);
  }

  lemma {:induction false} NotCommittedAgain(tmp: Path, f0: Files, run: seq<Entry>, p: Path)
    requires p in f0
    requires forall k :: 0 <= k < |run| ==> !run[k].Forgets() && !(run[k].op.WriteOp? && run[k].op.path == p)
    ensures p in LastCommitted(tmp, f0, run) && LastCommitted(tmp, f0, run)[p] == f0[p]
  {
    if run != [] {
      NotCommittedAgain(tmp, f0, run[..|run| - 1], p);
    }
  }
}
