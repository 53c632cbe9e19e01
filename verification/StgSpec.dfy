/** What each storage operation may do to the files, under call failures and power loss at any step. */
module StgSpec {
  import opened Common
  import opened LittleEndian
  import opened StgFormat
  import opened StgPath

  type Files = map<Path, Bytes>

  /** PowerLost: the operation was cut off between or inside file-system calls. */
  datatype Outcome = Returned(status: Status) | PowerLost

  type HeaderLen = n: nat | n <= HEADER_SIZE

  /** How a write exchanged the files: how much of the temporary file's header was taken, whether the removal
    * of the target took effect, the rename failed or took effect, and the temporary file was dropped then. */
  datatype Swap = Swap(headerTaken: HeaderLen, removed: bool, renameFailed: bool, committed: bool, dropped: bool)

  const NO_SWAP := Swap(HEADER_SIZE, false, false, false, false)

  /** What happened underneath one operation: stat denied an existing file, a read came up short, some other
    * call failed although it could have worked; and how far the exchange of files got. */
  datatype Log = Log(statLied: bool, shortRead: bool, otherFault: bool, swap: Swap)
  {
    predicate Misread() {
      statLied || shortRead
    }
  }

  const QUIET := Log(false, false, false, NO_SWAP)

  datatype Checked = Checked(status: Status, files: Files)

  /** The header pass as a function of the files and of the two ways it can be misinformed. */
  function Ensured(f: Files, path: Path, heal: bool, statLied: bool, shortRead: bool): Checked {
    if path !in f || statLied then Checked(Ok, f[path := EmptyFile()])
    else if |f[path]| < HEADER_SIZE || shortRead then
      if heal then Checked(Ok, f[path := EmptyFile()]) else Checked(Fail, f)
    else Checked(HeaderStatus(f[path]), f)
  }

  /** The header pass rewrites the file in these cases only. */
  predicate MayRewrite(f: Files, path: Path, heal: bool, log: Log) {
    path !in f || log.statLied || (heal && (|f[path]| < HEADER_SIZE || log.shortRead))
  }

  /** `f'` differs from `f` at most in `path`, which holds a default header or its beginning. */
  predicate Reset(f: Files, path: Path, f': Files) {
    path in f' && f'[path] <= EmptyFile() && f' == f[path := f'[path]]
  }

  /** stg_header_ensure_or_validate. */
  predicate EnsureRel(f: Files, path: Path, heal: bool, log: Log, out: Outcome, f': Files) {
    var e := Ensured(f, path, heal, log.statLied, log.shortRead);
    && (f' == f || (MayRewrite(f, path, heal, log) && Reset(f, path, f')))
    && (out == Returned(Ok) ==> e == Checked(Ok, f'))
    && (!log.otherFault && !out.PowerLost? ==> out == Returned(e.status) && f' == e.files)
    && (log.otherFault && !out.PowerLost? ==> out == Returned(Fail))
  }

  predicate SameAt(f: Files, f': Files, p: Path) {
    (p in f <==> p in f') && (p in f ==> f'[p] == f[p])
  }

  ghost predicate SameElsewhere(f: Files, f': Files, ps: set<Path>) {
    forall p :: p !in ps ==> SameAt(f, f', p)
  }

  /** The states the target of a write can be found in. It is gone exactly when its removal took effect and the
    * rename did not; the new file is then still whole under the temporary name, unless that was dropped too. */
  predicate TargetOk(f: Files, path: Path, tmp: Path, data: Bytes, log: Log, out: Outcome, f': Files) {
    if log.swap.committed then log.swap.removed && path in f' && f'[path] == FileOf(data) && tmp !in f'
    else if log.swap.removed then
      && path !in f' && (if log.swap.renameFailed then log.otherFault else out.PowerLost?)
      && (if log.swap.dropped then log.swap.renameFailed && tmp !in f' else tmp in f' && f'[tmp] == FileOf(data))
    else
      SameAt(f, f', path) || (path in f' && f'[path] <= EmptyFile() && MayRewrite(f, path, true, log))
  }

  /** What the temporary file receives when only `taken` bytes of its header are accepted: the payload is
    * written behind them all the same. */
  function TornFrame(data: Bytes, taken: HeaderLen): Bytes {
    Encode(DefaultHeader(|data|))[..taken] + data
  }

  /** The temporary file is as it was, absent, or a beginning of what was written to it. */
  predicate TmpOk(f: Files, tmp: Path, data: Bytes, log: Log, f': Files) {
    SameAt(f, f', tmp) || tmp !in f' || f'[tmp] <= TornFrame(data, log.swap.headerTaken)
  }

  /** A file the header pass turns down without touching it. */
  predicate Rejected(f: Files, path: Path, log: Log) {
    path in f && |f[path]| >= HEADER_SIZE && HeaderStatus(f[path]) != Ok && !log.statLied && !log.shortRead
  }

  /** stg_man_write on a target other than the temporary file. */
  ghost predicate WriteRel(f: Files, path: Path, tmp: Path, data: Bytes, log: Log, out: Outcome, f': Files) {
    var e := Ensured(f, path, true, log.statLied, log.shortRead);
    && SameElsewhere(f, f', {path, tmp})
    && TargetOk(f, path, tmp, data, log, out, f')
    && TmpOk(f, tmp, data, log, f')
    && (log.swap.headerTaken < HEADER_SIZE ==> log.otherFault && !log.swap.removed)
    && (!out.PowerLost? ==> (out == Returned(Ok) <==> log.swap.committed))
    && (Rejected(f, path, log) ==> f' == f && out != Returned(Ok) && log.swap == NO_SWAP)
    && (!log.otherFault && !out.PowerLost? ==>
         if e.status != Ok then out == Returned(e.status) && f' == e.files
         else out == Returned(Ok) && f' == e.files[path := FileOf(data)] - {tmp})
    && (log.otherFault && !out.PowerLost? ==> out == Returned(Fail))
  }

  /** stg_man_write on the temporary file itself: it removes what it has just written, and can only succeed if
    * that fails. */
  ghost predicate WriteToTmpRel(f: Files, tmp: Path, data: Bytes, log: Log, out: Outcome, f': Files) {
    var e := Ensured(f, tmp, true, log.statLied, log.shortRead);
    && SameElsewhere(f, f', {tmp})
    && (TmpOk(f, tmp, data, log, f') || (f'[tmp] <= EmptyFile() && MayRewrite(f, tmp, true, log)))
    && (!log.otherFault && !out.PowerLost? ==>
         if e.status != Ok then out == Returned(e.status) && f' == e.files
         else out == Returned(Fail) && f' == f - {tmp})
    && (log.otherFault && !out.PowerLost? ==>
         out == Returned(Fail) || (out == Returned(Ok) && tmp in f' && f'[tmp] == FileOf(data)))
  }

  /** stg_man_format: files vanish whole; only the default file may be new. */
  ghost predicate FormatRel(f: Files, default: Path, log: Log, out: Outcome, f': Files) {
    && (forall p :: p in f' ==> (p in f && f'[p] == f[p]) || (p == default && f'[p] <= EmptyFile()))
    && (out == Returned(Ok) ==> f' == map[default := EmptyFile()])
    && (!log.otherFault && !out.PowerLost? ==> out == Returned(Ok))
    && (log.otherFault && !out.PowerLost? ==> out == Returned(Fail))
  }

  // ---------- The phases of a write ----------

  predicate Worse(log: Log, log': Log) {
    log' == log || log' == log.(otherFault := true)
  }

  /** The temporary file alone was touched. */
  predicate OnlyAt(f: Files, f': Files, p: Path) {
    f' == f || (p in f' && f' == f[p := f'[p]]) || f' == f - {p}
  }

  /** Filling the temporary file. */
  predicate TmpPhase(f: Files, tmp: Path, data: Bytes, log: Log, out: Outcome, f': Files, log': Log) {
    var taken := log'.swap.headerTaken;
    && Worse(log.(swap := log'.swap), log') && OnlyAt(f, f', tmp)
    && log'.swap == NO_SWAP.(headerTaken := taken)
    && (f' == f || tmp !in f' || f'[tmp] <= TornFrame(data, taken))
    && (taken < HEADER_SIZE ==> log'.otherFault)
    && (out.PowerLost? || out == Returned(Ok) || (out == Returned(Fail) && log'.otherFault))
    && (out == Returned(Ok) ==> f' == f[tmp := FileOf(data)] && log' == log)
  }

  /** Removing the target and renaming the temporary file to it. */
  predicate Replaced(f: Files, path: Path, tmp: Path, out: Outcome, f': Files, log': Log) {
    && (out.PowerLost? || (out == Returned(Ok) <==> log'.swap.committed))
    && (log'.swap.dropped ==> log'.swap.renameFailed)
    && (if log'.swap.committed then log'.swap.removed && tmp in f && f' == f[path := f[tmp]] - {tmp}
        else
          && (if !log'.swap.removed then SameAt(f, f', path)
              else path !in f' && (if log'.swap.renameFailed then log'.otherFault else out.PowerLost?))
          && (if log'.swap.dropped then tmp !in f' else SameAt(f, f', tmp)))
  }

  /** The same, with the case in which the target is the temporary file. */
  ghost predicate ReplacePhase(f: Files, path: Path, tmp: Path, log: Log, out: Outcome, f': Files, log': Log) {
    && log'.statLied == log.statLied && log'.shortRead == log.shortRead && log'.swap.headerTaken == log.swap.headerTaken
    && (log.otherFault ==> log'.otherFault)
    && SameElsewhere(f, f', {path, tmp})
    && (if path == tmp then SameAt(f, f', tmp) || tmp !in f' else Replaced(f, path, tmp, out, f', log'))
    && (!log'.otherFault && !out.PowerLost? ==>
         if path != tmp then out == Returned(Ok) else out == Returned(Fail) && tmp !in f')
    && (out.PowerLost? || out == Returned(Fail) || (out == Returned(Ok) && (path == tmp ==> SameAt(f, f', tmp))))
    && (path != tmp && out == Returned(Ok) ==> log'.otherFault == log.otherFault)
  }

  lemma HeaderPassAlone(f: Files, path: Path, tmp: Path, data: Bytes, log: Log, out: Outcome, f': Files)
    requires EnsureRel(f, path, true, log, out, f') && out != Returned(Ok) && log.swap == NO_SWAP
    ensures path != tmp ==> WriteRel(f, path, tmp, data, log, out, f')
    ensures path == tmp ==> WriteToTmpRel(f, tmp, data, log, out, f')
  {
  }

  lemma TmpPhaseOfTmp(f: Files, tmp: Path, data: Bytes, g: Files, log: Log, out: Outcome, f': Files, log': Log)
    requires EnsureRel(f, tmp, true, log, Returned(Ok), g)
    requires TmpPhase(g, tmp, data, log, out, f', log') && out != Returned(Ok)
    ensures WriteToTmpRel(f, tmp, data, log', out, f')
  {
  }

  lemma WithTmpPhase(f: Files, path: Path, tmp: Path, data: Bytes, g: Files, log: Log, out: Outcome, f': Files,
                     log': Log)
    requires EnsureRel(f, path, true, log, Returned(Ok), g) && log.swap == NO_SWAP
    requires TmpPhase(g, tmp, data, log, out, f', log') && out != Returned(Ok)
    ensures if path == tmp then WriteToTmpRel(f, tmp, data, log', out, f')
            else WriteRel(f, path, tmp, data, log', out, f')
  {
    if path == tmp {
      TmpPhaseOfTmp(f, tmp, data, g, log, out, f', log');
    }
  }

  lemma WithReplacePhase(f: Files, path: Path, tmp: Path, data: Bytes, g: Files, log: Log, h: Files, out: Outcome,
                         f': Files, log': Log)
    requires EnsureRel(f, path, true, log, Returned(Ok), g) && log.swap == NO_SWAP
    requires h == g[tmp := FileOf(data)]
    requires ReplacePhase(h, path, tmp, log, out, f', log')
    ensures if path == tmp then WriteToTmpRel(f, tmp, data, log', out, f')
            else WriteRel(f, path, tmp, data, log', out, f')
  {
    if path == tmp {
      WithReplaceOfTmp(f, tmp, data, g, log, h, out, f', log');
    } else {
      ReplacedElsewhere(f, path, tmp, data, g, log, h, f');
      ReplacedTarget(f, path, tmp, data, g, log, h, out, f', log');
      ReplacedResult(f, path, tmp, data, g, log, h, out, f', log');
    }
  }

  lemma ReplacedElsewhere(f: Files, path: Path, tmp: Path, data: Bytes, g: Files, log: Log, h: Files, f': Files)
    requires EnsureRel(f, path, true, log, Returned(Ok), g)
    requires h == g[tmp := FileOf(data)] && SameElsewhere(h, f', {path, tmp})
    ensures SameElsewhere(f, f', {path, tmp})
  {
    forall p | p != path && p != tmp ensures SameAt(f, f', p) {
      assert SameAt(h, f', p);
    }
  }

  lemma ReplacedTarget(f: Files, path: Path, tmp: Path, data: Bytes, g: Files, log: Log, h: Files, out: Outcome,
                       f': Files, log': Log)
    requires EnsureRel(f, path, true, log, Returned(Ok), g) && path != tmp && log.swap == NO_SWAP
    requires h == g[tmp := FileOf(data)]
    requires ReplacePhase(h, path, tmp, log, out, f', log')
    ensures TargetOk(f, path, tmp, data, log', out, f') && TmpOk(f, tmp, data, log', f')
  {
    assert TornFrame(data, HEADER_SIZE) == FileOf(data);
  }

  lemma ReplacedResult(f: Files, path: Path, tmp: Path, data: Bytes, g: Files, log: Log, h: Files, out: Outcome,
                       f': Files, log': Log)
    requires EnsureRel(f, path, true, log, Returned(Ok), g) && path != tmp
    requires h == g[tmp := FileOf(data)]
    requires ReplacePhase(h, path, tmp, log, out, f', log')
    ensures var e := Ensured(f, path, true, log'.statLied, log'.shortRead);
      && e == Checked(Ok, g)
      && (!log'.otherFault && !out.PowerLost? ==> out == Returned(Ok) && f' == e.files[path := FileOf(data)] - {tmp})
  {
  }

  lemma WithReplaceOfTmp(f: Files, tmp: Path, data: Bytes, g: Files, log: Log, h: Files, out: Outcome, f': Files,
                         log': Log)
    requires EnsureRel(f, tmp, true, log, Returned(Ok), g) && log.swap == NO_SWAP
    requires h == g[tmp := FileOf(data)]
    requires ReplacePhase(h, tmp, tmp, log, out, f', log')
    ensures WriteToTmpRel(f, tmp, data, log', out, f')
  {
    ReplacedElsewhere(f, tmp, tmp, data, g, log, h, f');
    assert TornFrame(data, HEADER_SIZE) == FileOf(data);
    if tmp !in f' {
      GoneAlone(f, f', tmp);
    }
  }

  lemma GoneAlone(f: Files, f': Files, p: Path)
    requires SameElsewhere(f, f', {p}) && p !in f'
    ensures f' == f - {p}
  {
    forall q ensures q in f' <==> q in f - {p} {
      assert SameAt(f, f', q) || q == p;
    }
    forall q | q in f' ensures f'[q] == f[q] {
      assert SameAt(f, f', q);
    }
  }

  // ---------- Reading ----------

  /** What a read returns and leaves in the caller's buffer; `lenOut` is what it stored as the length. */
  predicate ReadRel(f: Files, path: Path, size: Option<nat>, log: Log, out: Outcome, lenOut: Option<nat>,
                    before: Bytes, after: Bytes)
  {
    && |after| == |before| && (if size.Some? then size.value <= |before| else after == before)
    && (!log.otherFault && !log.shortRead && !out.PowerLost? ==> out == Returned(ReadStatus(f, path, size)))
    && ((log.otherFault || log.shortRead) && !out.PowerLost? ==> out == Returned(Fail))
    && (out == Returned(Ok) ==> ReadStatus(f, path, size) == Ok)
    && (out == Returned(Ok) || out == Returned(NoMem) ==>
         path in f && |f[path]| >= HEADER_SIZE && lenOut == Some(Decode(f[path]).payloadLen))
    && (out != Returned(Ok) && out != Returned(NoMem) ==> lenOut == None)
    && (out == Returned(NoMem) ==> size.Some? && size.value < Decode(f[path]).payloadLen)
    && (if out == Returned(Ok) && size.Some?
        then ReadBack(f[path]).Good? && |ReadBack(f[path]).data| <= |before| &&
             after == ReadBack(f[path]).data + before[|ReadBack(f[path]).data|..]
        else (path in f && HeaderStatus(f[path]) == Ok && size.Some? && size.value >= Decode(f[path]).payloadLen)
             || after == before)
    && (forall i :: 0 <= i < |before| ==>
         after[i] == before[i] || (path in f && HEADER_SIZE + i < |f[path]| && after[i] == f[path][HEADER_SIZE + i]))
    && (path in f && |f[path]| >= HEADER_SIZE && Decode(f[path]).payloadLen <= |before| ==>
         after[Decode(f[path]).payloadLen..] == before[Decode(f[path]).payloadLen..])
  }

  /** The answer of a read whose calls all work; `size` is None for a size query. */
  function ReadStatus(f: Files, path: Path, size: Option<nat>): Status {
    if path !in f then Fail
    else if HeaderStatus(f[path]) != Ok then HeaderStatus(f[path])
    else if size.None? then Ok
    else if size.value < Decode(f[path]).payloadLen then NoMem
    else if |f[path]| < HEADER_SIZE + Decode(f[path]).payloadLen then Fail
    else Ok
  }
}
