/** The file system: what each call does, given how it answers; and the storage operations that write, as
  * functions of all their answers. Every call may fail at will and lose power before, inside or after its effect. */
module StgIo {
  import opened LittleEndian
  import opened StgFormat
  import opened StgPath
  import opened StgSpec

  datatype Call = Done | Failed | Lost

  /** The files, what the open output stream has accepted, and what went wrong underneath the operation. */
  datatype Fs = Fs(files: Files, stream: Bytes, log: Log)
  {
    function Put(path: Path, data: Bytes): Fs {
      this.(files := files[path := data])
    }

    function Drop(path: Path): Fs {
      this.(files := files - {path})
    }

    function FaultIf(b: bool): Fs {
      if b then this.(log := log.(otherFault := true)) else this
    }
  }

  function Min(a: nat, b: nat): nat {
    if a < b then a else b
  }

  // ---------- Calls ----------

  /** How a call is answered. One that works may still have to fail, as removing a missing file does. */
  datatype Answer = Works | Fails | Dies(effect: bool)

  datatype StatAnswer = StatAnswer(denies: bool, dies: bool)

  datatype ReadAnswer = ReadAnswer(most: nat, dies: bool)

  /** How many bytes are accepted at most, and how many of the stream then are in the file. */
  datatype WriteAnswer = WriteAnswer(most: nat, flushed: nat, dies: bool)

  datatype CloseAnswer = CloseAnswer(answer: Answer, flushed: nat)

  datatype Ended = Ended(call: Call, fs: Fs)

  /** stat: never claims a missing file, but may deny an existing one. */
  function StatFile(fs: Fs, path: Path, a: StatAnswer): (Ended, bool) {
    var end := if path in fs.files && a.denies then fs.(log := fs.log.(statLied := true)) else fs;
    (Ended(if a.dies then Lost else Done, end), path in fs.files && !a.denies)
  }

  function OpenForRead(fs: Fs, path: Path, a: Answer): Ended {
    match a
    case Works => Ended(if path in fs.files then Done else Failed, fs)
    case Fails => Ended(Failed, fs.FaultIf(path in fs.files))
    case Dies(_) => Ended(Lost, fs)
  }

  /** fread: a beginning of what is asked for and there. */
  function ReadStream(fs: Fs, path: Path, at: nat, want: nat, a: ReadAnswer): (Ended, Bytes)
    requires path in fs.files && at <= |fs.files[path]|
  {
    var file := fs.files[path];
    var there := Min(want, |file| - at);
    var k := Min(a.most, there);
    var end := if k < there then fs.(log := fs.log.(shortRead := true)) else fs;
    (Ended(if a.dies then Lost else Done, end), file[at..at + k])
  }

  function CloseInput(fs: Fs, a: Answer): Ended {
    match a
    case Works => Ended(Done, fs)
    case Fails => Ended(Failed, fs.FaultIf(true))
    case Dies(_) => Ended(Lost, fs)
  }

  /** fopen "wb": creates or empties the file. */
  function OpenForWrite(fs: Fs, path: Path, a: Answer): Ended {
    match a
    case Works => Ended(Done, fs.Put(path, []).(stream := []))
    case Fails => Ended(Failed, fs.FaultIf(true))
    case Dies(effect) => Ended(Lost, if effect then fs.Put(path, []) else fs)
  }

  /** fwrite: the stream takes some of the bytes. When power is lost, any beginning of the stream is in the file. */
  function WriteStream(fs: Fs, path: Path, bytes: Bytes, a: WriteAnswer): (Ended, nat) {
    var w := Min(a.most, |bytes|);
    var stream := fs.stream + bytes[..w];
    var end := fs.(stream := stream).FaultIf(w < |bytes|);
    (if a.dies then Ended(Lost, end.Put(path, stream[..Min(a.flushed, |stream|)])) else Ended(Done, end), w)
  }

  /** fclose of an output stream: if it works the whole stream is in the file, else any beginning of it. */
  function CloseOutput(fs: Fs, path: Path, a: CloseAnswer): Ended {
    var part := fs.stream[..Min(a.flushed, |fs.stream|)];
    match a.answer
    case Works => Ended(Done, fs.Put(path, fs.stream))
    case Fails => Ended(Failed, fs.Put(path, part).FaultIf(true))
    case Dies(_) => Ended(Lost, fs.Put(path, part))
  }

  function Remove(fs: Fs, path: Path, a: Answer): Ended {
    match a
    case Works => if path in fs.files then Ended(Done, fs.Drop(path)) else Ended(Failed, fs)
    case Fails => Ended(Failed, fs.FaultIf(path in fs.files))
    case Dies(effect) => Ended(Lost, if effect then fs.Drop(path) else fs)
  }

  /** rename of one file to another: fails when the destination exists, and takes effect whole or not at all. */
  function Rename(fs: Fs, from: Path, to: Path, a: Answer): Ended {
    var possible := from in fs.files && to !in fs.files;
    var failed := fs.(log := fs.log.(swap := fs.log.swap.(renameFailed := true)));
    match a
    case Works =>
      if possible then Ended(Done, Moved(fs, from, to))
      else if from == to && from in fs.files then Ended(Done, fs)
      else Ended(Failed, failed)
    case Fails => Ended(Failed, failed.FaultIf(possible))
    case Dies(effect) => Ended(Lost, if possible && effect then Moved(fs, from, to) else fs)
  }

  function Moved(fs: Fs, from: Path, to: Path): Fs
    requires from in fs.files
  {
    Fs(fs.files[to := fs.files[from]] - {from}, fs.stream, fs.log.(swap := fs.log.swap.(committed := true)))
  }

  /** Formatting removes files whole; unless it works it may leave some. */
  function FormatVolume(fs: Fs, a: Answer, gone: set<Path>): Ended {
    match a
    case Works => Ended(Done, fs.(files := map[]))
    case Fails => Ended(Failed, fs.(files := fs.files - gone).FaultIf(true))
    case Dies(_) => Ended(Lost, fs.(files := fs.files - gone))
  }

  // ---------- Operations ----------

  datatype Result = Result(out: Outcome, fs: Fs)

  datatype FillIo = FillIo(open: Answer, write: WriteAnswer, close: CloseAnswer)

  datatype HeaderIo = HeaderIo(stat: StatAnswer, open: Answer, read: ReadAnswer, close: Answer, fill: FillIo)

  datatype TmpIo = TmpIo(open: Answer, header: WriteAnswer, payload: WriteAnswer, close: CloseAnswer, remove: Answer)

  datatype ReplaceIo = ReplaceIo(remove: Answer, rename: Answer, drop: Answer)

  datatype WriteIo = WriteIo(header: HeaderIo, tmp: TmpIo, replace: ReplaceIo)

  /** An unsuccessful call ends the operation. */
  function Stop(e: Ended): Result
    requires !e.call.Done?
  {
    Result(if e.call.Lost? then PowerLost else Returned(Fail), e.fs)
  }

  /** stg_file_write_all */
  function FillFile(fs: Fs, path: Path, data: Bytes, io: FillIo): (r: Result)
    ensures r.fs.log.swap == fs.log.swap
  {
    var begun := OpenForWrite(fs, path, io.open);
    if begun.call.Done? then FillOpen(begun.fs, path, data, io.write, io.close) else Stop(begun)
  }

  /** One fwrite into the open stream, and fclose. */
  function FillOpen(fs: Fs, path: Path, data: Bytes, write: WriteAnswer, close: CloseAnswer): (r: Result)
    ensures r.fs.log.swap == fs.log.swap
  {
    var (wrote, w) := WriteStream(fs, path, data, write);
    if wrote.call.Lost? then Stop(wrote) else CloseFile(wrote.fs, path, w == |data|, close)
  }

  /** fclose; `complete` says that everything was accepted before. */
  function CloseFile(fs: Fs, path: Path, complete: bool, a: CloseAnswer): (r: Result)
    ensures r.fs.log.swap == fs.log.swap
  {
    var closed := CloseOutput(fs, path, a);
    if closed.call.Lost? then Stop(closed)
    else Result(Returned(if !complete || closed.call.Failed? then Fail else Ok), closed.fs)
  }

  /** stg_header_ensure_or_validate */
  function HeaderPass(fs: Fs, path: Path, heal: bool, io: HeaderIo): (r: Result)
    ensures r.fs.log.swap == fs.log.swap
  {
    var (stat, found) := StatFile(fs, path, io.stat);
    if stat.call.Lost? then Stop(stat)
    else if found then Validate(stat.fs, path, heal, io)
    else FillFile(stat.fs, path, EmptyFile(), io.fill)
  }

  /** Of a file that stat has found. */
  function Validate(fs: Fs, path: Path, heal: bool, io: HeaderIo): (r: Result)
    ensures r.fs.log.swap == fs.log.swap
  {
    var begun := OpenForRead(fs, path, io.open);
    if !begun.call.Done? then Stop(begun) else
    var (read, got) := ReadStream(begun.fs, path, 0, HEADER_SIZE, io.read);
    if read.call.Lost? then Stop(read) else
    var closed := CloseInput(read.fs, io.close);
    if !closed.call.Done? then Stop(closed)
    else if |got| == HEADER_SIZE then Result(Returned(HeaderStatus(got)), closed.fs)
    else if heal then FillFile(closed.fs, path, EmptyFile(), io.fill)
    else Result(Returned(Fail), closed.fs)
  }

  /** The temporary file, once open. The payload is written even if the header came up short. */
  function FillTmp(fs: Fs, tmp: Path, header: Bytes, data: Bytes, io: TmpIo): Result
    requires |header| == HEADER_SIZE
  {
    var (first, w) := WriteStream(fs, tmp, header, io.header);
    var noted := Noted(first.fs, w);
    if first.call.Lost? then Result(PowerLost, noted) else
    var rest := FillRest(noted, tmp, data, io);
    if rest.out == Returned(Ok) && w != HEADER_SIZE then Result(Returned(Fail), rest.fs) else rest
  }

  /** How much of the header was taken goes on record. */
  function Noted(fs: Fs, taken: HeaderLen): Fs {
    fs.(log := fs.log.(swap := NO_SWAP.(headerTaken := taken)))
  }

  function FillRest(fs: Fs, tmp: Path, data: Bytes, io: TmpIo): Result {
    if |data| > 0 then FillOpen(fs, tmp, data, io.payload, io.close) else CloseFile(fs, tmp, true, io.close)
  }

  function WriteTmp(fs: Fs, tmp: Path, header: Bytes, data: Bytes, io: TmpIo): Result
    requires |header| == HEADER_SIZE
  {
    var begun := OpenForWrite(fs, tmp, io.open);
    if !begun.call.Done? then Stop(begun) else DropFailed(FillTmp(begun.fs, tmp, header, data, io), tmp, io.remove)
  }

  function DropFailed(filled: Result, tmp: Path, a: Answer): Result {
    if filled.out != Returned(Fail) then filled else
    var dropped := Remove(filled.fs, tmp, a);
    Result(if dropped.call.Lost? then PowerLost else Returned(Fail), dropped.fs)
  }

  /** Remove the target, then rename the temporary file to it. */
  function Replace(fs: Fs, path: Path, tmp: Path, io: ReplaceIo): Result {
    var removed := RemoveTarget(fs, path, io.remove);
    if removed.call.Lost? then Stop(removed) else
    var renamed := Rename(removed.fs, tmp, path, io.rename);
    if renamed.call.Lost? then Stop(renamed)
    else if renamed.call.Done? then Result(Returned(Ok), renamed.fs)
    else
      var dropped := DropTmp(renamed.fs, tmp, io.drop);
      Result(if dropped.call.Lost? then PowerLost else Returned(Fail), dropped.fs)
  }

  /** Whether the two removals took effect goes on record. */
  function RemoveTarget(fs: Fs, path: Path, a: Answer): Ended {
    var e := Remove(fs, path, a);
    e.(fs := e.fs.(log := e.fs.log.(swap := fs.log.swap.(removed := path !in e.fs.files))))
  }

  function DropTmp(fs: Fs, tmp: Path, a: Answer): Ended {
    var e := Remove(fs, tmp, a);
    e.(fs := e.fs.(log := e.fs.log.(swap := fs.log.swap.(dropped := tmp !in e.fs.files))))
  }

  /** stg_man_write, once the path is resolved. */
  function WriteFile(fs: Fs, path: Path, tmpPath: PathResult, data: Bytes, io: WriteIo): Result
    requires fs.log.swap == NO_SWAP
  {
    var header := HeaderPass(fs, path, true, io.header);
    if header.out != Returned(Ok) then header
    else match tmpPath
      case NoPath(status) => Result(Returned(status), header.fs)
      case Path(tmp) =>
        var filled := WriteTmp(header.fs, tmp, Encode(DefaultHeader(|data|)), data, io.tmp);
        if filled.out != Returned(Ok) then filled else Replace(filled.fs, path, tmp, io.replace)
  }

  // ---------- What the operations come to ----------

  lemma FillOpenOutcome(fs: Fs, path: Path, data: Bytes, write: WriteAnswer, close: CloseAnswer)
    ensures var r := FillOpen(fs, path, data, write, close); var f := r.fs.files;
      && (r.out.PowerLost? || r.out == Returned(Ok) || (r.out == Returned(Fail) && r.fs.log.otherFault))
      && (path in f && f[path] <= fs.stream + data && f == fs.files[path := f[path]])
      && (r.out == Returned(Ok) ==> f[path] == fs.stream + data && r.fs.log == fs.log)
      && Worse(fs.log, r.fs.log)
  {
    var (wrote, w) := WriteStream(fs, path, data, write);
    assert wrote.fs.stream == fs.stream + data[..w];
  }

  /** Success means exactly the data; otherwise the file is as before or holds a prefix. */
  lemma FillFileOutcome(fs: Fs, path: Path, data: Bytes, io: FillIo)
    ensures var r := FillFile(fs, path, data, io); var f := r.fs.files;
      && (r.out.PowerLost? || r.out == Returned(Ok) || (r.out == Returned(Fail) && r.fs.log.otherFault))
      && (f == fs.files || (path in f && f[path] <= data && f == fs.files[path := f[path]]))
      && (r.out == Returned(Ok) ==> f == fs.files[path := data] && r.fs.log == fs.log)
      && Worse(fs.log, r.fs.log)
  {
    var begun := OpenForWrite(fs, path, io.open);
    if begun.call.Done? {
      FillOpenOutcome(begun.fs, path, data, io.write, io.close);
      assert begun.fs.stream + data == data;
    }
  }

  lemma ValidateMeetsSpec(fs: Fs, path: Path, heal: bool, io: HeaderIo)
    requires fs.log == QUIET && path in fs.files
    ensures var r := Validate(fs, path, heal, io); EnsureRel(fs.files, path, heal, r.fs.log, r.out, r.fs.files)
  {
    var begun := OpenForRead(fs, path, io.open);
    if begun.call.Done? {
      var (read, got) := ReadStream(begun.fs, path, 0, HEADER_SIZE, io.read);
      var closed := CloseInput(read.fs, io.close);
      if |got| == HEADER_SIZE {
        SameHeader(fs.files[path], got);
      } else {
        FillFileOutcome(closed.fs, path, EmptyFile(), io.fill);
      }
    }
  }

  lemma SameHeader(file: Bytes, got: Bytes)
    requires |got| == HEADER_SIZE <= |file| && got == file[..HEADER_SIZE]
    ensures Decode(got) == Decode(file) && HeaderStatus(got) == HeaderStatus(file)
  {
    DecodeIsInverse(Decode(file), file);
    DecodeIsInverse(Decode(file), got);
  }

  lemma HeaderPassMeetsSpec(fs: Fs, path: Path, heal: bool, io: HeaderIo)
    requires fs.log == QUIET
    ensures var r := HeaderPass(fs, path, heal, io); EnsureRel(fs.files, path, heal, r.fs.log, r.out, r.fs.files)
  {
    var (stat, found) := StatFile(fs, path, io.stat);
    if found {
      ValidateMeetsSpec(stat.fs, path, heal, io);
    } else {
      FillFileOutcome(stat.fs, path, EmptyFile(), io.fill);
    }
  }

  lemma FillRestOutcome(fs: Fs, tmp: Path, data: Bytes, io: TmpIo)
    ensures var r := FillRest(fs, tmp, data, io); var f := r.fs.files;
      && (r.out.PowerLost? || r.out == Returned(Ok) || (r.out == Returned(Fail) && r.fs.log.otherFault))
      && (tmp in f && f[tmp] <= fs.stream + data && f == fs.files[tmp := f[tmp]])
      && (r.out == Returned(Ok) ==> f[tmp] == fs.stream + data && r.fs.log == fs.log)
      && Worse(fs.log, r.fs.log)
  {
    if |data| > 0 {
      FillOpenOutcome(fs, tmp, data, io.payload, io.close);
    } else {
      assert fs.stream + data == fs.stream;
    }
  }

  lemma HeaderWritten(fs: Fs, tmp: Path, header: Bytes, a: WriteAnswer)
    requires |header| == HEADER_SIZE && fs.stream == []
    ensures var (first, w) := WriteStream(fs, tmp, header, a);
      && first.fs.stream == header[..w]
      && first.fs.log == (if w < HEADER_SIZE then fs.log.(otherFault := true) else fs.log)
      && (if first.call.Done? then first.fs.files == fs.files
          else first.call.Lost? && exists k :: 0 <= k <= w && first.fs.files == fs.files[tmp := header[..w][..k]])
  {
    var (first, w) := WriteStream(fs, tmp, header, a);
    assert fs.stream + header[..w] == header[..w];
    assert first.call.Lost? ==> first.fs.files == fs.files[tmp := header[..w][..Min(a.flushed, w)]];
  }

  lemma FillTmpOutcome(fs: Fs, tmp: Path, header: Bytes, data: Bytes, io: TmpIo)
    requires |header| == HEADER_SIZE && fs.stream == [] && fs.log.swap == NO_SWAP
    ensures var r := FillTmp(fs, tmp, header, data, io); var f, taken := r.fs.files, r.fs.log.swap.headerTaken;
      && tmp in f && f == fs.files[tmp := f[tmp]] && f[tmp] <= header[..taken] + data
      && r.fs.log.swap == NO_SWAP.(headerTaken := taken) && Worse(fs.log.(swap := r.fs.log.swap), r.fs.log)
      && (taken < HEADER_SIZE ==> r.fs.log.otherFault)
      && (r.out.PowerLost? || (r.out == Returned(Fail) && r.fs.log.otherFault)
          || (r.out == Returned(Ok) && f[tmp] == header + data && r.fs.log == fs.log))
  {
    var (first, w) := WriteStream(fs, tmp, header, io.header);
    HeaderWritten(fs, tmp, header, io.header);
    FillRestOutcome(Noted(first.fs, w), tmp, data, io);
  }

  lemma DropFailedOutcome(f: Files, filled: Result, tmp: Path, a: Answer)
    requires tmp in filled.fs.files && filled.fs.files == f[tmp := filled.fs.files[tmp]]
    ensures var r := DropFailed(filled, tmp, a);
      && (r.fs.files == filled.fs.files || (r.fs.files == f - {tmp} && filled.out == Returned(Fail)))
      && r.fs.log.swap == filled.fs.log.swap && Worse(filled.fs.log, r.fs.log)
      && (r.out == filled.out || (r.out.PowerLost? && filled.out == Returned(Fail)))
      && (filled.out != Returned(Fail) ==> r == filled)
  {
    assert filled.fs.files - {tmp} == f - {tmp};
  }

  lemma WriteTmpOutcome(fs: Fs, tmp: Path, header: Bytes, data: Bytes, io: TmpIo)
    requires |header| == HEADER_SIZE && fs.log.swap == NO_SWAP
    ensures var r := WriteTmp(fs, tmp, header, data, io); var f, taken := r.fs.files, r.fs.log.swap.headerTaken;
      && OnlyAt(fs.files, f, tmp) && (f == fs.files || tmp !in f || f[tmp] <= header[..taken] + data)
      && r.fs.log.swap == NO_SWAP.(headerTaken := taken) && Worse(fs.log.(swap := r.fs.log.swap), r.fs.log)
      && (taken < HEADER_SIZE ==> r.fs.log.otherFault)
      && (r.out.PowerLost? || (r.out == Returned(Fail) && r.fs.log.otherFault)
          || (r.out == Returned(Ok) && f == fs.files[tmp := header + data] && r.fs.log == fs.log))
  {
    var begun := OpenForWrite(fs, tmp, io.open);
    if begun.call.Done? {
      FillTmpOutcome(begun.fs, tmp, header, data, io);
      var filled := FillTmp(begun.fs, tmp, header, data, io);
      assert filled.fs.files == fs.files[tmp := filled.fs.files[tmp]];
      DropFailedOutcome(fs.files, filled, tmp, io.remove);
    }
  }

  lemma WriteTmpMeetsSpec(fs: Fs, tmp: Path, data: Bytes, io: TmpIo)
    requires fs.log.swap == NO_SWAP
    ensures var r := WriteTmp(fs, tmp, Encode(DefaultHeader(|data|)), data, io);
      TmpPhase(fs.files, tmp, data, fs.log, r.out, r.fs.files, r.fs.log)
  {
    WriteTmpOutcome(fs, tmp, Encode(DefaultHeader(|data|)), data, io);
  }

  lemma RemoveTargetOutcome(fs: Fs, path: Path, a: Answer)
    requires fs.log.swap == NO_SWAP && path in fs.files
    ensures var e := RemoveTarget(fs, path, a); var swap := e.fs.log.swap;
      && e.fs.files == (if swap.removed then fs.files - {path} else fs.files)
      && swap == NO_SWAP.(removed := swap.removed)
      && e.fs.log == fs.log.(otherFault := fs.log.otherFault || e.call.Failed?, swap := swap)
      && (e.call.Done? ==> swap.removed) && (e.call.Failed? ==> !swap.removed)
  {
  }

  lemma RenameOutcome(fs: Fs, from: Path, to: Path, a: Answer)
    requires from != to && from in fs.files && !fs.log.swap.committed && !fs.log.swap.renameFailed
    ensures var e := Rename(fs, from, to, a); var swap := e.fs.log.swap;
      && swap == fs.log.swap.(renameFailed := e.call.Failed?, committed := swap.committed)
      && (if swap.committed then to !in fs.files && e.fs.files == fs.files[to := fs.files[from]] - {from}
          else e.fs.files == fs.files)
      && e.fs.log == fs.log.(otherFault := e.fs.log.otherFault, swap := swap)
      && (e.fs.log.otherFault <==> fs.log.otherFault || (e.call.Failed? && to !in fs.files))
      && (e.call.Done? ==> swap.committed) && (e.call.Failed? ==> !swap.committed)
  {
  }

  lemma DropTmpOutcome(fs: Fs, tmp: Path, a: Answer)
    requires tmp in fs.files && !fs.log.swap.dropped
    ensures var e := DropTmp(fs, tmp, a); var swap := e.fs.log.swap;
      && e.fs.files == (if swap.dropped then fs.files - {tmp} else fs.files)
      && swap == fs.log.swap.(dropped := swap.dropped)
      && e.fs.log == fs.log.(otherFault := fs.log.otherFault || e.call.Failed?, swap := swap)
  {
  }

  lemma ReplaceOtherMeetsSpec(fs: Fs, path: Path, tmp: Path, io: ReplaceIo)
    requires fs.log.swap == NO_SWAP && path in fs.files && tmp in fs.files && path != tmp
    ensures var r := Replace(fs, path, tmp, io);
      ReplacePhase(fs.files, path, tmp, fs.log, r.out, r.fs.files, r.fs.log)
  {
    var removed := RemoveTarget(fs, path, io.remove);
    RemoveTargetOutcome(fs, path, io.remove);
    if !removed.call.Lost? {
      var renamed := Rename(removed.fs, tmp, path, io.rename);
      RenameOutcome(removed.fs, tmp, path, io.rename);
      if renamed.call.Failed? {
        DropTmpOutcome(renamed.fs, tmp, io.drop);
      }
    }
  }

  lemma ReplaceTmpMeetsSpec(fs: Fs, tmp: Path, io: ReplaceIo)
    requires fs.log.swap == NO_SWAP && tmp in fs.files
    ensures var r := Replace(fs, tmp, tmp, io);
      ReplacePhase(fs.files, tmp, tmp, fs.log, r.out, r.fs.files, r.fs.log)
  {
    RemoveTargetOutcome(fs, tmp, io.remove);
  }

  lemma ReplaceMeetsSpec(fs: Fs, path: Path, tmp: Path, io: ReplaceIo)
    requires fs.log.swap == NO_SWAP && path in fs.files && tmp in fs.files
    ensures var r := Replace(fs, path, tmp, io);
      ReplacePhase(fs.files, path, tmp, fs.log, r.out, r.fs.files, r.fs.log)
  {
    if path == tmp {
      ReplaceTmpMeetsSpec(fs, tmp, io);
    } else {
      ReplaceOtherMeetsSpec(fs, path, tmp, io);
    }
  }

  lemma AfterHeaderPass(fs: Fs, path: Path, tmp: Path, data: Bytes, g: Fs, io: WriteIo)
    requires fs.log == QUIET && g.log.swap == NO_SWAP
    requires EnsureRel(fs.files, path, true, g.log, Returned(Ok), g.files)
    ensures var filled := WriteTmp(g, tmp, Encode(DefaultHeader(|data|)), data, io.tmp);
      var r := if filled.out != Returned(Ok) then filled else Replace(filled.fs, path, tmp, io.replace);
      if path == tmp then WriteToTmpRel(fs.files, tmp, data, r.fs.log, r.out, r.fs.files)
      else WriteRel(fs.files, path, tmp, data, r.fs.log, r.out, r.fs.files)
  {
    var filled := WriteTmp(g, tmp, Encode(DefaultHeader(|data|)), data, io.tmp);
    WriteTmpMeetsSpec(g, tmp, data, io.tmp);
    if filled.out != Returned(Ok) {
      WithTmpPhase(fs.files, path, tmp, data, g.files, g.log, filled.out, filled.fs.files, filled.fs.log);
    } else {
      var h := filled.fs;
      ReplaceMeetsSpec(h, path, tmp, io.replace);
      var r := Replace(h, path, tmp, io.replace);
      WithReplacePhase(fs.files, path, tmp, data, g.files, g.log, h.files, r.out, r.fs.files, r.fs.log);
    }
  }

  /** What a write does in each of three cases: no temporary path fits, the target is the temporary file, or not. */
  ghost predicate Written(f: Files, path: Path, tmpPath: PathResult, data: Bytes, log: Log, out: Outcome, f': Files) {
    match tmpPath
    case NoPath(status) => out != Returned(Ok) && (f' == f || (MayRewrite(f, path, true, log) && Reset(f, path, f')))
    case Path(tmp) =>
      if path == tmp then WriteToTmpRel(f, tmp, data, log, out, f')
      else WriteRel(f, path, tmp, data, log, out, f')
  }

  /** Whatever the calls answer, a write does what the write relations allow. */
  lemma WriteFileMeetsSpec(fs: Fs, path: Path, tmpPath: PathResult, data: Bytes, io: WriteIo)
    requires fs.log == QUIET && (tmpPath.NoPath? ==> tmpPath.status != Ok)
    ensures var r := WriteFile(fs, path, tmpPath, data, io);
      Written(fs.files, path, tmpPath, data, r.fs.log, r.out, r.fs.files)
  {
    HeaderPassMeetsSpec(fs, path, true, io.header);
    var header := HeaderPass(fs, path, true, io.header);
    match tmpPath
    case NoPath(_) =>
    case Path(tmp) =>
      if header.out == Returned(Ok) {
        AfterHeaderPass(fs, path, tmp, data, header.fs, io);
      } else {
        HeaderPassAlone(fs.files, path, tmp, data, header.fs.log, header.out, header.fs.files);
      }
  }

  /** A write that returns, with whatever answer, leaves no temporary file behind, unless one was there before or
    * its removal fails. */
  lemma ReturnedWriteCleansUp(fs: Fs, path: Path, tmp: Path, data: Bytes, io: WriteIo)
    requires fs.log == QUIET && path != tmp && tmp !in fs.files
    requires io.tmp.remove.Works? && io.replace.drop.Works?
    ensures var r := WriteFile(fs, path, PathResult.Path(tmp), data, io);
      r.out.Returned? ==> tmp !in r.fs.files
  {
    HeaderPassMeetsSpec(fs, path, true, io.header);
    var header := HeaderPass(fs, path, true, io.header);
    if header.out == Returned(Ok) {
      TmpIsCleanedUp(header.fs, path, tmp, Encode(DefaultHeader(|data|)), data, io);
    }
  }

  lemma TmpIsCleanedUp(g: Fs, path: Path, tmp: Path, header: Bytes, data: Bytes, io: WriteIo)
    requires |header| == HEADER_SIZE && g.log.swap == NO_SWAP && path != tmp && path in g.files && tmp !in g.files
    requires io.tmp.remove.Works? && io.replace.drop.Works?
    ensures var filled := WriteTmp(g, tmp, header, data, io.tmp);
      var r := if filled.out != Returned(Ok) then filled else Replace(filled.fs, path, tmp, io.replace);
      r.out.Returned? ==> tmp !in r.fs.files
  {
    WriteTmpOutcome(g, tmp, header, data, io.tmp);
    var filled := WriteTmp(g, tmp, header, data, io.tmp);
    if filled.out == Returned(Ok) {
      ReplaceDropsTmp(filled.fs, path, tmp, io.replace);
    }
  }

  lemma ReplaceDropsTmp(fs: Fs, path: Path, tmp: Path, io: ReplaceIo)
    requires fs.log.swap == NO_SWAP && path in fs.files && tmp in fs.files && path != tmp && io.drop.Works?
    ensures var r := Replace(fs, path, tmp, io); r.out.Returned? ==> tmp !in r.fs.files
  {
    RemoveTargetOutcome(fs, path, io.remove);
    var removed := RemoveTarget(fs, path, io.remove);
    if !removed.call.Lost? {
      RenameOutcome(removed.fs, tmp, path, io.rename);
    }
  }
}
