/** The storage manager as an object. Its methods are given the answers of the file-system calls they make. */
module StgMan {
  import opened Common
  import opened LittleEndian
  import opened StgFormat
  import opened StgPath
  import opened StgSpec
  import opened StgIo

  /** Whether the lock can be made, whether mounting wipes the volume first, and whether it works. */
  datatype MountIo = MountIo(lock: bool, wipes: bool, mounts: bool)

  datatype FormatIo = FormatIo(volume: Answer, gone: set<Path>, header: HeaderIo)

  datatype ReadIo = ReadIo(open: Answer, header: ReadAnswer, payload: ReadAnswer)

  class StorageManager {
    var lockMade: bool
    var inited: bool
    var basePath: string
    var defaultRel: string
    var fs: Fs

    constructor (files: Files)
      ensures !lockMade && !inited && fs == Fs(files, [], QUIET)
    {
      lockMade, inited, basePath, defaultRel, fs := false, false, "", "", Fs(files, [], QUIET);
    }

    /** stg_man_init: mounting may wipe the volume if it was told to, but no file is ever created. */
    method Init(base: string, default: string, formatIfMountFails: bool, io: MountIo) returns (st: Status)
      modifies `lockMade, `inited, `basePath, `defaultRel, `fs
      ensures st == Ok <==> inited && lockMade
      ensures (old(inited) ==> old(lockMade)) ==> inited ==> lockMade
      ensures old(inited) && old(lockMade) ==> basePath == old(basePath) && defaultRel == old(defaultRel)
      ensures st == Ok && !(old(inited) && old(lockMade)) ==> basePath == base && defaultRel == default
      ensures var ready := old(inited) && old(lockMade);
        fs.files == if !ready && (old(lockMade) || io.lock) && formatIfMountFails && io.wipes then map[]
                    else old(fs).files
    {
      if !lockMade {
        if !io.lock {
          return NoMem;
        }
        lockMade, inited := true, false;
      }
      if inited {
        return Ok;
      }
      basePath, defaultRel := base, default;
      if formatIfMountFails && io.wipes {
        fs := fs.(files := map[]);
      }
      inited := io.mounts;
      return if inited then Ok else Fail;
    }

    // ---------- Internal helpers ----------

    /** Let a call have its effect. */
    method Perform(e: Ended) returns (c: Call)
      modifies `fs
      ensures fs == e.fs && c == e.call
    {
      fs := e.fs;
      return e.call;
    }

    /** stg_file_write_all */
    method WriteAll(path: Path, data: Bytes, io: FillIo) returns (out: Outcome)
      modifies `fs
      ensures Result(out, fs) == FillFile(old(fs), path, data, io)
      ensures out.PowerLost? || out == Returned(Ok) || (out == Returned(Fail) && fs.log.otherFault)
      ensures var f := old(fs).files;
        fs.files == f || (path in fs.files && fs.files[path] <= data && fs.files == f[path := fs.files[path]])
      ensures out == Returned(Ok) ==> fs.files == old(fs).files[path := data]
    {
      FillFileOutcome(fs, path, data, io);
      var c := Perform(OpenForWrite(fs, path, io.open));
      if !c.Done? {
        return if c.Lost? then PowerLost else Returned(Fail);
      }
      var (wrote, w) := WriteStream(fs, path, data, io.write);
      c := Perform(wrote);
      if c.Lost? {
        return PowerLost;
      }
      c := Perform(CloseOutput(fs, path, io.close));
      if c.Lost? {
        return PowerLost;
      }
      return Returned(if w != |data| || c.Failed? then Fail else Ok);
    }

    /** stg_header_ensure_or_validate */
    method HeaderEnsureOrValidate(path: Path, heal: bool, io: HeaderIo) returns (out: Outcome)
      requires fs.log == QUIET
      modifies `fs
      ensures Result(out, fs) == HeaderPass(old(fs), path, heal, io)
      ensures EnsureRel(old(fs).files, path, heal, fs.log, out, fs.files) && fs.log.swap == NO_SWAP
    {
      HeaderPassMeetsSpec(fs, path, heal, io);
      var (stat, found) := StatFile(fs, path, io.stat);
      var c := Perform(stat);
      if c.Lost? {
        return PowerLost;
      }
      if !found {
        out := WriteAll(path, EmptyFile(), io.fill);
      } else {
        out := ValidateOrHeal(path, heal, io);
      }
    }

    method ValidateOrHeal(path: Path, heal: bool, io: HeaderIo) returns (out: Outcome)
      modifies `fs
      ensures Result(out, fs) == Validate(old(fs), path, heal, io)
    {
      var c := Perform(OpenForRead(fs, path, io.open));
      if !c.Done? {
        return if c.Lost? then PowerLost else Returned(Fail);
      }
      var (read, got) := ReadStream(fs, path, 0, HEADER_SIZE, io.read);
      c := Perform(read);
      if c.Lost? {
        return PowerLost;
      }
      c := Perform(CloseInput(fs, io.close));
      if !c.Done? {
        return if c.Lost? then PowerLost else Returned(Fail);
      }
      if |got| != HEADER_SIZE {
        if !heal {
          return Returned(Fail);
        }
        out := WriteAll(path, EmptyFile(), io.fill);
        return;
      }
      if Decode(got).magic != MAGIC {
        return Returned(InvalidState);
      }
      if Decode(got).version != VERSION {
        return Returned(InvalidVersion);
      }
      return Returned(Ok);
    }

    // ---------- Public API ----------

    /** What every operation checks before it touches a file. */
    function Refusal(rel: Option<string>): Option<Status>
      reads this
    {
      if !lockMade || !inited then Some(InvalidState)
      else match MakeAbspath(basePath, defaultRel, rel)
        case NoPath(status) => Some(status)
        case Path(_) => None
    }

    function Target(rel: Option<string>): Path
      requires Refusal(rel).None?
      reads this
    {
      MakeAbspath(basePath, defaultRel, rel).path
    }

    /** The refusals, each with its cause. */
    lemma RefusalIs(rel: Option<string>)
      ensures !(lockMade && inited) ==> Refusal(rel) == Some(InvalidState)
      ensures lockMade && inited ==>
        Refusal(rel) == match MakeAbspath(basePath, defaultRel, rel) case NoPath(st) => Some(st) case Path(_) => None
      ensures Refusal(rel).None? ==>
        lockMade && inited && Target(rel) == basePath + "/" + (if rel.Some? then rel.value else defaultRel)
    {
    }

    method Check(rel: Option<string>, io: HeaderIo) returns (out: Outcome)
      modifies `fs
      ensures old(Refusal(rel)).Some? ==>
        out == Returned(old(Refusal(rel)).value) && fs == old(fs).(log := QUIET)
      ensures old(Refusal(rel)).None? ==>
        && Result(out, fs) == HeaderPass(old(fs).(log := QUIET), old(Target(rel)), false, io)
        && EnsureRel(old(fs).files, old(Target(rel)), false, fs.log, out, fs.files) && fs.log.swap == NO_SWAP
    {
      fs := fs.(log := QUIET);
      if !lockMade || !inited {
        return Returned(InvalidState);
      }
      match MakeAbspath(basePath, defaultRel, rel)
      case NoPath(status) => return Returned(status);
      case Path(path) => out := HeaderEnsureOrValidate(path, false, io);
    }

    method Format(io: FormatIo) returns (out: Outcome)
      modifies `fs
      ensures !lockMade || !inited ==> out == Returned(InvalidState) && fs == old(fs).(log := QUIET)
      ensures old(Refusal(None)).None? ==> FormatRel(old(fs).files, old(Target(None)), fs.log, out, fs.files)
      ensures forall p :: p in fs.files && (Refusal(None).Some? || p != Target(None)) ==>
        p in old(fs).files && fs.files[p] == old(fs).files[p]
    {
      fs := fs.(log := QUIET);
      if !lockMade || !inited {
        return Returned(InvalidState);
      }
      var c := Perform(FormatVolume(fs, io.volume, io.gone));
      if !c.Done? {
        return if c.Lost? then PowerLost else Returned(Fail);
      }
      match MakeAbspath(basePath, defaultRel, None)
      case NoPath(_) => return Returned(InvalidState);
      case Path(path) => out := HeaderEnsureOrValidate(path, true, io.header);
    }

    /** stg_man_write */
    method Write(rel: Option<string>, data: array?<Byte>, len: nat, io: WriteIo) returns (out: Outcome)
      requires data != null ==> len <= data.Length
      modifies `fs
      ensures data == null && len != 0 ==>
        out == Returned(if lockMade then InvalidArg else InvalidState) && fs == old(fs).(log := QUIET)
      ensures (data != null || len == 0) && old(Refusal(rel)).Some? ==>
        out == Returned(old(Refusal(rel)).value) && fs == old(fs).(log := QUIET)
      ensures (data != null || len == 0) && old(Refusal(rel)).None? ==>
        var path, bytes := old(Target(rel)), if data == null then [] else data[..len];
        && Result(out, fs) == WriteFile(old(fs).(log := QUIET), path, MakeTmpAbspath(basePath), bytes, io)
        && Written(old(fs).files, path, MakeTmpAbspath(basePath), bytes, fs.log, out, fs.files)
    {
      fs := fs.(log := QUIET);
      if !lockMade {
        return Returned(InvalidState);
      }
      if data == null && len != 0 {
        return Returned(InvalidArg);
      }
      if !inited {
        return Returned(InvalidState);
      }
      match MakeAbspath(basePath, defaultRel, rel)
      case NoPath(status) => return Returned(status);
      case Path(path) =>
        out := WriteLocked(path, if data == null then [] else data[..len], io);
    }

    method WriteLocked(path: Path, payload: Bytes, io: WriteIo) returns (out: Outcome)
      requires fs.log == QUIET
      modifies `fs
      ensures Result(out, fs) == WriteFile(old(fs), path, MakeTmpAbspath(basePath), payload, io)
      ensures Written(old(fs).files, path, MakeTmpAbspath(basePath), payload, fs.log, out, fs.files)
    {
      WriteFileMeetsSpec(fs, path, MakeTmpAbspath(basePath), payload, io);
      out := HeaderEnsureOrValidate(path, true, io.header);
      if out != Returned(Ok) {
        return;
      }
      match MakeTmpAbspath(basePath)
      case NoPath(status) => return Returned(status);
      case Path(tmp) =>
        out := WriteToTmp(tmp, payload, io.tmp);
        if out == Returned(Ok) {
          out := ReplaceTarget(path, tmp, io.replace);
        }
    }

    method WriteToTmp(tmp: Path, payload: Bytes, io: TmpIo) returns (out: Outcome)
      requires fs.log.swap == NO_SWAP
      modifies `fs
      ensures Result(out, fs) == WriteTmp(old(fs), tmp, Encode(DefaultHeader(|payload|)), payload, io)
      ensures TmpPhase(old(fs).files, tmp, payload, old(fs).log, out, fs.files, fs.log)
    {
      WriteTmpMeetsSpec(fs, tmp, payload, io);
      var c := Perform(OpenForWrite(fs, tmp, io.open));
      if !c.Done? {
        return if c.Lost? then PowerLost else Returned(Fail);
      }
      out := FillTmpFile(tmp, Encode(DefaultHeader(|payload|)), payload, io);
      if out == Returned(Fail) {
        c := Perform(Remove(fs, tmp, io.remove));
        if c.Lost? {
          return PowerLost;
        }
      }
    }

    /** Header and payload into the open temporary file; the payload is written even if the header came up short. */
    method FillTmpFile(tmp: Path, header: Bytes, payload: Bytes, io: TmpIo) returns (out: Outcome)
      requires |header| == HEADER_SIZE
      modifies `fs
      ensures Result(out, fs) == FillTmp(old(fs), tmp, header, payload, io)
    {
      var (first, w1) := WriteStream(fs, tmp, header, io.header);
      var c := Perform(Ended(first.call, Noted(first.fs, w1)));
      if c.Lost? {
        return PowerLost;
      }
      var w2 := 0;
      if |payload| > 0 {
        var (second, w) := WriteStream(fs, tmp, payload, io.payload);
        w2 := w;
        c := Perform(second);
        if c.Lost? {
          return PowerLost;
        }
      }
      c := Perform(CloseOutput(fs, tmp, io.close));
      if c.Lost? {
        return PowerLost;
      }
      return Returned(if w1 != HEADER_SIZE || w2 != |payload| || c.Failed? then Fail else Ok);
    }

    /** Remove the target, then rename the temporary file to it. */
    method ReplaceTarget(path: Path, tmp: Path, io: ReplaceIo) returns (out: Outcome)
      requires fs.log.swap == NO_SWAP && path in fs.files && tmp in fs.files
      modifies `fs
      ensures Result(out, fs) == Replace(old(fs), path, tmp, io)
      ensures ReplacePhase(old(fs).files, path, tmp, old(fs).log, out, fs.files, fs.log)
    {
      ReplaceMeetsSpec(fs, path, tmp, io);
      var c := Perform(RemoveTarget(fs, path, io.remove));
      if c.Lost? {
        return PowerLost;
      }
      c := Perform(Rename(fs, tmp, path, io.rename));
      if c.Lost? {
        return PowerLost;
      }
      if c.Failed? {
        c := Perform(DropTmp(fs, tmp, io.drop));
        return if c.Lost? then PowerLost else Returned(Fail);
      }
      return Returned(Ok);
    }

    /** stg_man_read; `buf` null is a size query. The length is handed back as stored through out_len. */
    method Read(rel: Option<string>, buf: array?<Byte>, size: nat, io: ReadIo)
      returns (out: Outcome, lenOut: Option<nat>)
      requires buf != null ==> size <= buf.Length
      modifies `fs, buf
      ensures fs.files == old(fs).files
      ensures old(Refusal(rel)).Some? ==> out == Returned(old(Refusal(rel)).value) && lenOut.None?
      ensures old(Refusal(rel)).Some? && buf != null ==> buf[..] == old(buf[..])
      ensures old(Refusal(rel)).None? && buf != null ==>
        ReadRel(fs.files, Target(rel), Some(size), fs.log, out, lenOut, old(buf[..]), buf[..])
      ensures old(Refusal(rel)).None? && buf == null ==>
        ReadRel(fs.files, Target(rel), None, fs.log, out, lenOut, [], [])
    {
      fs, lenOut := fs.(log := QUIET), None;
      if !lockMade || !inited {
        return Returned(InvalidState), None;
      }
      match MakeAbspath(basePath, defaultRel, rel)
      case NoPath(status) => return Returned(status), None;
      case Path(path) => out, lenOut := ReadFrom(path, buf, size, io);
    }

    /** Open the file and read its header. */
    method ReadHeader(path: Path, io: ReadIo) returns (out: Outcome, hdr: Header)
      requires fs.log == QUIET
      modifies `fs
      ensures fs == old(fs).(log := fs.log) && out != Returned(NoMem)
      ensures out == Returned(Ok) ==>
        path in fs.files && HeaderStatus(fs.files[path]) == Ok && hdr == Decode(fs.files[path]) && fs.log == QUIET
      ensures fs.log == QUIET && !out.PowerLost? ==>
        out == Returned(if path in fs.files then HeaderStatus(fs.files[path]) else Fail)
      ensures fs.log != QUIET ==> (fs.log.shortRead || fs.log.otherFault) && (out == Returned(Fail) || out.PowerLost?)
    {
      hdr := DefaultHeader(0);
      var c := Perform(OpenForRead(fs, path, io.open));
      if !c.Done? {
        return if c.Lost? then PowerLost else Returned(Fail), hdr;
      }
      var (first, got) := ReadStream(fs, path, 0, HEADER_SIZE, io.header);
      c := Perform(first);
      if c.Lost? {
        return PowerLost, hdr;
      }
      if |got| != HEADER_SIZE {
        return Returned(Fail), hdr;
      }
      SameHeader(fs.files[path], got);
      hdr := Decode(got);
      if hdr.magic != MAGIC {
        return Returned(InvalidState), hdr;
      }
      if hdr.version != VERSION {
        return Returned(InvalidVersion), hdr;
      }
      return Returned(Ok), hdr;
    }

    method ReadFrom(path: Path, buf: array?<Byte>, size: nat, io: ReadIo)
      returns (out: Outcome, lenOut: Option<nat>)
      requires fs.log == QUIET && (buf != null ==> size <= buf.Length)
      modifies `fs, buf
      ensures fs.files == old(fs).files
      ensures buf != null ==> ReadRel(fs.files, path, Some(size), fs.log, out, lenOut, old(buf[..]), buf[..])
      ensures buf == null ==> ReadRel(fs.files, path, None, fs.log, out, lenOut, [], [])
    {
      lenOut := None;
      var hdr;
      out, hdr := ReadHeader(path, io);
      if out != Returned(Ok) {
        return;
      }
      if buf == null {
        return Returned(Ok), Some(hdr.payloadLen);
      }
      if size < hdr.payloadLen {
        return Returned(NoMem), Some(hdr.payloadLen);
      }
      out := ReadPayload(path, buf, hdr.payloadLen, io);
      return out, if out == Returned(Ok) then Some(hdr.payloadLen) else None;
    }

    method ReadPayload(path: Path, buf: array<Byte>, len: nat, io: ReadIo) returns (out: Outcome)
      requires path in fs.files && HEADER_SIZE <= |fs.files[path]| && len <= buf.Length
      modifies `fs, buf
      ensures fs == old(fs).(log := fs.log)
      ensures fs.log == old(fs).log || (fs.log == old(fs).log.(shortRead := true) && out != Returned(Ok))
      ensures buf[len..] == old(buf[len..])
      ensures forall i :: 0 <= i < buf.Length ==>
        buf[i] == old(buf[i]) || (HEADER_SIZE + i < |fs.files[path]| && buf[i] == fs.files[path][HEADER_SIZE + i])
      ensures out == Returned(Ok) || out == Returned(Fail) || out.PowerLost?
      ensures var file := fs.files[path];
        if out == Returned(Ok) then HEADER_SIZE + len <= |file| && buf[..len] == file[HEADER_SIZE..HEADER_SIZE + len]
        else out.PowerLost? || fs.log.shortRead || |file| < HEADER_SIZE + len
    {
      var payload := [];
      if len > 0 {
        var (read, bytes) := ReadStream(fs, path, HEADER_SIZE, len, io.payload);
        payload := bytes;
        var c := Perform(read);
        forall i | 0 <= i < |payload| {
          buf[i] := payload[i];
        }
        if c.Lost? {
          return PowerLost;
        }
      }
      assert buf[..|payload|] == payload;
      return Returned(if |payload| == len then Ok else Fail);
    }
  }
}
