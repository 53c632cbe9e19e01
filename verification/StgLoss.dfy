/** What can be lost, and when: each "can" is some answers of the file-system calls and what the code does with
  * them, each "only if" holds for all answers. */
module StgLoss {
  import opened LittleEndian
  import opened StgFormat
  import opened StgPath
  import opened StgSpec
  import opened StgIo
  import opened StgHistory

  function Before(f: Files): Fs {
    Fs(f, [], QUIET)
  }

  /** A write of `path` under the given answers. */
  function AfterWrite(f: Files, path: Path, tmp: Path, data: Bytes, io: WriteIo): Result {
    WriteFile(Before(f), path, PathResult.Path(tmp), data, io)
  }

  // ---------- The header pass ----------

  /** A file with a whole header survives every header pass with these misreadings if and only if there are none:
    * a denied stat can always cost the file its contents, a short read can when healing is on. (A file that is
    * denied is not read.) */
  lemma HeaderPassKeepsFileIff(f: Files, path: Path, heal: bool, denied: bool, short: bool)
    requires path in f && |f[path]| >= HEADER_SIZE && !(denied && short)
    ensures (forall io: HeaderIo :: var r := HeaderPass(Before(f), path, heal, io);
              r.fs.log.statLied == denied && r.fs.log.shortRead == short ==> SameAt(f, r.fs.files, path))
       <==> !(denied || (short && heal))
  {
    forall io: HeaderIo ensures var r := HeaderPass(Before(f), path, heal, io);
      EnsureRel(f, path, heal, r.fs.log, r.out, r.fs.files)
    {
      HeaderPassMeetsSpec(Before(f), path, heal, io);
    }
    if denied || (short && heal) {
      MisreadCostsFile(f, path, heal, denied);
    }
  }

  /** Stat or fread misinforms, and power is lost once fopen has emptied the file. */
  function Misleading(denied: bool): HeaderIo {
    HeaderIo(StatAnswer(denied, false), Works, ReadAnswer(0, false), Works,
             FillIo(Dies(true), WriteAnswer(0, 0, false), CloseAnswer(Works, 0)))
  }

  lemma MisreadCostsFile(f: Files, path: Path, heal: bool, denied: bool)
    requires path in f && |f[path]| >= HEADER_SIZE && (denied || heal)
    ensures var r := HeaderPass(Before(f), path, heal, Misleading(denied));
      r.fs.files == f[path := []] && r.fs.log == QUIET.(statLied := denied, shortRead := !denied)
  {
    var (stat, found) := StatFile(Before(f), path, StatAnswer(denied, false));
    assert stat.fs == Before(f).(log := QUIET.(statLied := denied)) && found == !denied;
  }

  // ---------- A write ----------

  /** Every call works and takes up to `n` bytes, up to the replacement. */
  function Working(n: nat, replace: ReplaceIo): WriteIo {
    var all := WriteAnswer(n, n, false);
    WriteIo(HeaderIo(StatAnswer(false, false), Works, ReadAnswer(n, false), Works,
                     FillIo(Works, all, CloseAnswer(Works, 0))),
            TmpIo(Works, all, all, CloseAnswer(Works, 0), Works), replace)
  }

  lemma FillWorks(fs: Fs, path: Path, data: Bytes, n: nat)
    requires n >= |data|
    ensures FillFile(fs, path, data, Working(n, ReplaceIo(Works, Works, Works)).header.fill)
         == Result(Returned(Ok), Fs(fs.files[path := data], data, fs.log))
  {
    assert data[..|data|] == data && [] + data == data;
    assert fs.files[path := []][path := data] == fs.files[path := data];
  }

  lemma HeaderPassWorks(f: Files, path: Path, n: nat, replace: ReplaceIo)
    requires path in f && Writable(f, path) && n >= HEADER_SIZE
    ensures var r := HeaderPass(Before(f), path, true, Working(n, replace).header);
      && r.out == Returned(Ok) && r.fs.log == QUIET
      && r.fs.files == if |f[path]| < HEADER_SIZE then f[path := EmptyFile()] else f
  {
    var file := f[path];
    if |file| < HEADER_SIZE {
      FillWorks(Before(f), path, EmptyFile(), n);
    } else {
      SameHeader(file, file[..HEADER_SIZE]);
      assert file[0..0 + HEADER_SIZE] == file[..HEADER_SIZE];
    }
  }

  /** The temporary file when its header is taken up to `taken` bytes and everything else works. */
  function Tearing(n: nat, taken: HeaderLen, remove: Answer): TmpIo {
    TmpIo(Works, WriteAnswer(taken, n, false), WriteAnswer(n, n, false), CloseAnswer(Works, 0), remove)
  }

  lemma TearingFills(fs: Fs, tmp: Path, header: Bytes, data: Bytes, n: nat, taken: HeaderLen, remove: Answer)
    requires |header| == HEADER_SIZE && n >= |data| && fs.stream == [] && fs.log == QUIET
    ensures var r := FillTmp(fs, tmp, header, data, Tearing(n, taken, remove));
      && r.out == Returned(if taken < HEADER_SIZE then Fail else Ok)
      && r.fs.files == fs.files[tmp := header[..taken] + data]
      && r.fs.log == QUIET.(otherFault := taken < HEADER_SIZE, swap := NO_SWAP.(headerTaken := taken))
  {
    var io := Tearing(n, taken, remove);
    var (first, w) := WriteStream(fs, tmp, header, io.header);
    assert w == taken && first.call.Done? && first.fs.stream == header[..taken] && first.fs.files == fs.files;
    var noted := Noted(first.fs, w);
    RestWorks(noted, tmp, data, n, io);
  }

  lemma RestWorks(fs: Fs, tmp: Path, data: Bytes, n: nat, io: TmpIo)
    requires n >= |data| && io.payload == WriteAnswer(n, n, false) && io.close == CloseAnswer(Works, 0)
    ensures FillRest(fs, tmp, data, io)
         == Result(Returned(Ok), Fs(fs.files[tmp := fs.stream + data], fs.stream + data, fs.log))
  {
    assert data[..|data|] == data;
    if data == [] {
      assert fs.stream + data == fs.stream;
    }
  }

  lemma TmpWorks(fs: Fs, tmp: Path, header: Bytes, data: Bytes, n: nat, replace: ReplaceIo)
    requires |header| == HEADER_SIZE && n >= |data| + HEADER_SIZE && fs.log == QUIET
    ensures var r := WriteTmp(fs, tmp, header, data, Working(n, replace).tmp);
      r.out == Returned(Ok) && r.fs.files == fs.files[tmp := header + data] && r.fs.log == QUIET
  {
    var begun := OpenForWrite(fs, tmp, Works);
    var io := Working(n, replace).tmp;
    assert header[..HEADER_SIZE] == header && [] + header == header;
    var (first, w) := WriteStream(begun.fs, tmp, header, io.header);
    assert first.fs.stream == header && w == HEADER_SIZE && first.fs.log == QUIET && first.call.Done?;
    RestWorks(Noted(first.fs, w), tmp, data, n, io);
    assert fs.files[tmp := []][tmp := header + data] == fs.files[tmp := header + data];
  }

  /** So a write whose calls work up to there comes to the replacement with the new file under both names. */
  lemma ReachesReplace(f: Files, path: Path, tmp: Path, data: Bytes, n: nat, replace: ReplaceIo)
    returns (fs: Fs)
    requires path in f && path != tmp && Writable(f, path) && n >= |data| + HEADER_SIZE
    ensures AfterWrite(f, path, tmp, data, Working(n, replace)) == Replace(fs, path, tmp, replace)
    ensures fs.log == QUIET && path in fs.files && tmp in fs.files
  {
    HeaderPassWorks(f, path, n, replace);
    var g := HeaderPass(Before(f), path, true, Working(n, replace).header).fs;
    var header := Encode(DefaultHeader(|data|));
    TmpWorks(g, tmp, header, data, n, replace);
    fs := WriteTmp(g, tmp, header, data, Working(n, replace).tmp).fs;
  }

  lemma WriteMeetsRel(f: Files, path: Path, tmp: Path, data: Bytes)
    requires path != tmp
    ensures forall io: WriteIo :: var r := AfterWrite(f, path, tmp, data, io);
      WriteRel(f, path, tmp, data, r.fs.log, r.out, r.fs.files)
  {
    forall io: WriteIo ensures var r := AfterWrite(f, path, tmp, data, io);
      WriteRel(f, path, tmp, data, r.fs.log, r.out, r.fs.files)
    {
      WriteFileMeetsSpec(Before(f), path, PathResult.Path(tmp), data, io);
    }
  }

  /** A write can lose an existing target exactly when it is not turned down for its header: then losing power
    * between the removal and the rename is enough, with nothing misread and no call failing. */
  lemma WriteCanLoseTargetIff(f: Files, path: Path, tmp: Path, data: Bytes)
    requires path in f && path != tmp
    ensures (exists io: WriteIo :: var r := AfterWrite(f, path, tmp, data, io);
              !r.fs.log.Misread() && !r.fs.log.otherFault && path !in r.fs.files)
       <==> Writable(f, path)
  {
    WriteMeetsRel(f, path, tmp, data);
    if Writable(f, path) {
      var n, replace := |data| + HEADER_SIZE, ReplaceIo(Works, Dies(false), Works);
      var fs := ReachesReplace(f, path, tmp, data, n, replace);
      CutBeforeRename(fs, path, tmp);
      var r := AfterWrite(f, path, tmp, data, Working(n, replace));
      assert !r.fs.log.Misread() && !r.fs.log.otherFault && path !in r.fs.files;
    }
  }

  lemma CutBeforeRename(fs: Fs, path: Path, tmp: Path)
    requires fs.log == QUIET && path in fs.files && tmp in fs.files && path != tmp
    ensures var r := Replace(fs, path, tmp, ReplaceIo(Works, Dies(false), Works));
      !r.fs.log.Misread() && !r.fs.log.otherFault && path !in r.fs.files && tmp in r.fs.files
  {
  }

  /** It can lose both copies under the same condition: the rename fails after the removal, and the temporary
    * file is removed then. */
  lemma WriteCanLoseBothIff(f: Files, path: Path, tmp: Path, data: Bytes)
    requires path in f && path != tmp
    ensures (exists io: WriteIo :: var r := AfterWrite(f, path, tmp, data, io);
              !r.fs.log.Misread() && path !in r.fs.files && tmp !in r.fs.files)
       <==> Writable(f, path)
  {
    WriteMeetsRel(f, path, tmp, data);
    if Writable(f, path) {
      var n, replace := |data| + HEADER_SIZE, ReplaceIo(Works, Fails, Works);
      var fs := ReachesReplace(f, path, tmp, data, n, replace);
      RenameFails(fs, path, tmp);
      var r := AfterWrite(f, path, tmp, data, Working(n, replace));
      assert !r.fs.log.Misread() && path !in r.fs.files && tmp !in r.fs.files;
    }
  }

  lemma RenameFails(fs: Fs, path: Path, tmp: Path)
    requires fs.log == QUIET && path in fs.files && tmp in fs.files && path != tmp
    ensures var r := Replace(fs, path, tmp, ReplaceIo(Works, Fails, Works));
      !r.fs.log.Misread() && path !in r.fs.files && tmp !in r.fs.files
  {
    RemoveTargetOutcome(fs, path, Works);
    var removed := RemoveTarget(fs, path, Works);
    RenameOutcome(removed.fs, tmp, path, Fails);
  }

  // ---------- The temporary file ----------

  /** However much of its header is taken, the temporary file is a beginning of the new file: exactly for an
    * empty payload. */
  lemma TornIsPrefixIff(data: Bytes)
    ensures (forall taken: HeaderLen :: TornFrame(data, taken) <= FileOf(data)) <==> data == []
  {
    var header := Encode(DefaultHeader(|data|));
    if data != [] {
      var taken := TornAt(data);
      assert !(TornFrame(data, taken) <= FileOf(data));
    } else {
      forall taken: HeaderLen ensures TornFrame(data, taken) <= FileOf(data) {
        assert TornFrame(data, taken) == header[..taken];
      }
    }
  }

  /** A length at which it is not: a payload cannot match the header's first byte and its last. */
  lemma TornAt(data: Bytes) returns (taken: HeaderLen)
    requires data != []
    ensures taken < HEADER_SIZE && !(TornFrame(data, taken) <= FileOf(data))
  {
    var header := Encode(DefaultHeader(|data|));
    EndsOfHeader(|data|);
    taken := if data[0] == 0 then 0 else 15;
    assert TornFrame(data, taken)[taken] == data[0] && FileOf(data)[taken] == header[taken];
  }

  lemma EndsOfHeader(n: nat)
    ensures Encode(DefaultHeader(n))[0] == 0x4C && Encode(DefaultHeader(n))[15] == 0
  {
  }

  /** A write can leave such a temporary file behind exactly when it is not turned down and has a payload. */
  lemma WriteCanTearTmpIff(f: Files, path: Path, tmp: Path, data: Bytes)
    requires path in f && path != tmp
    ensures (exists io: WriteIo :: var r := AfterWrite(f, path, tmp, data, io);
              && !r.fs.log.Misread() && tmp in r.fs.files
              && r.fs.files[tmp] == TornFrame(data, r.fs.log.swap.headerTaken)
              && !(r.fs.files[tmp] <= FileOf(data)))
       <==> Writable(f, path) && data != []
  {
    WriteMeetsRel(f, path, tmp, data);
    TornIsPrefixIff(data);
    assert TornFrame(data, HEADER_SIZE) == FileOf(data);
    if Writable(f, path) && data != [] {
      var taken := TornAt(data);
      var io := TearsTmp(f, path, tmp, data, taken);
      var r := AfterWrite(f, path, tmp, data, io);
      assert r.fs.files[tmp] == TornFrame(data, taken);
    }
  }

  lemma TearsTmp(f: Files, path: Path, tmp: Path, data: Bytes, taken: HeaderLen) returns (io: WriteIo)
    requires path in f && path != tmp && Writable(f, path) && taken < HEADER_SIZE
    ensures var r := AfterWrite(f, path, tmp, data, io);
      && r.out.PowerLost? && !r.fs.log.Misread() && r.fs.log.swap.headerTaken == taken
      && tmp in r.fs.files && r.fs.files[tmp] == TornFrame(data, taken)
  {
    var n := |data| + HEADER_SIZE;
    io := Working(n, ReplaceIo(Works, Works, Works)).(tmp := Tearing(n, taken, Dies(false)));
    HeaderPassWorks(f, path, n, io.replace);
    var g := HeaderPass(Before(f), path, true, io.header).fs;
    TearingFills(OpenForWrite(g, tmp, Works).fs, tmp, Encode(DefaultHeader(|data|)), data, n, taken, Dies(false));
  }
}
