/** A volume and the managers that use it from one power-up to the next: the runs of StgHistory are what the
  * methods of the storage manager do. */
module StgSession {
  import opened Common
  import opened LittleEndian
  import opened StgFormat
  import opened StgPath
  import opened StgSpec
  import opened StgIo
  import opened StgMan
  import opened StgHistory

  class Session {
    const base: string
    const defaultRel: string
    var manager: StorageManager
    ghost const f0: Files
    ghost var run: seq<Entry>    // every operation carried out so far

    ghost function Tmp(): Path {
      Join(base, TMP_NAME)
    }

    ghost function Default(): Path {
      Join(base, defaultRel)
    }

    ghost predicate Valid()
      reads this, manager
    {
      && MakeTmpAbspath(base) == Path(Tmp()) && MakeAbspath(base, defaultRel, None) == Path(Default())
      && (manager.inited ==> manager.lockMade && manager.basePath == base && manager.defaultRel == defaultRel)
      && Run(Tmp(), Default(), f0, run) && FilesAfter(f0, run) == manager.fs.files
    }

    constructor (base: string, defaultRel: string, files: Files)
      requires MakeTmpAbspath(base).Path? && MakeAbspath(base, defaultRel, None).Path?
      ensures Valid() && fresh(manager) && f0 == files && run == []
      ensures this.base == base && this.defaultRel == defaultRel
    {
      this.base, this.defaultRel, f0, run := base, defaultRel, files, [];
      manager := new StorageManager(files);
    }

    /** After a power loss only the volume is left. */
    method PowerUp()
      requires Valid()
      modifies this`manager
      ensures Valid() && fresh(manager) && !manager.inited && manager.fs.files == old(manager.fs.files)
    {
      manager := new StorageManager(manager.fs.files);
    }

    method Mount(formatIfMountFails: bool, io: MountIo) returns (st: Status, ghost wiped: bool)
      requires Valid()
      modifies this`run, manager
      ensures Valid() && (st == Ok ==> manager.inited && manager.lockMade)
      ensures wiped ==> formatIfMountFails
      ensures run == old(run) + [Entry(MountOp(wiped), QUIET, Returned(st), manager.fs.files)]
    {
      ghost var before := manager.fs.files;
      st := manager.Init(base, defaultRel, formatIfMountFails, io);
      wiped := manager.fs.files != before;
      Record(Entry(MountOp(wiped), QUIET, Returned(st), manager.fs.files));
    }

    /** An operation that has happened extends the run. */
    ghost method Record(e: Entry)
      requires Run(Tmp(), Default(), f0, run) && Happens(Tmp(), Default(), FilesAfter(f0, run), e)
      modifies this`run
      ensures Run(Tmp(), Default(), f0, run) && FilesAfter(f0, run) == e.files && run == old(run) + [e]
    {
      assert (run + [e])[..|run|] == run;
      run := run + [e];
    }

    method Write(rel: Option<string>, data: array?<Byte>, len: nat, io: WriteIo) returns (out: Outcome)
      requires Valid() && (data != null ==> len <= data.Length)
      modifies this`run, manager
      ensures Valid()
      ensures (data == null && len != 0) || old(manager.Refusal(rel)).Some? ==>
        run == old(run) && manager.fs.files == old(manager.fs).files && out.Returned? && out != Returned(Ok)
      ensures (data != null || len == 0) && old(manager.Refusal(rel)).None? ==>
        var op := WriteOp(old(manager.Target(rel)), if data == null then [] else data[..len]);
        run == old(run) + [Entry(op, manager.fs.log, out, manager.fs.files)]
    {
      ghost var refused := (data == null && len != 0) || manager.Refusal(rel).Some?;
      ghost var path := if refused then "" else manager.Target(rel);
      out := manager.Write(rel, data, len, io);
      if !refused {
        Record(Entry(WriteOp(path, if data == null then [] else data[..len]), manager.fs.log, out, manager.fs.files));
      }
    }

    method Check(rel: Option<string>, io: HeaderIo) returns (out: Outcome)
      requires Valid()
      modifies this`run, manager
      ensures Valid()
      ensures old(manager.Refusal(rel)).Some? ==>
        run == old(run) && manager.fs.files == old(manager.fs).files && out.Returned? && out != Returned(Ok)
      ensures old(manager.Refusal(rel)).None? ==>
        run == old(run) + [Entry(CheckOp(old(manager.Target(rel))), manager.fs.log, out, manager.fs.files)]
    {
      ghost var refused := manager.Refusal(rel).Some?;
      ghost var path := if refused then "" else manager.Target(rel);
      out := manager.Check(rel, io);
      if !refused {
        Record(Entry(CheckOp(path), manager.fs.log, out, manager.fs.files));
      }
    }

    method Format(io: FormatIo) returns (out: Outcome)
      requires Valid()
      modifies this`run, manager
      ensures Valid()
      ensures old(manager.Refusal(None)).Some? ==>
        run == old(run) && manager.fs.files == old(manager.fs).files && out == Returned(InvalidState)
      ensures old(manager.Refusal(None)).None? ==>
        run == old(run) + [Entry(FormatOp, manager.fs.log, out, manager.fs.files)]
    {
      ghost var refused := manager.Refusal(None).Some?;
      out := manager.Format(io);
      if !refused {
        Record(Entry(FormatOp, manager.fs.log, out, manager.fs.files));
      }
    }

    /** Whatever was done to the volume before, through however many power losses: a successful read returns the
      * payload of the file last committed under the path, or nothing. */
    method Read(rel: Option<string>, buf: array<Byte>, size: nat, io: ReadIo)
      returns (out: Outcome, lenOut: Option<nat>)
      requires Valid() && size <= buf.Length
      modifies manager, buf
      ensures Valid() && run == old(run)
      ensures out == Returned(Ok) ==>
        var path, last := Join(base, if rel.Some? then rel.value else defaultRel), LastCommitted(Tmp(), f0, run);
        path != Tmp() ==>
          && lenOut.Some? && lenOut.value <= buf.Length
          && (lenOut.value == 0 || (path in last && ReadBack(last[path]) == Good(buf[..lenOut.value])))
    {
      ghost var before := buf[..];
      ghost var refused := manager.Refusal(rel).Some?;
      out, lenOut := manager.Read(rel, buf, size, io);
      if out == Returned(Ok) && !refused {
        ghost var path := manager.Target(rel);
        if path != Tmp() {
          ReadIntegrity(Tmp(), Default(), f0, run, path, size, manager.fs.log, lenOut, before, buf[..]);
          assert buf[..][..lenOut.value] == buf[..lenOut.value];
        }
      }
    }
  }
}
