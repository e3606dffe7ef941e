/** com.kesoftware.imu.TempInputStream: a FileInputStream over a temporary
    file that owns the file and deletes it when the stream is closed, or when
    the stream is finalised without having been closed. The file system is
    the set of existing paths plus the log of every delete call; the garbage
    collector's call to `finalize` is an explicit event. */
module TempFiles {
  import opened Values
  import opened IMuErrors

  /** The file system as far as these streams see it. */
  datatype Disk = Disk(files: set<string>, deleted: seq<string>)

  /** `File.delete`: the path is gone afterwards and the call is logged. */
  function DeleteFile(d: Disk, path: string): Disk
  {
    Disk(d.files - {path}, d.deleted + [path])
  }

  /** A stream's fields: `_file` (None once `close` has cleared it) and
      whether the underlying FileInputStream is still open. */
  datatype Temp = Temp(file: Option<string>, open: bool)

  /** What one call leaves: the stream, the file system and whether the call
      returned or threw. */
  datatype Step = Step(temp: Temp, disk: Disk, outcome: Outcome)

  /** The state the constructor leaves. */
  function Opened(path: string): Temp
  {
    Temp(Some(path), true)
  }

  /** `close`: the stream is closed (again, harmlessly, on a second call),
      then the file is deleted through the reference, which is cleared. */
  function OnClose(t: Temp, d: Disk): Step
  {
    if t.file.None? then Step(t.(open := false), d, Fail(NullPointer()))
    else Step(Temp(None, false), DeleteFile(d, t.file.value), Pass)
  }

  /** `finalize`: deletes the file only while the reference is still set;
      the reference itself is left as it was. */
  function OnFinalize(t: Temp, d: Disk): Step
  {
    if t.file.Some? then Step(t, DeleteFile(d, t.file.value), Pass)
    else Step(t, d, Pass)
  }

  datatype Event = Close | Finalize

  /** A sequence of calls on one stream; a call that throws does not stop
      the later ones (the finaliser's exceptions are ignored, and a caller
      may catch the one `close` throws). */
  function Run(t: Temp, d: Disk, es: seq<Event>): Step
    decreases |es|
  {
    if es == [] then Step(t, d, Pass)
    else
      var s := if es[0].Close? then OnClose(t, d) else OnFinalize(t, d);
      Run(s.temp, s.disk, es[1..])
  }

  /** The file system object every stream deletes through. */
  class FileSystem {
    var files: set<string>
    var deleted: seq<string>

    function Contents(): Disk
      reads this
    {
      Disk(files, deleted)
    }

    constructor (files: set<string>)
      ensures Contents() == Disk(files, [])
    {
      this.files := files;
      deleted := [];
    }

    /** `File.delete`. */
    method Delete(path: string)
      modifies this
      ensures Contents() == DeleteFile(old(Contents()), path)
    {
      files := files - {path};
      deleted := deleted + [path];
    }
  }

  class TempInputStream {
    const fs: FileSystem
    var file: Option<string>
    var open: bool

    function State(): Temp
      reads this
    {
      Temp(file, open)
    }

    /** The stream over `path` once `super(file)` has opened it. */
    constructor (fs: FileSystem, path: string)
      ensures this.fs == fs && State() == Opened(path)
    {
      this.fs := fs;
      file := Some(path);
      open := true;
    }

    method Close() returns (o: Outcome)
      modifies this, fs
      ensures Step(State(), fs.Contents(), o) == OnClose(old(State()), old(fs.Contents()))
    {
      open := false;
      if file.None? {
        return Fail(NullPointer());
      }
      fs.Delete(file.value);
      file := None;
      o := Pass;
    }

    method Finalize() returns (o: Outcome)
      modifies fs
      ensures Step(State(), fs.Contents(), o) == OnFinalize(old(State()), old(fs.Contents()))
    {
      if file.Some? {
        fs.Delete(file.value);
      }
      o := Pass;
    }
  }

  /** `new TempInputStream(file)`: FileInputStream's constructor throws
      FileNotFoundException when the file does not exist. */
  method Open(fs: FileSystem, path: string) returns (t: TempInputStream?, o: Outcome)
    ensures o.Pass? <==> path in fs.files
    ensures o.Pass? ==> t != null && fresh(t) && t.fs == fs && t.State() == Opened(path)
    ensures o.Fail? ==> o.error == Runtime("java.io.FileNotFoundException", path)
  {
    if path !in fs.files {
      return null, Fail(Runtime("java.io.FileNotFoundException", path));
    }
    t := new TempInputStream(fs, path);
    o := Pass;
  }

  // ---------------------------------------------------------------------
  // Properties

  /** `close` deletes the stream's file, clears the reference and closes the
      stream; a second `close` dereferences the cleared reference and fails,
      deleting nothing. */
  lemma CloseNotIdempotent(path: string, d: Disk)
    ensures var first := OnClose(Opened(path), d);
      && first == Step(Temp(None, false), DeleteFile(d, path), Pass)
      && OnClose(first.temp, first.disk) == Step(first.temp, first.disk, Fail(NullPointer()))
  {
  }

  /** Once `close` has cleared the reference, no later close or finalize
      deletes anything, and the reference stays cleared. */
  lemma {:induction false} NothingAfterClose(t: Temp, d: Disk, es: seq<Event>)
    requires t.file.None?
    ensures Run(t, d, es).disk == d
    ensures Run(t, d, es).temp.file.None?
    decreases |es|
  {
    if es != [] {
      var s := if es[0].Close? then OnClose(t, d) else OnFinalize(t, d);
      NothingAfterClose(s.temp, s.disk, es[1..]);
    }
  }

  /** Closing and then finalising a stream, or anything else after the
      close, deletes its file exactly once. */
  lemma CloseDeletesOnce(path: string, d: Disk, es: seq<Event>)
    ensures Run(Opened(path), d, [Close] + es).disk.deleted == d.deleted + [path]
    ensures path !in Run(Opened(path), d, [Close] + es).disk.files
  {
    var s := OnClose(Opened(path), d);
    assert ([Close] + es)[1..] == es;
    NothingAfterClose(s.temp, s.disk, es);
  }

  /** A stream finalised without being closed deletes its file. */
  lemma FinalizeDeletesUnclosed(path: string, d: Disk)
    ensures Run(Opened(path), d, [Finalize]).disk == DeleteFile(d, path)
    ensures Run(Opened(path), d, [Finalize]).outcome == Pass
  {
  }
}
