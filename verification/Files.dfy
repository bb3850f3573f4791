/** Files as one process reads and writes them. */
module Files {
  import opened Wrappers
  import opened AtomicWrite

  class FileSystem {
    var files: map<Path, string>
    /** Every path an attempt was made to write, oldest first. */
    var attempts: seq<Path>
    /** How often the disk has refused to read or write. */
    var faults: nat
    const pid: Pid

    constructor (files: map<Path, string>, pid: Pid)
      ensures this.files == files && attempts == [] && faults == 0 && this.pid == pid
    {
      this.files, attempts, faults, this.pid := files, [], 0, pid;
    }

    ghost function Content(path: Path): Option<string>
      reads this
    {
      if path in files then Some(files[path]) else None
    }

    /** A missing file is an answer; any other failure to read is an error. */
    method ReadOptional(path: Path) returns (r: Result<Option<string>, ()>)
      modifies this`faults
      ensures r.Ok? ==> r.value == Content(path)
      ensures r.Err? ==> path in files
      ensures faults == old(faults) + if r.Ok? then 0 else 1
    {
      if path !in files {
        return Ok(None);
      }
      var readable: bool := *;
      if !readable {
        faults := faults + 1;
        return Err(());
      }
      return Ok(Some(files[path]));
    }

    /** Write to a temporary file, then rename. Each step may fail, and then the file is as it was;
        only the temporary file may be left behind. */
    method WriteAtomically(path: Path, contents: string) returns (r: Result<(), ()>)
      modifies this
      ensures attempts == old(attempts) + [path]
      ensures faults == old(faults) + if r.Ok? then 0 else 1
      ensures r.Ok? ==> files == (old(files) - {TmpPath(path, pid)})[path := contents]
      ensures r.Err? ==> files - {TmpPath(path, pid)} == old(files) - {TmpPath(path, pid)}
      ensures Content(path) == if r.Ok? then Some(contents) else old(Content(path))
      ensures forall p :: p != path && p != TmpPath(path, pid) ==> Content(p) == old(Content(p))
    {
      TmpPathsApart(path, path, pid, pid);
      attempts := attempts + [path];
      var prepared: bool := *;
      if !prepared {
        faults := faults + 1;
        return Err(());
      }

      var tmp := TmpPath(path, pid);
      var written: nat :| written <= |contents|;
      files := files[tmp := contents[..written]];
      if written < |contents| {
        faults := faults + 1;
        return Err(());
      }

      var renamed: bool := *;
      if !renamed {
        files, faults := files - {tmp}, faults + 1;
        return Err(());
      }
      assert contents[..written] == contents;
      files := (files - {tmp})[path := files[tmp]];
      return Ok(());
    }

    /** Leaves a file alone that already has the content; says whether it did not. */
    method WriteIfChanged(path: Path, contents: string) returns (r: Result<bool, ()>)
      modifies this
      ensures r.Ok? ==>
                && r.value == (old(Content(path)) != Some(contents))
                && Content(path) == Some(contents)
                && files == (if r.value then (old(files) - {TmpPath(path, pid)})[path := contents] else old(files))
                && attempts == old(attempts) + (if r.value then [path] else [])
      ensures faults == old(faults) + if r.Ok? then 0 else 1
      ensures r.Err? ==> files - {TmpPath(path, pid)} == old(files) - {TmpPath(path, pid)}
      ensures r.Err? ==> Content(path) == old(Content(path))
      ensures forall p :: p != path && p != TmpPath(path, pid) ==> Content(p) == old(Content(p))
    {
      var existing := ReadOptional(path);
      if existing.Err? {
        return Err(());
      }
      if existing.value == Some(contents) {
        return Ok(false);
      }
      var wrote := WriteAtomically(path, contents);
      return if wrote.Ok? then Ok(true) else Err(());
    }
  }
}
