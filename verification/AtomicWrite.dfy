/** Write-to-temp-then-rename, step by step, by any number of processes at once. */
module AtomicWrite {
  import opened Wrappers
  import opened Text
  import opened Numerals

  type Path = string
  type Pid = nat

  /** One past the last `c` in a text, or zero. */
  function AfterLast(s: string, c: char): (i: nat)
    ensures i <= |s|
    ensures i > 0 ==> s[i - 1] == c
    ensures forall j :: i <= j < |s| ==> s[j] != c
  {
    if s == "" then 0
    else if s[|s| - 1] == c then |s|
    else AfterLast(s[..|s| - 1], c)
  }

  /** A path without its extension. A dot that begins the file name begins no extension. */
  function WithoutExtension(path: Path): Path {
    var name, dot := AfterLast(path, '/'), AfterLast(path, '.');
    if dot > name + 1 then path[..dot - 1] else path
  }

  /** Where process `pid` prepares the next content of `path`. */
  function TmpPath(path: Path, pid: Pid): Path {
    WithoutExtension(path) + ".tmp." + ToDecimal(pid)
  }

  lemma AfterLastIs(s: string, c: char, i: nat)
    requires i <= |s| && (i > 0 ==> s[i - 1] == c)
    requires forall j :: i <= j < |s| ==> s[j] != c
    ensures AfterLast(s, c) == i
  {
  }

  lemma ExtensionComesOff(dir: Path, stem: string, extension: string)
    requires dir == "" || dir[|dir| - 1] == '/'
    requires stem != "" && '/' !in stem && '/' !in extension && '.' !in extension
    ensures WithoutExtension(dir + stem + "." + extension) == dir + stem
  {
    var path := dir + stem + "." + extension;
    AfterLastIs(path, '/', |dir|);
    AfterLastIs(path, '.', |dir| + |stem| + 1);
    assert path[..|dir| + |stem|] == dir + stem;
  }

  /** A dot that begins the file name, or stands in a directory, begins no extension. */
  lemma PlainHasNoExtension(dir: Path, stem: string)
    requires dir == "" || dir[|dir| - 1] == '/'
    requires stem != "" && '/' !in stem && '.' !in stem[1..]
    ensures WithoutExtension(dir + stem) == dir + stem
  {
    var path := dir + stem;
    AfterLastIs(path, '/', |dir|);
    assert forall j :: |dir| + 1 <= j < |path| ==> path[j] == stem[1..][j - |dir| - 1];
  }

  /** A file is prepared beside itself, in the same directory, so that a rename can put it in place: its
      extension, if it has one, is replaced by "tmp" and the number of the process. */
  lemma TmpPathIsBeside(dir: Path, stem: string, extension: string, pid: Pid)
    requires dir == "" || dir[|dir| - 1] == '/'
    requires stem != "" && '/' !in stem && '/' !in extension && '.' !in extension
    ensures TmpPath(dir + stem + "." + extension, pid) == dir + stem + ".tmp." + ToDecimal(pid)
    ensures '.' !in stem[1..] ==> TmpPath(dir + stem, pid) == dir + stem + ".tmp." + ToDecimal(pid)
  {
    ExtensionComesOff(dir, stem, extension);
    if '.' !in stem[1..] {
      PlainHasNoExtension(dir, stem);
    }
  }

  lemma TmpPathEnds(path: Path, pid: Pid)
    ensures AfterLast(TmpPath(path, pid), '.') == |WithoutExtension(path)| + 5
    ensures TmpPath(path, pid)[|WithoutExtension(path)| + 5..] == ToDecimal(pid)
  {
    var tmp, dot := TmpPath(path, pid), |WithoutExtension(path)| + 5;
    PrintedValue(pid);
    assert tmp[dot - 1] == '.';
    assert tmp[dot..] == ToDecimal(pid);
    forall j | dot <= j < |tmp|
      ensures tmp[j] != '.'
    {
      assert tmp[j] == ToDecimal(pid)[j - dot];
    }
  }

  /** No path is its own temporary path, and no two processes share a temporary path. */
  lemma TmpPathsApart(p: Path, q: Path, i: Pid, j: Pid)
    ensures TmpPath(p, i) != p
    ensures i != j ==> TmpPath(p, i) != TmpPath(q, j)
  {
    TmpPathEnds(p, i);
    TmpPathEnds(q, j);
    if TmpPath(p, i) == TmpPath(q, j) {
      DifferentNumbersPrintDifferently(i, j);
    }
  }

  /** A write in progress: so many characters of the content are in the temporary file. */
  datatype Job = Job(target: Path, contents: string, done: nat)

  datatype Commit = Commit(target: Path, contents: string)

  /** `jobs` are the processes in the middle of a write. `requested` is everything ever passed to a
      write, and `commits` the renames that succeeded, in order. */
  datatype Disk = Disk(files: map<Path, string>, jobs: map<Pid, Job>, requested: seq<Commit>, commits: seq<Commit>)

  datatype Step =
    | Begin(pid: Pid, target: Path, contents: string)
    | Extend(pid: Pid, more: nat)
    | Rename(pid: Pid)
    | RenameFails(pid: Pid)
    | Crash(pid: Pid)  // or an error while writing: the temporary file stays as it is

  predicate Enabled(d: Disk, step: Step) {
    match step
    case Begin(pid, _, _) => pid !in d.jobs
    case Extend(pid, more) => pid in d.jobs && d.jobs[pid].done + more <= |d.jobs[pid].contents|
    case Rename(pid) =>
      && pid in d.jobs && d.jobs[pid].done == |d.jobs[pid].contents|
      && TmpPath(d.jobs[pid].target, pid) in d.files
    case RenameFails(pid) => pid in d.jobs && d.jobs[pid].done == |d.jobs[pid].contents|
    case Crash(pid) => pid in d.jobs
  }

  function Apply(d: Disk, step: Step): Disk
    requires Enabled(d, step)
  {
    match step
    case Begin(pid, target, contents) =>
      d.(files := d.files[TmpPath(target, pid) := ""],
         jobs := d.jobs[pid := Job(target, contents, 0)],
         requested := d.requested + [Commit(target, contents)])
    case Extend(pid, more) =>
      var job := d.jobs[pid];
      d.(files := d.files[TmpPath(job.target, pid) := job.contents[..job.done + more]],
         jobs := d.jobs[pid := job.(done := job.done + more)])
    case Rename(pid) =>
      var job := d.jobs[pid];
      var tmp := TmpPath(job.target, pid);
      d.(files := (d.files - {tmp})[job.target := d.files[tmp]],
         jobs := d.jobs - {pid},
         commits := d.commits + [Commit(job.target, job.contents)])
    case RenameFails(pid) =>
      d.(files := d.files - {TmpPath(d.jobs[pid].target, pid)}, jobs := d.jobs - {pid})
    case Crash(pid) => d.(jobs := d.jobs - {pid})
  }

  /** One write that nothing interrupts: the target has the content, the temporary file is gone, and
      nothing else has changed. */
  lemma UninterruptedWrite(d: Disk, pid: Pid, target: Path, contents: string)
    requires pid !in d.jobs
    ensures var begun := Apply(d, Begin(pid, target, contents));
            && Enabled(begun, Extend(pid, |contents|))
            && var written := Apply(begun, Extend(pid, |contents|));
            && Enabled(written, Rename(pid))
            && var renamed := Apply(written, Rename(pid));
            && renamed.files == (d.files - {TmpPath(target, pid)})[target := contents]
            && renamed.jobs == d.jobs
            && renamed.commits == d.commits + [Commit(target, contents)]
  {
    assert contents[..|contents|] == contents;
  }

  /** These files are only ever written to, and none of them is where another is prepared. */
  ghost predicate NoTarget(targets: set<Path>) {
    forall p, q, pid: Pid :: p in targets && q in targets ==> TmpPath(p, pid) != q
  }

  /** Whether a write to `p`, by whatever process, is prepared at `q`: what can be read off `q`. */
  predicate Prepares(p: Path, q: Path) {
    var stem := WithoutExtension(p) + ".tmp.";
    stem <= q && IsPrinted(q[|stem|..])
  }

  /** That is what it is to be a temporary path. */
  lemma PreparesIsTmpPath(p: Path, q: Path)
    ensures Prepares(p, q) <==> exists pid: Pid :: TmpPath(p, pid) == q
  {
    var stem := WithoutExtension(p) + ".tmp.";
    if Prepares(p, q) {
      var n := DecimalValue(q[|stem|..]);
      PrintUndoesRead(q[|stem|..]);
      assert q == stem + q[|stem|..];
      assert TmpPath(p, n) == q;
    }
    if pid: Pid :| TmpPath(p, pid) == q {
      PrintedIsPrinted(pid);
      assert q[|stem|..] == ToDecimal(pid);
    }
  }

  predicate EndsInDigit(path: Path) {
    path != "" && IsDigit(path[|path| - 1])
  }

  /** A temporary path always ends in the digits of a process number. */
  lemma TmpPathEndsInDigit(path: Path, pid: Pid)
    ensures EndsInDigit(TmpPath(path, pid))
  {
    PrintedValue(pid);
    var tmp, n := TmpPath(path, pid), ToDecimal(pid);
    assert tmp[|tmp| - 1] == n[|n| - 1];
  }

  ghost predicate Fits(targets: set<Path>, step: Step) {
    step.Begin? ==> step.target in targets
  }

  /** Any interleaving of any processes' steps on these files, from any files on the disk. */
  ghost predicate Interleaving(targets: set<Path>, disks: seq<Disk>, steps: seq<Step>) {
    && |disks| == |steps| + 1
    && disks[0].jobs == map[] && disks[0].requested == [] && disks[0].commits == []
    && forall i :: 0 <= i < |steps| ==>
         Fits(targets, steps[i]) && Enabled(disks[i], steps[i]) && disks[i + 1] == Apply(disks[i], steps[i])
  }

  /** The content the last successful rename gave a file. */
  function LastCommit(commits: seq<Commit>, path: Path): Option<string> {
    if commits == [] then None
    else
      var last := commits[|commits| - 1];
      if last.target == path then Some(last.contents) else LastCommit(commits[..|commits| - 1], path)
  }

  function ContentOf(d: Disk, path: Path): Option<string> {
    if path in d.files then Some(d.files[path]) else None
  }

  /** What a target must hold: the last committed content, or what was there at first. */
  function Expected(first: Disk, d: Disk, path: Path): Option<string> {
    var last := LastCommit(d.commits, path);
    if last.Some? then last else ContentOf(first, path)
  }

  /** A write in progress has exactly its first `done` characters in its temporary file. */
  ghost predicate JobOk(targets: set<Path>, d: Disk, pid: Pid, job: Job) {
    && job.target in targets
    && job.done <= |job.contents|
    && ContentOf(d, TmpPath(job.target, pid)) == Some(job.contents[..job.done])
    && Commit(job.target, job.contents) in d.requested
  }

  ghost predicate Invariant(targets: set<Path>, first: Disk, d: Disk) {
    && (forall pid :: pid in d.jobs ==> JobOk(targets, d, pid, d.jobs[pid]))
    && (forall i :: 0 <= i < |d.commits| ==> d.commits[i] in d.requested)
    && (forall p :: p in targets ==> ContentOf(d, p) == Expected(first, d, p))
  }

  /** The temporary files of the other processes are left alone. */
  lemma OthersUntouched(targets: set<Path>, first: Disk, d: Disk, step: Step)
    requires NoTarget(targets) && Invariant(targets, first, d)
    requires Fits(targets, step) && Enabled(d, step)
    ensures forall pid :: pid in d.jobs && pid != step.pid ==>
              ContentOf(Apply(d, step), TmpPath(d.jobs[pid].target, pid)) ==
              ContentOf(d, TmpPath(d.jobs[pid].target, pid))
  {
    forall pid | pid in d.jobs && pid != step.pid
      ensures ContentOf(Apply(d, step), TmpPath(d.jobs[pid].target, pid)) ==
              ContentOf(d, TmpPath(d.jobs[pid].target, pid))
    {
      var target := if step.Begin? then step.target else d.jobs[step.pid].target;
      TmpPathsApart(target, d.jobs[pid].target, step.pid, pid);
    }
  }

  /** A step of another process keeps a write in progress as it was. */
  lemma OtherJobKept(targets: set<Path>, d: Disk, step: Step, pid: Pid)
    requires Enabled(d, step) && pid in d.jobs && pid != step.pid && JobOk(targets, d, pid, d.jobs[pid])
    requires ContentOf(Apply(d, step), TmpPath(d.jobs[pid].target, pid)) ==
             ContentOf(d, TmpPath(d.jobs[pid].target, pid))
    ensures JobOk(targets, Apply(d, step), pid, d.jobs[pid])
  {
  }

  /** A process's own step leaves exactly what it has written so far in its temporary file. */
  lemma OwnJobKept(targets: set<Path>, d: Disk, step: Step)
    requires Fits(targets, step) && Enabled(d, step) && (step.Begin? || step.Extend?)
    requires step.Extend? ==> JobOk(targets, d, step.pid, d.jobs[step.pid])
    ensures JobOk(targets, Apply(d, step), step.pid, Apply(d, step).jobs[step.pid])
  {
  }

  lemma StepKeepsJobs(targets: set<Path>, first: Disk, d: Disk, step: Step)
    requires NoTarget(targets) && Invariant(targets, first, d)
    requires Fits(targets, step) && Enabled(d, step)
    ensures var next := Apply(d, step);
            forall pid :: pid in next.jobs ==> JobOk(targets, next, pid, next.jobs[pid])
  {
    OthersUntouched(targets, first, d, step);
    var next := Apply(d, step);
    forall pid | pid in next.jobs
      ensures JobOk(targets, next, pid, next.jobs[pid])
    {
      if pid != step.pid {
        assert next.jobs[pid] == d.jobs[pid];
        OtherJobKept(targets, d, step, pid);
      } else {
        OwnJobKept(targets, d, step);
      }
    }
  }

  /** Every step but a rename leaves all files alone but one temporary one. */
  lemma OnlyTemporaryChanges(d: Disk, step: Step, path: Path)
    requires Enabled(d, step) && !step.Rename?
    requires path != TmpPath(if step.Begin? then step.target else d.jobs[step.pid].target, step.pid)
    ensures ContentOf(Apply(d, step), path) == ContentOf(d, path)
    ensures Apply(d, step).commits == d.commits
  {
  }

  lemma RenameKeepsTargets(targets: set<Path>, first: Disk, d: Disk, pid: Pid, path: Path)
    requires Enabled(d, Rename(pid)) && JobOk(targets, d, pid, d.jobs[pid])
    requires ContentOf(d, path) == Expected(first, d, path)
    requires path != TmpPath(d.jobs[pid].target, pid)
    ensures ContentOf(Apply(d, Rename(pid)), path) == Expected(first, Apply(d, Rename(pid)), path)
  {
    var next, job := Apply(d, Rename(pid)), d.jobs[pid];
    assert next.commits[..|d.commits|] == d.commits;
    assert job.contents[..job.done] == job.contents;
  }

  lemma StepKeepsTargets(targets: set<Path>, first: Disk, d: Disk, step: Step, path: Path)
    requires NoTarget(targets) && Invariant(targets, first, d)
    requires Fits(targets, step) && Enabled(d, step) && path in targets
    ensures ContentOf(Apply(d, step), path) == Expected(first, Apply(d, step), path)
  {
    assert ContentOf(d, path) == Expected(first, d, path);
    if step.Begin? {
      OnlyTemporaryChanges(d, step, path);
    } else {
      assert JobOk(targets, d, step.pid, d.jobs[step.pid]);
      if step.Rename? {
        RenameKeepsTargets(targets, first, d, step.pid, path);
      } else {
        OnlyTemporaryChanges(d, step, path);
      }
    }
  }

  lemma StepKeepsInvariant(targets: set<Path>, first: Disk, d: Disk, step: Step)
    requires NoTarget(targets) && Invariant(targets, first, d)
    requires Fits(targets, step) && Enabled(d, step)
    ensures Invariant(targets, first, Apply(d, step))
  {
    StepKeepsJobs(targets, first, d, step);
    forall p | p in targets
      ensures ContentOf(Apply(d, step), p) == Expected(first, Apply(d, step), p)
    {
      StepKeepsTargets(targets, first, d, step, p);
    }
    if step.Rename? {
      assert JobOk(targets, d, step.pid, d.jobs[step.pid]);
    }
  }

  lemma {:induction false} InterleavingKeepsInvariant(targets: set<Path>, disks: seq<Disk>, steps: seq<Step>, k: nat)
    requires NoTarget(targets) && Interleaving(targets, disks, steps) && k < |disks|
    ensures Invariant(targets, disks[0], disks[k])
  {
    if k > 0 {
      InterleavingKeepsInvariant(targets, disks, steps, k - 1);
      StepKeepsInvariant(targets, disks[0], disks[k - 1], steps[k - 1]);
    }
  }

  lemma {:induction false} LastCommitIsACommit(commits: seq<Commit>, path: Path)
    requires LastCommit(commits, path).Some?
    ensures Commit(path, LastCommit(commits, path).value) in commits
  {
    if commits[|commits| - 1].target != path {
      LastCommitIsACommit(commits[..|commits| - 1], path);
    }
  }

  /** At every moment, whatever the interleaving and whoever crashed, a reader of a target sees what
      was there at first or one complete content passed to a write -- and precisely that of the
      last rename that succeeded. */
  lemma ReadersSeeWholeContents(targets: set<Path>, disks: seq<Disk>, steps: seq<Step>, k: nat, path: Path)
    requires NoTarget(targets) && Interleaving(targets, disks, steps) && k < |disks| && path in targets
    ensures ContentOf(disks[k], path) == Expected(disks[0], disks[k], path)
    ensures ContentOf(disks[k], path) == ContentOf(disks[0], path)
         || (path in disks[k].files && Commit(path, disks[k].files[path]) in disks[k].requested)
  {
    InterleavingKeepsInvariant(targets, disks, steps, k);
    if LastCommit(disks[k].commits, path).Some? {
      LastCommitIsACommit(disks[k].commits, path);
    }
  }
}
