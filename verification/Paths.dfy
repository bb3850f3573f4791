/** Where the files are that the program writes. */
module ProgramPaths {
  import opened AtomicWrite

  /** A name inside a directory. */
  function Join(dir: Path, name: string): Path {
    if dir == "" || dir[|dir| - 1] == '/' then dir + name else dir + "/" + name
  }

  /** Everything here may be set by the environment. */
  datatype Paths = Paths(configDir: Path, dataDir: Path, runDir: Path, hostnamePath: Path, hostsPath: Path) {
    function RobotConf(): Path { Join(configDir, "robot.conf") }

    function HostapdConf(): Path { Join(runDir, "hostapd.conf") }

    function DnsmasqConf(): Path { Join(runDir, "dnsmasq.conf") }

    function EnabledConf(): Path { Join(Join(dataDir, "experiments"), "enabled.conf") }

    function ExperimentsConf(): Path { Join(Join(dataDir, "experiments"), "experiments.conf") }

    /** Every file that is ever written. */
    function Written(): set<Path> {
      {RobotConf(), HostapdConf(), DnsmasqConf(), EnabledConf(), ExperimentsConf(), hostnamePath, hostsPath}
    }

    /** The two host files are two, neither is robot.conf, and none of the three is where process
        `pid` prepares another. */
    predicate Separate(pid: AtomicWrite.Pid) {
      && hostnamePath != hostsPath
      && RobotConf() != hostnamePath && RobotConf() != hostsPath
      && Apart(hostnamePath, pid) && Apart(hostsPath, pid) && Apart(RobotConf(), pid)
    }

    predicate Apart(path: Path, pid: AtomicWrite.Pid) {
      && path != TmpPath(RobotConf(), pid) && path != TmpPath(hostnamePath, pid) && path != TmpPath(hostsPath, pid)
    }
  }

  lemma JoinedEndsLike(dir: Path, name: string)
    requires name != ""
    ensures Join(dir, name) != "" && Join(dir, name)[|Join(dir, name)| - 1] == name[|name| - 1]
  {
  }

  /** A file in a directory is named by what follows the last separator. */
  predicate IsIn(path: Path, dir: Path, name: string) {
    var at := AfterLast(path, '/');
    path[at..] == name && (path[..at] == dir || path[..at] == dir + "/")
  }

  lemma JoinedIsIn(dir: Path, name: string)
    requires name != "" && '/' !in name
    ensures IsIn(Join(dir, name), dir, name)
  {
    var path := Join(dir, name);
    AfterLastIs(path, '/', |path| - |name|);
  }

  /** The names of the program's own files. */
  lemma OwnNamesArePlain()
    ensures '/' !in "robot.conf" && '/' !in "hostapd.conf" && '/' !in "dnsmasq.conf"
    ensures '/' !in "enabled.conf" && '/' !in "experiments.conf"
  {
  }

  /** Where every file lies that the program writes under a name of its own. */
  lemma OwnFilesAreNamed(paths: Paths)
    ensures IsIn(paths.RobotConf(), paths.configDir, "robot.conf")
    ensures IsIn(paths.HostapdConf(), paths.runDir, "hostapd.conf")
    ensures IsIn(paths.DnsmasqConf(), paths.runDir, "dnsmasq.conf")
    ensures IsIn(paths.EnabledConf(), Join(paths.dataDir, "experiments"), "enabled.conf")
    ensures IsIn(paths.ExperimentsConf(), Join(paths.dataDir, "experiments"), "experiments.conf")
  {
    OwnNamesArePlain();
    assert IsIn(paths.RobotConf(), paths.configDir, "robot.conf") by {
      JoinedIsIn(paths.configDir, "robot.conf");
    }
    assert IsIn(paths.HostapdConf(), paths.runDir, "hostapd.conf") by {
      JoinedIsIn(paths.runDir, "hostapd.conf");
    }
    assert IsIn(paths.DnsmasqConf(), paths.runDir, "dnsmasq.conf") by {
      JoinedIsIn(paths.runDir, "dnsmasq.conf");
    }
    var experiments := Join(paths.dataDir, "experiments");
    assert IsIn(paths.EnabledConf(), experiments, "enabled.conf") by {
      JoinedIsIn(experiments, "enabled.conf");
    }
    JoinedIsIn(experiments, "experiments.conf");
  }

  /** No file inside the program's own directories ends in a digit. */
  lemma OwnFilesEndPlainly(paths: Paths, q: Path)
    requires q in paths.Written() && q != paths.hostnamePath && q != paths.hostsPath
    ensures !EndsInDigit(q)
  {
    JoinedEndsLike(paths.configDir, "robot.conf");
    JoinedEndsLike(paths.runDir, "hostapd.conf");
    JoinedEndsLike(paths.runDir, "dnsmasq.conf");
    JoinedEndsLike(Join(paths.dataDir, "experiments"), "enabled.conf");
    JoinedEndsLike(Join(paths.dataDir, "experiments"), "experiments.conf");
  }

  /** No file the program writes is prepared at `q`. */
  predicate NeverPrepared(paths: Paths, q: Path) {
    forall p :: p in paths.Written() ==> !Prepares(p, q)
  }

  lemma PlainIsNeverPrepared(paths: Paths, q: Path)
    requires !EndsInDigit(q)
    ensures NeverPrepared(paths, q)
  {
    forall p | p in paths.Written()
      ensures !Prepares(p, q)
    {
      PreparesIsTmpPath(p, q);
      if pid: Pid :| TmpPath(p, pid) == q {
        TmpPathEndsInDigit(p, pid);
      }
    }
  }

  /** The files inside the program's own directories are never where another one is prepared; so the
      writes are safe from each other if and only if neither host file is named like a temporary file
      of any. */
  lemma WrittenIsNoTarget(paths: Paths)
    ensures NoTarget(paths.Written()) <==>
            NeverPrepared(paths, paths.hostnamePath) && NeverPrepared(paths, paths.hostsPath)
  {
    var written := paths.Written();
    assert paths.hostnamePath in written && paths.hostsPath in written;
    forall p, q | p in written && q in written
      ensures Prepares(p, q) <==> exists pid: Pid :: TmpPath(p, pid) == q
    {
      PreparesIsTmpPath(p, q);
    }
    forall q | q in written && q != paths.hostnamePath && q != paths.hostsPath
      ensures NeverPrepared(paths, q)
    {
      OwnFilesEndPlainly(paths, q);
      PlainIsNeverPrepared(paths, q);
    }
    if NeverPrepared(paths, paths.hostnamePath) && NeverPrepared(paths, paths.hostsPath) {
      assert forall q :: q in written ==> NeverPrepared(paths, q);
    }
  }

  /** Host files whose names do not end in a digit are never named so. */
  lemma PlainNamesAreNoTarget(paths: Paths)
    requires !EndsInDigit(paths.hostnamePath) && !EndsInDigit(paths.hostsPath)
    ensures NoTarget(paths.Written())
  {
    PlainIsNeverPrepared(paths, paths.hostnamePath);
    PlainIsNeverPrepared(paths, paths.hostsPath);
    WrittenIsNoTarget(paths);
  }

  const DEFAULT_HOSTNAME_PATH := "/etc/hostname"
  const DEFAULT_HOSTS_PATH := "/etc/hosts"

  /** With the host files in their usual places, the program's own directories may be anywhere. */
  lemma UsualPathsAreSeparate(paths: Paths)
    requires paths.hostnamePath == DEFAULT_HOSTNAME_PATH && paths.hostsPath == DEFAULT_HOSTS_PATH
    ensures NoTarget(paths.Written())
    ensures forall pid: Pid :: paths.Separate(pid)
  {
    var conf, hostname, hosts := paths.RobotConf(), paths.hostnamePath, paths.hostsPath;
    JoinedEndsLike(paths.configDir, "robot.conf");
    assert conf[|conf| - 1] == 'f' && hostname[|hostname| - 1] == 'e' && hosts[|hosts| - 1] == 's';
    PlainNamesAreNoTarget(paths);
    forall pid: Pid
      ensures paths.Separate(pid)
    {
      TmpPathEndsInDigit(conf, pid);
      TmpPathEndsInDigit(hostname, pid);
      TmpPathEndsInDigit(hosts, pid);
    }
  }

  /** None of the files of the program is ever seen torn, whatever its processes do to it at once. */
  lemma ProgramFilesStayWhole(paths: Paths, disks: seq<Disk>, steps: seq<Step>, k: nat, path: Path)
    requires NoTarget(paths.Written()) && path in paths.Written()
    requires Interleaving(paths.Written(), disks, steps) && k < |disks|
    ensures ContentOf(disks[k], path) == Expected(disks[0], disks[k], path)
    ensures ContentOf(disks[k], path) == ContentOf(disks[0], path)
         || (path in disks[k].files && Commit(path, disks[k].files[path]) in disks[k].requested)
  {
    ReadersSeeWholeContents(paths.Written(), disks, steps, k, path);
  }
}
