/** /etc/hostname and /etc/hosts, derived from the robot's identity. */
module HostFiles {
  import opened Wrappers
  import opened Text
  import opened Conf
  import opened AtomicWrite
  import opened Files
  import opened Numerals
  import opened ProgramPaths
  import opened RobotIdentity
  import opened RobotConf

  const HOSTS_ADDRESS := "127.0.1.1"

  function HostsEntry(id: RobotId): string {
    HOSTS_ADDRESS + "\t" + id
  }

  /** A blank ends the address, so the line of 127.0.1.10 is another one. */
  predicate IsHostsEntry(line: string) {
    StartsWith(line, HOSTS_ADDRESS + " ") || StartsWith(line, HOSTS_ADDRESS + "\t")
  }

  function RenderedHostname(id: RobotId): string {
    id + "\n"
  }

  const LOCALHOST := "127.0.0.1\tlocalhost"

  function RenderedHosts(existing: Option<string>, id: RobotId): string {
    match existing
    case None => LOCALHOST + "\n" + HostsEntry(id) + "\n"
    case Some(text) => Rewrite(text, IsHostsEntry, HostsEntry(id))
  }

  /** The same loop as for keys, with its own way of picking lines. */
  method RenderHostsFile(existing: Option<string>, id: RobotId) returns (out: string)
    ensures out == RenderedHosts(existing, id)
  {
    var entry := HostsEntry(id);
    if existing == None {
      return LOCALHOST + "\n" + entry + "\n";
    }

    var lines := Lines(existing.value);
    out := "";
    var replaced := false;
    for i := 0 to |lines|
      invariant out == Unlines(Replace(lines[..i], IsHostsEntry, entry))
      invariant replaced == Picked(lines[..i], IsHostsEntry)
    {
      ReplaceOneMore(lines, i, IsHostsEntry, entry);
      if IsHostsEntry(lines[i]) {
        out := out + entry;
        replaced := true;
      } else {
        out := out + lines[i];
      }
      out := out + "\n";
    }

    assert lines[..|lines|] == lines;
    UnlinesConcat(Replace(lines, IsHostsEntry, entry), [entry]);
    assert Unlines([entry]) == entry + "\n";
    assert replaced ==> ReplaceOrAppend(lines, IsHostsEntry, entry) == Replace(lines, IsHostsEntry, entry);
    if !replaced {
      out := out + entry;
      out := out + "\n";
    }
  }

  lemma DropCrKeepsEntry(line: string)
    ensures IsHostsEntry(DropCr(line)) == IsHostsEntry(line)
  {
    if IsHostsEntry(line) && EndsWith(line, '\r') {
      assert line[9] == ' ' || line[9] == '\t';
      assert DropCr(line)[..9] == line[..9] && |DropCr(line)| >= 10;
    } else if IsHostsEntry(DropCr(line)) {
      assert DropCr(line) <= line;
    }
  }

  lemma HostsEntryIsSteady(id: RobotId)
    ensures Steady(IsHostsEntry, HostsEntry(id))
    ensures DropCr(HostsEntry(id)) == HostsEntry(id)
  {
    assert HostsEntry(id) == HOSTS_ADDRESS + "\t" + id;
    assert NoNewline(id);
    forall line
      ensures IsHostsEntry(DropCr(line)) == IsHostsEntry(line)
    {
      DropCrKeepsEntry(line);
    }
  }

  lemma LocalhostIsNoEntry()
    ensures !IsHostsEntry(LOCALHOST) && NoNewline(LOCALHOST) && DropCr(LOCALHOST) == LOCALHOST
  {
    assert LOCALHOST[6] == '0' && HOSTS_ADDRESS[6] == '1';
    assert (HOSTS_ADDRESS + " ")[6] == '1' && (HOSTS_ADDRESS + "\t")[6] == '1';
    assert LOCALHOST[|LOCALHOST| - 1] == 't';
  }

  lemma LinesOfNewHosts(id: RobotId)
    ensures Lines(RenderedHosts(None, id)) == [LOCALHOST, HostsEntry(id)]
  {
    HostsEntryIsSteady(id);
    LocalhostIsNoEntry();
    var lines := [LOCALHOST, HostsEntry(id)];
    assert Unlines(lines[1..]) == HostsEntry(id) + "\n";
    assert Unlines(lines) == LOCALHOST + "\n" + Unlines(lines[1..]);
    assert RenderedHosts(None, id) == Unlines(lines);
    LinesOfUnlines(lines);
    assert DropCrs(lines) == lines;
  }

  /** A line of the hosts file that gives 127.0.1.1 a name: the address and a blank. */
  predicate MapsOwnAddress(line: string) {
    |line| >= 10 && line[..9] == "127.0.1.1" && (line[9] == ' ' || line[9] == '\t')
  }

  lemma EntryExactly(line: string)
    ensures IsHostsEntry(line) <==> MapsOwnAddress(line)
  {
    if MapsOwnAddress(line) {
      assert line[..10] == line[..9] + [line[9]];
    }
  }

  /** The host name file reads as the robot's name and nothing else. */
  lemma HostnameReadsBack(id: RobotId)
    ensures Lines(RenderedHostname(id)) == [id] && Trim(RenderedHostname(id)) == id
  {
    LinesOfFirst(id, "");
    assert id + "\n" == id + "\n" + "";
    TrimIgnoresTrailing(id, '\n');
    TrimOfTrimmed(id);
  }

  /** What becomes of the lines of a hosts file, if it had these. */
  ghost predicate NowNamed(was: seq<string>, now: seq<string>, id: RobotId) {
    && (exists i :: 0 <= i < |now| && MapsOwnAddress(now[i]))
    && (forall i :: 0 <= i < |now| && MapsOwnAddress(now[i]) ==> now[i] == "127.0.1.1\t" + id)
    && |was| <= |now| <= |was| + 1
    && forall i :: 0 <= i < |was| && !MapsOwnAddress(was[i]) ==> now[i] == DropCr(was[i])
  }

  lemma RewrittenIsNamed(text: string, id: RobotId)
    ensures NowNamed(Lines(text), Lines(RenderedHosts(Some(text), id)), id)
  {
    HostsEntryIsSteady(id);
    RewriteKeepsTheRest(text, IsHostsEntry, HostsEntry(id));
    forall line
      ensures IsHostsEntry(line) <==> MapsOwnAddress(line)
    {
      EntryExactly(line);
    }
    assert HostsEntry(id) == "127.0.1.1\t" + id;
  }

  /** Afterwards at least one line maps 127.0.1.1, every such line maps it to the new name, and every
      other line is where it was. A file that was missing has one line more, for localhost. */
  lemma HostsNameTheRobot(existing: Option<string>, id: RobotId)
    ensures existing.Some? ==> NowNamed(Lines(existing.value), Lines(RenderedHosts(existing, id)), id)
    ensures existing == None ==>
              Lines(RenderedHosts(existing, id)) == ["127.0.0.1\tlocalhost", "127.0.1.1\t" + id]
  {
    assert HostsEntry(id) == "127.0.1.1\t" + id;
    match existing
    case None => LinesOfNewHosts(id);
    case Some(text) => RewrittenIsNamed(text, id);
  }

  /** No line to be kept ends in a carriage return. */
  ghost predicate HostsTidy(existing: Option<string>) {
    existing.Some? ==> Tidy(existing.value, IsHostsEntry)
  }

  /** Rendering again for the same name changes nothing, exactly when the file was tidy. */
  lemma RenderHostsTwice(existing: Option<string>, id: RobotId)
    ensures RenderedHosts(Some(RenderedHosts(existing, id)), id) == RenderedHosts(existing, id)
            <==> HostsTidy(existing)
  {
    HostsEntryIsSteady(id);
    match existing
    case Some(text) => RewriteIdempotent(text, IsHostsEntry, HostsEntry(id));
    case None =>
      LinesOfNewHosts(id);
      var lines := [LOCALHOST, HostsEntry(id)];
      LocalhostIsNoEntry();
      assert IsHostsEntry(lines[1]);
      assert ReplaceOrAppend(lines, IsHostsEntry, HostsEntry(id)) == lines;
      assert Unlines(lines[1..]) == HostsEntry(id) + "\n";
      assert Unlines(lines) == LOCALHOST + "\n" + Unlines(lines[1..]);
  }

  /** The files one apply attempts to write, given what they hold. */
  function ApplyWrites(hostname: Option<string>, hosts: Option<string>, id: RobotId,
                       hostnamePath: Path, hostsPath: Path): seq<Path> {
    (if hostname != Some(RenderedHostname(id)) then [hostnamePath] else [])
    + (if hosts != Some(RenderedHosts(hosts, id)) then [hostsPath] else [])
  }

  /** A second apply for the same robot writes no file, exactly when the hosts file was tidy before
      the first. */
  lemma SecondApplyWritesNothing(hosts: Option<string>, id: RobotId, hostnamePath: Path, hostsPath: Path)
    ensures ApplyWrites(Some(RenderedHostname(id)), Some(RenderedHosts(hosts, id)), id, hostnamePath, hostsPath) == []
            <==> HostsTidy(hosts)
  {
    RenderHostsTwice(hosts, id);
  }

  /** What writing one file may touch: the file, and where it is prepared. */
  predicate Touches(path: Path, pid: AtomicWrite.Pid, p: Path) {
    p == path || p == TmpPath(path, pid)
  }

  predicate ApplyTouches(paths: Paths, pid: AtomicWrite.Pid, p: Path) {
    Touches(paths.hostnamePath, pid, p) || Touches(paths.hostsPath, pid, p)
  }

  /** Re-derives both files; true when the host name changed. The hosts file is written last, so a
      failure leaves it as it was; no other file is touched, but for the temporary ones. */
  method ApplyFiles(fs: FileSystem, paths: Paths, id: RobotId) returns (r: Result<bool, ()>)
    requires paths.Separate(fs.pid)
    modifies fs
    ensures fs.faults == old(fs.faults) + if r.Ok? then 0 else 1
    ensures r.Ok? ==>
              && r.value == (old(fs.Content(paths.hostnamePath)) != Some(RenderedHostname(id)))
              && fs.Content(paths.hostnamePath) == Some(RenderedHostname(id))
              && fs.Content(paths.hostsPath) == Some(RenderedHosts(old(fs.Content(paths.hostsPath)), id))
              && fs.attempts == old(fs.attempts) +
                   ApplyWrites(old(fs.Content(paths.hostnamePath)), old(fs.Content(paths.hostsPath)), id,
                               paths.hostnamePath, paths.hostsPath)
    ensures r.Err? ==>
              && (fs.Content(paths.hostnamePath) == old(fs.Content(paths.hostnamePath))
                  || fs.Content(paths.hostnamePath) == Some(RenderedHostname(id)))
              && fs.Content(paths.hostsPath) == old(fs.Content(paths.hostsPath))
    ensures forall p :: !ApplyTouches(paths, fs.pid, p) ==> fs.Content(p) == old(fs.Content(p))
  {
    assert TmpPath(paths.hostnamePath, fs.pid) != paths.hostsPath;
    assert TmpPath(paths.hostsPath, fs.pid) != paths.hostnamePath;
    var hostnameChanged := fs.WriteIfChanged(paths.hostnamePath, RenderedHostname(id));
    if hostnameChanged.Err? {
      return Err(());
    }
    var hostsChanged := ApplyHosts(fs, paths.hostsPath, id);
    return if hostsChanged.Ok? then hostnameChanged else Err(());
  }

  method ApplyHosts(fs: FileSystem, path: Path, id: RobotId) returns (r: Result<bool, ()>)
    modifies fs
    ensures fs.faults == old(fs.faults) + if r.Ok? then 0 else 1
    ensures r.Ok? ==>
              && fs.Content(path) == Some(RenderedHosts(old(fs.Content(path)), id))
              && fs.attempts == old(fs.attempts) +
                   if old(fs.Content(path)) != Some(RenderedHosts(old(fs.Content(path)), id)) then [path] else []
    ensures r.Err? ==> fs.Content(path) == old(fs.Content(path))
    ensures forall p :: !Touches(path, fs.pid, p) ==> fs.Content(p) == old(fs.Content(p))
  {
    var existing := fs.ReadOptional(path);
    if existing.Err? {
      return Err(());
    }
    var rendered := RenderHostsFile(existing.value, id);
    r := fs.WriteIfChanged(path, rendered);
  }

  /** Reads, upserts and writes back. */
  method SetKey(fs: FileSystem, path: Path, key: string, value: string) returns (r: Result<(), ()>)
    modifies fs
    ensures fs.faults == old(fs.faults) + if r.Ok? then 0 else 1
    ensures fs.Content(path) ==
            if r.Ok? then Some(Upserted(old(fs.Content(path)), key, value)) else old(fs.Content(path))
    ensures r.Ok? ==>
              fs.files == (old(fs.files) - {TmpPath(path, fs.pid)})[path := Upserted(old(fs.Content(path)), key, value)]
    ensures forall p :: !Touches(path, fs.pid, p) ==> fs.Content(p) == old(fs.Content(p))
  {
    var existing := fs.ReadOptional(path);
    if existing.Err? {
      return Err(());
    }
    var updated := UpsertKey(existing.value, key, value);
    r := fs.WriteAtomically(path, updated);
  }

  /** Writes ROBOT_ID and re-derives both files from what is then loaded. A failure may come after
      robot.conf, or the host name too, has been written; the hosts file is only written last. */
  method SetRobotId(fs: FileSystem, paths: Paths, id: RobotId, defaults: RobotConfig) returns (r: Result<bool, ()>)
    requires paths.Separate(fs.pid)
    modifies fs
    ensures fs.faults == old(fs.faults) + if r.Ok? then 0 else 1
    ensures var was, now := old(fs.Content(paths.RobotConf())), fs.Content(paths.RobotConf());
            var updated := Updated(was, Update.SetRobotId(id));
            var loaded := Load(Some(updated), defaults).robotId;
            && (!ShadowedIn(was, ROBOT_ID_KEY) ==> loaded == id)
            && (r.Ok? ==>
                  && now == Some(updated)
                  && fs.Content(paths.hostnamePath) == Some(RenderedHostname(loaded))
                  && fs.Content(paths.hostsPath) == Some(RenderedHosts(old(fs.Content(paths.hostsPath)), loaded)))
            && (r.Err? ==>
                  && (now == was || now == Some(updated))
                  && (fs.Content(paths.hostnamePath) == old(fs.Content(paths.hostnamePath))
                      || (fs.Content(paths.hostnamePath) == Some(RenderedHostname(loaded)) && now == Some(updated)))
                  && fs.Content(paths.hostsPath) == old(fs.Content(paths.hostsPath)))
    ensures forall p :: !Touches(paths.RobotConf(), fs.pid, p) && !ApplyTouches(paths, fs.pid, p) ==>
                          fs.Content(p) == old(fs.Content(p))
  {
    ghost var was := fs.Content(paths.RobotConf());
    UpdateIsMapUpdate(was, Update.SetRobotId(id), defaults);
    var written := SetKey(fs, paths.RobotConf(), ROBOT_ID_KEY, id);
    if written.Err? {
      return Err(());
    }
    var text := fs.ReadOptional(paths.RobotConf());
    if text.Err? {
      return Err(());
    }
    r := ApplyFiles(fs, paths, Load(text.value, defaults).robotId);
  }

  /** Writes ROS_DOMAIN_ID, and that is all: no host file depends on it. */
  method SetRosDomainId(fs: FileSystem, paths: Paths, n: RosDomainId) returns (r: Result<(), ()>)
    modifies fs
    ensures fs.faults == old(fs.faults) + if r.Ok? then 0 else 1
    ensures fs.Content(paths.RobotConf()) ==
            if r.Ok? then Some(Updated(old(fs.Content(paths.RobotConf())), SetDomainId(n)))
            else old(fs.Content(paths.RobotConf()))
    ensures forall p :: !Touches(paths.RobotConf(), fs.pid, p) ==> fs.Content(p) == old(fs.Content(p))
  {
    r := SetKey(fs, paths.RobotConf(), ROS_DOMAIN_ID_KEY, ToDecimal(n));
  }
}
