/** Publishing a contract bundle: staged in a temporary directory, swapped in by renames, the previous bundle kept in a
    backup until the new one is in place. Any file operation may fail, and the process may die between any two. */
module BundlePublish {
  import opened Common

  type byte = bv8
  type Dir = map<string, seq<byte>>

  datatype Bundle = Bundle(artifacts: map<string, seq<byte>>, manifest: seq<byte>)

  /** The three directories a publication touches. */
  datatype Disk = Disk(output: Option<Dir>, temporary: Option<Dir>, backup: Option<Dir>)

  const MANIFEST := "manifest.json"

  function Files(b: Bundle): (files: Dir)
    ensures MANIFEST in files && files[MANIFEST] == b.manifest
    ensures forall name :: name in b.artifacts && name != MANIFEST ==> name in files && files[name] == b.artifacts[name]
  {
    b.artifacts[MANIFEST := b.manifest]
  }

  /** Paths that would leave the bundle's directory are refused: "", ".", "..", absolute ones and "../...". */
  predicate AllowedName(name: string) {
    && name != "" && name != "." && name != ".."
    && name[0] != '/' && !(|name| >= 3 && name[..3] == "../")
  }

  function FirstSegment(name: string): string {
    if name == "" || name[0] == '/' then "" else [name[0]] + FirstSegment(name[1..])
  }

  /** A name stays inside exactly when its first segment is one of its own, and it names more than the directory itself. */
  lemma NamesStayInside(name: string)
    ensures AllowedName(name) <==> FirstSegment(name) != "" && FirstSegment(name) != ".." && name != "."
  {
    if |name| >= 2 && name[0] == '.' {
      var rest := name[1..];
      assert FirstSegment(rest) == if rest[0] == '/' then "" else [rest[0]] + FirstSegment(rest[1..]);
      if name[1] == '.' {
        assert rest[1..] == name[2..] && FirstSegment(name) == ".." + FirstSegment(name[2..]);
        if |name| >= 3 { assert name[..3] == ['.', '.', name[2]] && name[2..][0] == name[2]; } else { assert name == ".."; }
      }
    }
  }

  /** What a reader may find at the output and backup paths at any moment: the old bundle whole, or the new one whole. */
  ghost predicate NeverMixed(before: Option<Dir>, files: Dir, d: Disk) {
    match before
    case None => d.output.None? || d.output == Some(files)
    case Some(o) => d.output == Some(o) || d.output == Some(files) || (d.output.None? && d.backup == Some(o))
  }

  /** A disk whose operations fail as `fails` says, one answer per operation; `history` keeps every state it went through. */
  class FileSystem {
    var disk: Disk
    var clock: nat
    const fails: nat -> bool
    ghost var history: seq<Disk>

    constructor (disk: Disk, fails: nat -> bool)
      ensures this.disk == disk && this.fails == fails && history == [disk] && clock == 0
    {
      this.disk, this.fails, clock := disk, fails, 0;
      history := [disk];
    }

    /** Every state since `from` keeps the promise to readers. */
    ghost predicate SafeSince(from: nat, before: Option<Dir>, files: Dir)
      reads this
    {
      && from <= |history|
      && (forall k :: from <= k < |history| ==> NeverMixed(before, files, history[k]))
      && NeverMixed(before, files, disk)
    }

    /** No operation fails. */
    ghost predicate Reliable() {
      forall n: nat :: !fails(n)
    }

    method Attempt() returns (ok: bool)
      modifies this`clock
      ensures clock == old(clock) + 1 && (Reliable() ==> ok)
    {
      ok := !fails(clock);
      clock := clock + 1;
    }

    method Step(next: Disk)
      modifies this`disk, this`history
      ensures disk == next && history == old(history) + [next]
    {
      disk := next;
      history := history + [next];
    }

    /** Creates the directory of a temporary bundle. */
    method MakeTemporary() returns (ok: bool)
      modifies this`disk, this`history, this`clock
      ensures disk == if ok then old(disk).(temporary := Some(map[])) else old(disk)
      ensures history == if ok then old(history) + [disk] else old(history)
      ensures Reliable() ==> ok
    {
      ok := Attempt();
      if ok { Step(disk.(temporary := Some(map[]))); }
    }

    /** Writes one file; a failure may leave it truncated. */
    method WriteFile(name: string, data: seq<byte>) returns (ok: bool)
      requires disk.temporary.Some?
      modifies this`disk, this`history, this`clock
      ensures disk.temporary.Some? && disk == old(disk).(temporary := disk.temporary)
      ensures old(history) <= history
      ensures forall k :: |old(history)| <= k < |history| ==>
                history[k] == old(disk).(temporary := history[k].temporary)
      ensures ok ==> disk.temporary == Some(old(disk).temporary.value[name := data])
      ensures Reliable() ==> ok
    {
      var dir := disk.temporary.value;
      var partial := Attempt();
      if partial { Step(disk.(temporary := Some(dir[name := []]))); }
      ok := Attempt();
      if ok { Step(disk.(temporary := Some(dir[name := data]))); }
    }

    /** Removes a directory entry by entry; a failure leaves what is left of it. */
    method RemoveTemporary()
      modifies this`disk, this`history, this`clock
      ensures disk == old(disk).(temporary := disk.temporary)
      ensures old(history) <= history
      ensures forall k :: |old(history)| <= k < |history| ==>
                history[k] == old(disk).(temporary := history[k].temporary)
    {
      while disk.temporary.Some? && disk.temporary.value != map[]
        invariant disk == old(disk).(temporary := disk.temporary)
        invariant old(history) <= history
        invariant forall k :: |old(history)| <= k < |history| ==> history[k] == old(disk).(temporary := history[k].temporary)
        decreases if disk.temporary.Some? then |disk.temporary.value| else 0
      {
        var dir := disk.temporary.value;
        var name :| name in dir;
        var ok := Attempt();
        if !ok { return; }
        assert (dir - {name}).Keys == dir.Keys - {name};
        Step(disk.(temporary := Some(dir - {name})));
      }
      var ok := Attempt();
      if ok && disk.temporary.Some? { Step(disk.(temporary := None)); }
    }

    method RemoveBackup() returns (ok: bool)
      requires disk.backup.Some?
      modifies this`disk, this`history, this`clock
      ensures disk == old(disk).(backup := disk.backup) && (ok ==> disk.backup.None?) && (Reliable() ==> ok)
      ensures old(history) <= history
      ensures forall k :: |old(history)| <= k < |history| ==>
                history[k] == old(disk).(backup := history[k].backup)
    {
      while disk.backup.value != map[]
        invariant disk.backup.Some? && disk == old(disk).(backup := disk.backup)
        invariant old(history) <= history
        invariant forall k :: |old(history)| <= k < |history| ==> history[k] == old(disk).(backup := history[k].backup)
        decreases |disk.backup.value|
      {
        var dir := disk.backup.value;
        var name :| name in dir;
        ok := Attempt();
        if !ok { return; }
        assert (dir - {name}).Keys == dir.Keys - {name};
        Step(disk.(backup := Some(dir - {name})));
      }
      ok := Attempt();
      if ok { Step(disk.(backup := None)); }
    }
  }

  datatype Outcome =
    | Published
    | Refused
    | StagingFailed
    | SwapNotStarted
    | PublishFailed(restored: bool)
    | OldBundleNotRemoved

  /** Every artifact may be written under its name. */
  predicate AllNamed(files: Dir) {
    forall name :: name in files && name != MANIFEST ==> AllowedName(name)
  }

  /** Writes one artifact, unless its name leaves the directory. */
  method StageOne(fs: FileSystem, files: Dir, name: string, ghost from: nat, ghost before: Option<Dir>) returns (ok: bool)
    requires fs.disk.temporary.Some? && fs.SafeSince(from, before, files) && name in files
    modifies fs
    ensures fs.SafeSince(from, before, files)
    ensures fs.disk.temporary.Some? && fs.disk == old(fs.disk).(temporary := fs.disk.temporary)
    ensures ok ==> AllowedName(name) && fs.disk.temporary == Some(old(fs.disk).temporary.value[name := files[name]])
    ensures fs.Reliable() && AllowedName(name) ==> ok
  {
    if !AllowedName(name) { return false; }
    ok := fs.WriteFile(name, files[name]);
  }

  /** Writes every file into the temporary directory, the manifest last. */
  method StageFiles(fs: FileSystem, files: Dir, ghost from: nat, ghost before: Option<Dir>) returns (ok: bool)
    requires fs.disk.temporary == Some(map[]) && fs.SafeSince(from, before, files) && MANIFEST in files
    modifies fs
    ensures fs.SafeSince(from, before, files)
    ensures fs.disk == old(fs.disk).(temporary := fs.disk.temporary)
    ensures ok ==> fs.disk.temporary == Some(files) && AllNamed(files)
    ensures fs.Reliable() && AllNamed(files) ==> ok
  {
    var rest := files.Keys - {MANIFEST};
    while rest != {}
      invariant rest <= files.Keys - {MANIFEST} && fs.SafeSince(from, before, files)
      invariant fs.disk.temporary.Some? && fs.disk == old(fs.disk).(temporary := fs.disk.temporary)
      invariant fs.disk.temporary.value.Keys == files.Keys - {MANIFEST} - rest
      invariant forall name :: name in fs.disk.temporary.value ==> fs.disk.temporary.value[name] == files[name] && AllowedName(name)
      decreases |rest|
    {
      var name :| name in rest;
      var written := StageOne(fs, files, name, from, before);
      if !written { return false; }
      rest := rest - {name};
    }
    ok := fs.WriteFile(MANIFEST, files[MANIFEST]);
    if ok { assert fs.disk.temporary.value == files; }
  }

  /** The whole publication. Whatever fails and wherever the process dies, readers find a complete old bundle (at the
      output or, for a moment, at the backup path) or the complete new one; the outcome says which. */
  method WriteAtomic(fs: FileSystem, bundle: Bundle) returns (outcome: Outcome)
    requires fs.disk.temporary.None? && fs.disk.backup.None?
    modifies fs
    ensures fs.SafeSince(old(|fs.history|), old(fs.disk.output), Files(bundle))
    ensures match outcome
            case Published => fs.disk.output == Some(Files(bundle)) && fs.disk.backup.None?
            case OldBundleNotRemoved => fs.disk.output == Some(Files(bundle))
            case PublishFailed(restored) =>
              if restored || old(fs.disk.output).None? then fs.disk.output == old(fs.disk.output)
              else fs.disk.output.None? && fs.disk.backup == old(fs.disk.output)
            case _ => fs.disk.output == old(fs.disk.output)
    ensures outcome == Refused <==> bundle.artifacts == map[] || bundle.manifest == []
    ensures outcome == Published || outcome == OldBundleNotRemoved ==> AllNamed(Files(bundle))
    ensures fs.Reliable() && outcome != Refused ==> outcome == if AllNamed(Files(bundle)) then Published else StagingFailed
  {
    var files := Files(bundle);
    ghost var before, from := fs.disk.output, |fs.history|;
    if bundle.artifacts == map[] || bundle.manifest == [] { return Refused; }
    var made := fs.MakeTemporary();
    if !made { return StagingFailed; }
    var staged := StageFiles(fs, files, from, before);
    if !staged {
      fs.RemoveTemporary();
      return StagingFailed;
    }
    outcome := Swap(fs, files, from, before);
    fs.RemoveTemporary();
  }

  /** The renames that put the staged bundle in place. */
  method Swap(fs: FileSystem, files: Dir, ghost from: nat, ghost before: Option<Dir>) returns (outcome: Outcome)
    requires fs.disk == Disk(before, Some(files), None) && fs.SafeSince(from, before, files)
    modifies fs
    ensures fs.SafeSince(from, before, files)
    ensures match outcome
            case Published => fs.disk.output == Some(files) && fs.disk.backup.None?
            case OldBundleNotRemoved => fs.disk.output == Some(files)
            case PublishFailed(restored) =>
              if restored || before.None? then fs.disk.output == before else fs.disk.output.None? && fs.disk.backup == before
            case SwapNotStarted => fs.disk.output == before
            case _ => false
    ensures fs.Reliable() ==> outcome == Published
  {
    var inspected := fs.Attempt();
    if !inspected { return SwapNotStarted; }
    if fs.disk.output.None? {
      var renamed := fs.Attempt();
      if !renamed { return PublishFailed(false); }
      fs.Step(Disk(fs.disk.temporary, None, None));
      return Published;
    }
    var reserved := fs.Attempt();
    if !reserved { return SwapNotStarted; }
    fs.Step(fs.disk.(backup := Some(map[])));
    var freed := fs.Attempt();
    if !freed { return SwapNotStarted; }
    fs.Step(fs.disk.(backup := None));
    var moved := fs.Attempt();
    if !moved { return SwapNotStarted; }
    fs.Step(fs.disk.(output := None, backup := fs.disk.output));
    var renamed := fs.Attempt();
    if !renamed {
      var restored := fs.Attempt();
      if restored { fs.Step(fs.disk.(output := fs.disk.backup, backup := None)); }
      return PublishFailed(restored);
    }
    fs.Step(fs.disk.(output := fs.disk.temporary, temporary := None));
    var removed := fs.RemoveBackup();
    outcome := if removed then Published else OldBundleNotRemoved;
  }

  /** The comparison with the generated files: same names, same bytes. */
  method Check(output: Option<Dir>, bundle: Bundle) returns (same: bool)
    ensures same <==> output == Some(Files(bundle))
  {
    if output.None? { return false; }
    var expected, actual := Files(bundle), output.value;
    if actual.Keys != expected.Keys { return false; }
    var rest := expected.Keys;
    while rest != {}
      invariant rest <= expected.Keys
      invariant forall name :: name in expected.Keys - rest ==> actual[name] == expected[name]
      decreases |rest|
    {
      var name :| name in rest;
      if actual[name] != expected[name] { return false; }
      rest := rest - {name};
    }
    assert actual == expected;
    same := true;
  }

  /** A publication that reports success is accepted by the check that follows it. */
  method PublishThenCheck(fs: FileSystem, bundle: Bundle) returns (published: bool, accepted: bool)
    requires fs.disk.temporary.None? && fs.disk.backup.None?
    modifies fs
    ensures published ==> accepted
    ensures accepted <==> fs.disk.output == Some(Files(bundle))
  {
    var outcome := WriteAtomic(fs, bundle);
    published := outcome == Published;
    accepted := Check(fs.disk.output, bundle);
  }
}
