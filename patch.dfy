/** `eesizer/netlist/patch.py`: the syntactic pre-check for candidate netlists
    and the apply / backup / revert helpers.

    The file system is a map from path to text content. `_timestamp()` is a
    clock read: every call returns the next stamp of an oracle `stampAt`, whose
    stamps never contain "/" (the source formats them as "%Y%m%dT%H%M%SZ").
    Directories are not modelled: `os.path.exists` of a path is "it has content". */
module NetlistPatch {
  import opened Wrappers
  import opened Text
  import Paths

  /** A value `_timestamp()` can return. */
  type Stamp = s: string | '/' !in s

  /** `validate_netlist_syntax(netlist_text)`; `None` is passed as `None`. */
  function ValidateNetlistSyntax(netlistText: Option<string>): (bool, string) {
    var txt := if netlistText.Some? then netlistText.value else "";
    if |txt| < 10 then (false, "netlist too short")
    else
      var lc := Lower(txt);
      var cntControl := Count(lc, ".control");
      var cntEndc := Count(lc, ".endc");
      if (cntControl > 0 || cntEndc > 0) && cntControl != cntEndc then
        (false, "mismatched .control/.endc counts: " + NatToString(cntControl) + "/" + NatToString(cntEndc))
      else if !Contains(lc, ".end") && !Contains(lc, ".endc") then
        (false, "missing .end or .endc")
      else
        (true, "ok")
  }

  /** Every text holding ".endc" also holds ".end", so the second disjunct of
      the terminator test never changes its outcome. */
  lemma EndcHoldsEnd(s: string)
    requires Contains(s, ".endc")
    ensures Contains(s, ".end")
  {
    var i :| 0 <= i <= |s| && StartsAt(s, i, ".endc");
    assert s[i..i + 4] == s[i..i + 5][..4];
    assert StartsAt(s, i, ".end");
  }

  /** The verdict as one condition, both directions: a text is accepted exactly
      when it has at least ten characters, as many ".control" as ".endc" in its
      lower case, and an ".end" in its lower case. An accepted text gets the
      message "ok", a rejected one the reason of the first check it failed. */
  lemma ValidateVerdict(netlistText: Option<string>)
    ensures var txt := if netlistText.Some? then netlistText.value else "";
      var lc := Lower(txt);
      var r := ValidateNetlistSyntax(netlistText);
      && (r.0 <==> |txt| >= 10 && Count(lc, ".control") == Count(lc, ".endc") && Contains(lc, ".end"))
      && (r.0 <==> r.1 == "ok")
      && (|txt| < 10 ==> r.1 == "netlist too short")
      && (|txt| >= 10 && Count(lc, ".control") == Count(lc, ".endc") && !Contains(lc, ".end") ==>
            r.1 == "missing .end or .endc")
  {
    var txt := if netlistText.Some? then netlistText.value else "";
    var lc := Lower(txt);
    if |txt| >= 10 && Contains(lc, ".endc") {
      EndcHoldsEnd(lc);
    }
  }

  /** `pat` does not occur in `s` when each place it could start has a
      character that differs from it. */
  lemma Absent(s: string, pat: string, k: nat)
    requires k < |pat|
    requires forall j :: k <= j && j - k + |pat| <= |s| ==> s[j] != pat[k]
    ensures !Contains(s, pat)
  {
    forall i | 0 <= i <= |s| ensures !StartsAt(s, i, pat) {
      if i + |pat| <= |s| {
        assert s[i..i + |pat|][k] == s[i + k];
      }
    }
  }

  /** A text of ten or more characters whose lower case has a ".control" but
      no ".endc" is rejected. */
  lemma ValidateRejectsUnclosed(txt: string)
    requires |txt| >= 10 && Contains(Lower(txt), ".control") && !Contains(Lower(txt), ".endc")
    ensures !ValidateNetlistSyntax(Some(txt)).0
  {
    CountPositiveIffContains(Lower(txt), ".control");
    CountPositiveIffContains(Lower(txt), ".endc");
    ValidateVerdict(Some(txt));
  }

  /** The ".control" block without its ".endc" of the source's tests is
      rejected. */
  lemma ValidateRejectsUnclosedControl(txt: string)
    requires txt == ".control\nrun\n.end\n"
    ensures !ValidateNetlistSyntax(Some(txt)).0
  {
    UnclosedLower(txt);
    UnclosedNoEndc(txt);
    assert StartsAt(txt, 0, ".control");
    ValidateRejectsUnclosed(txt);
  }

  lemma UnclosedLower(txt: string)
    requires txt == ".control\nrun\n.end\n"
    ensures Lower(txt) == txt
  {
    assert IsLowerFixed(txt);
    LowerOfFixed(txt);
  }

  lemma UnclosedNoEndc(txt: string)
    requires txt == ".control\nrun\n.end\n"
    ensures !Contains(txt, ".endc")
  {
    Absent(txt, ".endc", 4);
  }

  /** `None` and a short text are rejected as too short. */
  lemma ValidateRejectsShort()
    ensures ValidateNetlistSyntax(None) == (false, "netlist too short")
    ensures ValidateNetlistSyntax(Some("bad")) == (false, "netlist too short")
  {
  }

  lemma MinimalNetlistLower(txt: string)
    requires txt == ".title x\n.end\n"
    ensures Lower(txt) == txt
  {
    assert IsLowerFixed(txt);
    LowerOfFixed(txt);
  }

  lemma MinimalNetlistEnd(txt: string)
    requires txt == ".title x\n.end\n"
    ensures Contains(txt, ".end")
  {
    assert StartsAt(txt, 9, ".end");
  }

  lemma MinimalNetlistNoControl(txt: string)
    requires txt == ".title x\n.end\n"
    ensures !Contains(txt, ".control")
  {
    Absent(txt, ".control", 2);
  }

  lemma MinimalNetlistNoEndc(txt: string)
    requires txt == ".title x\n.end\n"
    ensures !Contains(txt, ".endc")
  {
    Absent(txt, ".endc", 4);
  }

  /** A minimal netlist with a title line and ".end" is accepted. */
  lemma ValidateAcceptsMinimalNetlist(txt: string)
    requires txt == ".title x\n.end\n"
    ensures ValidateNetlistSyntax(Some(txt)) == (true, "ok")
  {
    MinimalNetlistLower(txt);
    MinimalNetlistEnd(txt);
    MinimalNetlistNoControl(txt);
    MinimalNetlistNoEndc(txt);
    CountPositiveIffContains(txt, ".control");
    CountPositiveIffContains(txt, ".endc");
    ValidateVerdict(Some(txt));
  }

  /** Number of bytes of `c` in UTF-8. */
  function Utf8Width(c: char): (n: nat)
    ensures 1 <= n <= 4
  {
    if c as int < 0x80 then 1 else if c as int < 0x800 then 2 else if c as int < 0x10000 then 3 else 4
  }

  /** `len(s.encode("utf-8"))` */
  function Utf8Length(s: string): nat {
    if s == [] then 0 else Utf8Width(s[0]) + Utf8Length(s[1..])
  }

  /** A text takes at least one byte per character, and exactly one per
      character when it is ASCII. */
  lemma {:induction false} Utf8LengthBounds(s: string)
    ensures |s| <= Utf8Length(s) <= 4 * |s|
    ensures (forall i :: 0 <= i < |s| ==> s[i] as int < 0x80) ==> Utf8Length(s) == |s|
  {
    if s != [] {
      Utf8LengthBounds(s[1..]);
    }
  }

  /** The file system together with the clock `_timestamp()` reads. */
  datatype Disk = Disk(files: map<string, string>, clock: nat)

  /** `os.path.exists(p)`; the empty path never exists. */
  predicate Exists(files: map<string, string>, p: string) {
    p != [] && p in files
  }

  /** The backup name `make_backup` builds: `<dirname or ".">/<basename>.bak.<ts>`. */
  function BackupPath(path: string, ts: Stamp): string {
    var dirn := if Paths.Dirname(path) == [] then "." else Paths.Dirname(path);
    Paths.Join(dirn, Paths.Basename(path) + ".bak." + ts)
  }

  /** The temporary sibling `apply_netlist_replacement` writes first. */
  function TempPath(path: string, ts: Stamp): string {
    path + ".tmp." + ts
  }

  /** `make_backup(path)`: `FileNotFoundError(path)` for a missing file, else a
      copy of the file under a fresh backup name, which is returned. */
  function MakeBackupSpec(d: Disk, stampAt: nat -> Stamp, path: string): (Result<string, string>, Disk) {
    if !Exists(d.files, path) then (Failure(path), d)
    else
      var bak := BackupPath(path, stampAt(d.clock));
      (Success(bak), Disk(d.files[bak := d.files[path]], d.clock + 1))
  }

  /** `apply_netlist_replacement(path, new_text)`: back up an existing target,
      write the text to a temporary sibling, then rename it over the target.
      Returns the backup path ("" when there was no target) and the byte count.
      For the empty path the rename fails after the temporary file is written. */
  function ApplySpec(d: Disk, stampAt: nat -> Stamp, path: string, newText: string): (Result<(string, nat), string>, Disk) {
    var (b, d1) := if Exists(d.files, path) then MakeBackupSpec(d, stampAt, path) else (Success(""), d);
    var tmp := TempPath(path, stampAt(d1.clock));
    var d2 := Disk(d1.files[tmp := newText], d1.clock + 1);
    if path == [] then
      (Failure("[Errno 2] No such file or directory: '" + tmp + "' -> ''"), d2)
    else
      (Success((b.value, Utf8Length(newText))), Disk((d2.files - {tmp})[path := newText], d2.clock))
  }

  /** `revert_backup(path, backup_path)`: `FileNotFoundError(backup_path)` when
      the backup is missing, `shutil.SameFileError` when both paths name the
      same file, else the backup's content is copied over `path`. */
  function RevertSpec(files: map<string, string>, path: string, backupPath: string): Result<map<string, string>, string> {
    if !Exists(files, backupPath) then Failure(backupPath)
    else if path == backupPath then Failure(SameFile(backupPath, path))
    else if path == [] then Failure("[Errno 2] No such file or directory: ''")
    else Success(files[path := files[backupPath]])
  }

  /** The message of `shutil.SameFileError`; the paths are shown as Python
      `repr`s, taken here to be single-quoted. */
  function SameFile(src: string, dst: string): string {
    "'" + src + "' and '" + dst + "' are the same file"
  }

  lemma BasenameAppend(p: string, suffix: string)
    requires '/' !in suffix
    ensures Paths.Basename(p + suffix) == Paths.Basename(p) + suffix
  {
    var q := p + suffix;
    var i := Paths.SplitIndex(p);
    assert forall j :: i <= j < |q| ==> q[j] != '/' by {
      forall j | i <= j < |q| ensures q[j] != '/' {
        if j >= |p| {
          assert q[j] == suffix[j - |p|];
          assert suffix[j - |p|] in suffix;
        }
      }
    }
    assert i > 0 ==> q[i - 1] == '/';
    var k := Paths.SplitIndex(q);
    assert k == i;
  }

  /** The backup, the temporary file and the target are three different paths. */
  lemma FreshNames(path: string, ts1: Stamp, ts2: Stamp)
    ensures BackupPath(path, ts1) != path
    ensures BackupPath(path, ts1) != TempPath(path, ts2)
    ensures TempPath(path, ts2) != path
  {
    var b := Paths.Basename(path);
    BackupBasename(path, ts1);
    TempBasename(path, ts2);
    assert (b + ".bak." + ts1)[|b| + 1] == 'b';
    assert (b + ".tmp." + ts2)[|b| + 1] == 't';
    assert |Paths.Basename(BackupPath(path, ts1))| > |b|;
    assert |TempPath(path, ts2)| > |path|;
  }

  lemma BackupBasename(path: string, ts: Stamp)
    ensures Paths.Basename(BackupPath(path, ts)) == Paths.Basename(path) + ".bak." + ts
  {
    var dirn := if Paths.Dirname(path) == [] then "." else Paths.Dirname(path);
    var name := Paths.Basename(path) + ".bak." + ts;
    assert forall j :: 0 <= j < |name| ==> name[j] != '/' by {
      forall j | 0 <= j < |name| ensures name[j] != '/' {
        if j >= |Paths.Basename(path)| {
          assert name[j] == (".bak." + ts)[j - |Paths.Basename(path)|];
        }
      }
    }
    Paths.BasenameOfJoin(dirn, name);
  }

  lemma TempBasename(path: string, ts: Stamp)
    ensures Paths.Basename(TempPath(path, ts)) == Paths.Basename(path) + ".tmp." + ts
  {
    assert '/' !in ".tmp." + ts;
    BasenameAppend(path, ".tmp." + ts);
    assert path + ".tmp." + ts == path + (".tmp." + ts);
  }

  /** Over an existing target, apply succeeds, reports the fresh backup name
      and the UTF-8 length of the text, and leaves the files as before except
      that the backup holds the old text, the target the new one, and no
      temporary file is left behind. */
  lemma ApplyOverExisting(d: Disk, stampAt: nat -> Stamp, path: string, newText: string)
    requires Exists(d.files, path)
    ensures var (r, d') := ApplySpec(d, stampAt, path, newText);
      var bak := BackupPath(path, stampAt(d.clock));
      && r == Success((bak, Utf8Length(newText)))
      && bak != "" && bak != path
      && d'.files == (d.files[bak := d.files[path]] - {TempPath(path, stampAt(d.clock + 1))})[path := newText]
      && d'.clock == d.clock + 2
  {
    var ts1, ts2 := stampAt(d.clock), stampAt(d.clock + 1);
    FreshNames(path, ts1, ts2);
    var bak := BackupPath(path, ts1);
    assert bak != [] by {
      BackupBasename(path, ts1);
      assert |Paths.Basename(bak)| > 0;
    }
    var tmp := TempPath(path, ts2);
    var files1 := d.files[bak := d.files[path]];
    ApplySpecOverExisting(d, stampAt, path, newText);
    UpdateThenRemove(files1, tmp, newText);
  }

  /** One unfolding of `ApplySpec` over an existing, non-empty target. */
  lemma ApplySpecOverExisting(d: Disk, stampAt: nat -> Stamp, path: string, newText: string)
    requires Exists(d.files, path)
    ensures var bak, tmp := BackupPath(path, stampAt(d.clock)), TempPath(path, stampAt(d.clock + 1));
      ApplySpec(d, stampAt, path, newText)
        == (Success((bak, Utf8Length(newText))), Disk((d.files[bak := d.files[path]][tmp := newText] - {tmp})[path := newText], d.clock + 2))
  {
    var bak := BackupPath(path, stampAt(d.clock));
    assert MakeBackupSpec(d, stampAt, path) == (Success(bak), Disk(d.files[bak := d.files[path]], d.clock + 1));
  }

  /** Writing a key and then removing it leaves the map without the key. */
  lemma UpdateThenRemove(m: map<string, string>, k: string, v: string)
    ensures m[k := v] - {k} == m - {k}
  {
  }

  /** Over a missing target, apply succeeds with "" as the backup, and the
      target is the only path that gains content. */
  lemma ApplyOverMissing(d: Disk, stampAt: nat -> Stamp, path: string, newText: string)
    requires path != [] && !Exists(d.files, path)
    ensures var (r, d') := ApplySpec(d, stampAt, path, newText);
      && r == Success(("", Utf8Length(newText)))
      && d'.files == (d.files - {TempPath(path, stampAt(d.clock))})[path := newText]
      && d'.clock == d.clock + 1
  {
    var tmp := TempPath(path, stampAt(d.clock));
    assert d.files[tmp := newText] - {tmp} == d.files - {tmp};
  }

  /** Applying a replacement over an existing target and then reverting with
      the returned backup gives the target back its original text; the backup
      copy stays, the temporary file is gone, nothing else changes. */
  lemma ApplyThenRevertRestores(d: Disk, stampAt: nat -> Stamp, path: string, newText: string)
    requires Exists(d.files, path)
    ensures var (r, d') := ApplySpec(d, stampAt, path, newText);
      && r.Success?
      && var back := RevertSpec(d'.files, path, r.value.0);
      && back.Success?
      && back.value[path] == d.files[path]
      && back.value == d.files[r.value.0 := d.files[path]] - {TempPath(path, stampAt(d.clock + 1))}
  {
    ApplyOverExisting(d, stampAt, path, newText);
    var ts1, ts2 := stampAt(d.clock), stampAt(d.clock + 1);
    FreshNames(path, ts1, ts2);
    var bak := BackupPath(path, ts1);
    var tmp := TempPath(path, ts2);
    var saved := d.files[bak := d.files[path]];
    var after := (saved - {tmp})[path := newText];
    assert Exists(after, bak);
    assert RevertSpec(after, path, bak) == Success(after[path := saved[bak]]);
    Restored(saved, tmp, path, newText);
  }

  /** Writing a path and then writing its old content back restores the map. */
  lemma Restored(files: map<string, string>, tmp: string, path: string, newText: string)
    requires path in files && path != tmp
    ensures ((files - {tmp})[path := newText])[path := files[path]] == files - {tmp}
  {
  }

  /** A revert succeeds exactly when the backup exists, is another file than
      the target, and the target path is not empty; it then gives the target
      the backup's content and leaves every other file as it was. */
  lemma RevertMeaning(files: map<string, string>, path: string, backupPath: string)
    ensures var r := RevertSpec(files, path, backupPath);
      && (r.Success? <==> Exists(files, backupPath) && path != backupPath && path != [])
      && (Exists(files, backupPath) && path == backupPath ==> r == Failure(SameFile(path, path)))
      && (r.Success? ==> path in r.value && r.value[path] == files[backupPath])
      && (r.Success? ==> forall q :: q != path ==> (q in r.value <==> q in files) && (q in files ==> r.value[q] == files[q]))
  {
  }

  /** When the target did not exist, apply reports "" as its backup, and
      reverting with that "" fails because the empty path never exists. */
  lemma RevertWithoutBackupFails(d: Disk, stampAt: nat -> Stamp, path: string, newText: string)
    requires path != [] && !Exists(d.files, path)
    ensures var (r, d') := ApplySpec(d, stampAt, path, newText);
      && r.Success? && r.value.0 == ""
      && RevertSpec(d'.files, path, r.value.0) == Failure("")
  {
  }

  /** The file system as the source sees it: path contents and the clock. */
  class FileSystem {
    var files: map<string, string>
    var clock: nat
    const stampAt: nat -> Stamp

    constructor (files0: map<string, string>, stampAt: nat -> Stamp)
      ensures files == files0 && clock == 0 && this.stampAt == stampAt
    {
      files := files0;
      clock := 0;
      this.stampAt := stampAt;
    }

    function State(): Disk
      reads this
    {
      Disk(files, clock)
    }

    /** `_timestamp()` */
    method Timestamp() returns (ts: Stamp)
      modifies this`clock
      ensures ts == stampAt(old(clock)) && clock == old(clock) + 1
    {
      ts := stampAt(clock);
      clock := clock + 1;
    }

    /** `make_backup(path)` */
    method MakeBackup(path: string) returns (r: Result<string, string>)
      modifies this
      ensures (r, State()) == MakeBackupSpec(old(State()), stampAt, path)
    {
      if !Exists(files, path) {
        return Failure(path);
      }
      var dirn := Paths.Dirname(path);
      if dirn == [] {
        dirn := ".";
      }
      var base := Paths.Basename(path);
      var ts := Timestamp();
      var bak := Paths.Join(dirn, base + ".bak." + ts);
      files := files[bak := files[path]];
      return Success(bak);
    }

    /** `apply_netlist_replacement(path, new_text)` */
    method ApplyNetlistReplacement(path: string, newText: string) returns (r: Result<(string, nat), string>)
      modifies this
      ensures (r, State()) == ApplySpec(old(State()), stampAt, path, newText)
    {
      var backup: Option<string> := None;
      if Exists(files, path) {
        var b := MakeBackup(path);
        backup := Some(b.value);
      }
      var ts := Timestamp();
      var tmpPath := path + ".tmp." + ts;
      files := files[tmpPath := newText];
      if path == [] {
        return Failure("[Errno 2] No such file or directory: '" + tmpPath + "' -> ''");
      }
      files := (files - {tmpPath})[path := files[tmpPath]];
      return Success((backup.GetOr(""), Utf8Length(newText)));
    }

    /** `revert_backup(path, backup_path)` */
    method RevertBackup(path: string, backupPath: string) returns (r: Result<(), string>)
      modifies this`files
      ensures RevertSpec(old(files), path, backupPath).Success? <==> r.Success?
      ensures r.Failure? ==> r.error == RevertSpec(old(files), path, backupPath).error && files == old(files)
      ensures r.Success? ==> files == RevertSpec(old(files), path, backupPath).value
    {
      if !Exists(files, backupPath) {
        return Failure(backupPath);
      }
      if path == backupPath {
        return Failure(SameFile(backupPath, path));
      }
      if path == [] {
        return Failure("[Errno 2] No such file or directory: ''");
      }
      files := files[path := files[backupPath]];
      return Success(());
    }
  }
}
