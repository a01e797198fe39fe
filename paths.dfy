/** `eesizer/io/paths.py` and the POSIX `os.path` functions it and the patch
    helpers use. `BASE_DIR` is the absolute current directory at import time; it
    is a parameter here. The `makedirs` calls at import time are left out. */
module Paths {
  import opened Wrappers
  import Text

  /** `os.path.isabs` */
  predicate IsAbs(p: string) {
    |p| > 0 && p[0] == '/'
  }

  /** Index just after the last "/" of `p`, or 0. */
  function SplitIndex(p: string): (i: nat)
    ensures i <= |p|
    ensures i > 0 ==> p[i - 1] == '/'
    ensures forall j :: i <= j < |p| ==> p[j] != '/'
  {
    var r := Text.RFind(p, "/");
    assert forall j :: r < j < |p| ==> p[j] != '/' by {
      forall j | r < j < |p| ensures p[j] != '/' {
        assert !Text.StartsAt(p, j, "/");
        assert p[j..j + 1] == [p[j]];
      }
    }
    r + 1
  }

  /** `os.path.basename` */
  function Basename(p: string): (r: string)
    ensures forall j :: 0 <= j < |r| ==> r[j] != '/'
  {
    p[SplitIndex(p)..]
  }

  predicate AllSlashes(s: string) {
    forall j :: 0 <= j < |s| ==> s[j] == '/'
  }

  function RStripSlashes(s: string): (r: string)
    ensures |r| <= |s| && r == s[..|r|]
  {
    if s != [] && s[|s| - 1] == '/' then RStripSlashes(s[..|s| - 1]) else s
  }

  /** `os.path.dirname`: the part before the last "/", with trailing slashes
      removed unless it consists only of slashes. */
  function Dirname(p: string): string {
    var head := p[..SplitIndex(p)];
    if head != [] && !AllSlashes(head) then RStripSlashes(head) else head
  }

  /** `os.path.join(a, b)` */
  function Join(a: string, b: string): string {
    if IsAbs(b) then b
    else if a == [] || a[|a| - 1] == '/' then a + b
    else a + "/" + b
  }

  /** Joining a name without "/" onto a directory leaves that name as the last
      path component. */
  lemma BasenameOfJoin(dir: string, name: string)
    requires forall j :: 0 <= j < |name| ==> name[j] != '/'
    ensures Basename(Join(dir, name)) == name
  {
    var r := Join(dir, name);
    var k := |r| - |name|;
    assert r[k..] == name;
    assert k > 0 ==> r[k - 1] == '/';
    assert forall j :: k <= j < |r| ==> r[j] == name[j - k];
  }

  /** `OUTPUT_DIR = os.path.join(BASE_DIR, "output")` */
  function OutputDir(baseDir: string): (r: string)
    ensures IsAbs(baseDir) ==> IsAbs(r)
    ensures Basename(r) == "output"
  {
    BasenameOfJoin(baseDir, "output");
    Join(baseDir, "output")
  }

  /** `make_run_dir(run_name)` without the directory creation. */
  function MakeRunDir(baseDir: string, runName: string): string {
    Join(baseDir, runName)
  }

  /** The directory `out_path` places names in: `run_dir` when it is given
      and non-empty, otherwise `OUTPUT_DIR`. */
  function OutBase(baseDir: string, runDir: Option<string>): string {
    if runDir.Some? && runDir.value != [] then runDir.value else OutputDir(baseDir)
  }

  /** `out_path(name, run_dir)` */
  function OutPath(baseDir: string, name: string, runDir: Option<string>): string {
    if IsAbs(name) then name else Join(OutBase(baseDir, runDir), Basename(name))
  }

  lemma BasenameIdempotent(p: string)
    ensures Basename(Basename(p)) == Basename(p)
    ensures !IsAbs(Basename(p))
  {
    var b := Basename(p);
    assert !IsAbs(b) by {
      if |b| > 0 { assert b[0] != '/'; }
    }
    assert Join([], b) == b;
    BasenameOfJoin([], b);
  }

  /** The directory a path names when it is used as one: without its
      trailing slashes, unless it is only slashes. */
  function AsDir(dir: string): string {
    if AllSlashes(dir) then dir else RStripSlashes(dir)
  }

  /** A name without "/" joined onto a non-empty directory has that directory
      as its dirname. */
  lemma DirnameOfJoin(dir: string, name: string)
    requires dir != []
    requires forall j :: 0 <= j < |name| ==> name[j] != '/'
    ensures Dirname(Join(dir, name)) == AsDir(dir)
  {
    var r := Join(dir, name);
    var k := |r| - |name|;
    assert r[k..] == name;
    assert r[k - 1] == '/';
    assert SplitIndex(r) == k;
    var head := r[..k];
    if dir[|dir| - 1] == '/' {
      assert head == dir;
    } else {
      assert head == dir + "/";
      assert head[..|head| - 1] == dir;
      assert head[|dir| - 1] == dir[|dir| - 1] != '/';
    }
  }

  /** A path that ends in something other than "/" names itself as a
      directory. */
  lemma AsDirNoTrailingSlash(dir: string)
    requires dir != [] && dir[|dir| - 1] != '/'
    ensures AsDir(dir) == dir
  {
  }

  /** An absolute name comes back unchanged; a relative one lands directly in
      the chosen base directory under its own last component, so any
      directory part of the name is dropped. The base directory is a
      non-empty `run_dir`, and `OUTPUT_DIR` otherwise. */
  lemma OutPathPlacement(baseDir: string, name: string, runDir: Option<string>)
    ensures IsAbs(name) ==> OutPath(baseDir, name, runDir) == name
    ensures !IsAbs(name) ==> Basename(OutPath(baseDir, name, runDir)) == Basename(name)
    ensures !IsAbs(name) ==> OutPath(baseDir, name, runDir) == OutPath(baseDir, Basename(name), runDir)
    ensures !IsAbs(name) && runDir.Some? && runDir.value != [] ==>
      Dirname(OutPath(baseDir, name, runDir)) == AsDir(runDir.value)
    ensures !IsAbs(name) && (runDir.None? || runDir.value == []) ==>
      Dirname(OutPath(baseDir, name, runDir)) == OutputDir(baseDir)
  {
    if !IsAbs(name) {
      BasenameOfJoin(OutBase(baseDir, runDir), Basename(name));
      BasenameIdempotent(name);
      DirnameOfJoin(OutBase(baseDir, runDir), Basename(name));
      OutputDirAsDir(baseDir);
    }
  }

  /** `OUTPUT_DIR` ends in "output", so it names itself as a directory. */
  lemma OutputDirAsDir(baseDir: string)
    ensures AsDir(OutputDir(baseDir)) == OutputDir(baseDir)
  {
    var out := OutputDir(baseDir);
    var b := Basename(out);
    assert b == "output";
    assert out[|out| - 1] == b[|b| - 1];
    AsDirNoTrailingSlash(out);
  }

  /** Without a run directory (or with an empty one) the path falls under
      `OUTPUT_DIR`, which for an absolute `BASE_DIR` makes it absolute. */
  lemma OutPathDefaultsToOutputDir(baseDir: string, name: string)
    requires IsAbs(baseDir)
    ensures IsAbs(OutPath(baseDir, name, None))
    ensures OutPath(baseDir, name, Some("")) == OutPath(baseDir, name, None)
  {
  }
}
