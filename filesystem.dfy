/**
 * The filesystem as the kit code sees it through Filesystem::*: a state value
 * (what exists, which directories are valid kits, which kit names are known,
 * the documents that read back, and the log of mutating calls issued) and an
 * environment that fixes the results the mutating calls report.
 */
module FileSystem {
  import opened Document

  /** A mutating filesystem call, as issued. */
  datatype Effect =
    | MakeDir(path: string)
    | WriteDoc(path: string, doc: XmlDoc)
    | CopyFile(src: string, dst: string)
    | RemoveTree(path: string)

  /**
   * Everything the kit code asks of the filesystem that it cannot see:
   * the user kit directory, drumkit_file's naming, and what mkdir, the
   * document write, file_copy and rm report for each argument.
   */
  datatype Env = Env(usrDrumkitsDir: string,
                     drumkitFile: string -> string,
                     mkdirOk: string -> bool,
                     writeOk: string -> bool,
                     copyOk: (string, string) -> bool,
                     rmOk: string -> bool)

  datatype Disk = Disk(files: set<string>,            // file_exists
                       validKits: set<string>,        // drumkit_valid
                       installed: set<string>,        // drumkit_exists, by kit name
                       docs: map<string, XmlDoc>,     // documents that read and validate
                       log: seq<Effect>)

  /** The boolean a call reports and the filesystem after it. */
  datatype Outcome = Outcome(ok: bool, disk: Disk)

  /** usr_drumkits_dir() + "/" + name. */
  function KitDir(env: Env, name: string): (dir: string)
    ensures env.usrDrumkitsDir + "/" <= dir
  {
    env.usrDrumkitsDir + "/" + name
  }

  function Mkdir(env: Env, d: Disk, dir: string): (r: Outcome)
    ensures r.ok == env.mkdirOk(dir) && r.disk.log == d.log + [MakeDir(dir)]
    ensures r.disk == d.(files := r.disk.files, log := r.disk.log) && d.files <= r.disk.files
  {
    var ok := env.mkdirOk(dir);
    Outcome(ok, d.(files := if ok then d.files + {dir} else d.files, log := d.log + [MakeDir(dir)]))
  }

  function Write(env: Env, d: Disk, path: string, doc: XmlDoc): (r: Outcome)
    ensures r.ok == env.writeOk(path) && r.disk.log == d.log + [WriteDoc(path, doc)]
    ensures r.ok ==> path in r.disk.files && path in r.disk.docs && r.disk.docs[path] == doc
    ensures !r.ok ==> r.disk.docs == d.docs
  {
    var ok := env.writeOk(path);
    Outcome(ok, d.(files := if ok then d.files + {path} else d.files,
                   docs := if ok then d.docs[path := doc] else d.docs,
                   log := d.log + [WriteDoc(path, doc)]))
  }

  function Copy(env: Env, d: Disk, src: string, dst: string): (r: Outcome)
    ensures r.ok == env.copyOk(src, dst) && r.disk.log == d.log + [CopyFile(src, dst)]
    ensures r.disk == d.(files := r.disk.files, log := r.disk.log) && d.files <= r.disk.files
  {
    var ok := env.copyOk(src, dst);
    Outcome(ok, d.(files := if ok then d.files + {dst} else d.files, log := d.log + [CopyFile(src, dst)]))
  }

  /** `p` is `root` or lies below it. */
  predicate Under(root: string, p: string)
  {
    p == root || root + "/" <= p
  }

  /** rm(root, true): on success everything at or below `root` is gone. */
  function Rm(env: Env, d: Disk, root: string): (r: Outcome)
    ensures r.ok == env.rmOk(root) && r.disk.log == d.log + [RemoveTree(root)]
    ensures r.disk.installed == d.installed
    ensures forall p :: p in d.files && !Under(root, p) ==> p in r.disk.files
    ensures forall p :: p in d.validKits && !Under(root, p) ==> p in r.disk.validKits
    ensures forall p :: p in d.docs && !Under(root, p) ==> p in r.disk.docs && r.disk.docs[p] == d.docs[p]
    ensures r.disk.validKits <= d.validKits && r.disk.files <= d.files
    ensures forall p :: p in r.disk.docs ==> p in d.docs && r.disk.docs[p] == d.docs[p]
    ensures r.ok ==> forall p :: p in r.disk.files || p in r.disk.validKits || p in r.disk.docs ==> !Under(root, p)
    ensures !r.ok ==> r.disk == d.(log := r.disk.log)
  {
    var ok := env.rmOk(root);
    var d' := d.(log := d.log + [RemoveTree(root)]);
    if !ok then Outcome(false, d')
    else
      Outcome(true, d'.(files := (set p | p in d.files && !Under(root, p)),
                        validKits := (set p | p in d.validKits && !Under(root, p)),
                        docs := (map p | p in d.docs && !Under(root, p) :: d.docs[p])))
  }

  /** Copies srcDir/f to dstDir/f for each f in turn, stopping at the first copy that fails. */
  function CopyRun(env: Env, d: Disk, srcDir: string, dstDir: string, files: seq<string>): (r: Outcome)
    ensures r.disk == d.(files := r.disk.files, log := r.disk.log)
    ensures d.files <= r.disk.files
    ensures files == [] ==> r == Outcome(true, d)
    decreases files
  {
    if files == [] then Outcome(true, d)
    else
      var c := Copy(env, d, srcDir + "/" + files[0], dstDir + "/" + files[0]);
      if !c.ok then c else CopyRun(env, c.disk, srcDir, dstDir, files[1..])
  }

  /** One step of CopyRun: the first copy, then the rest only if it succeeded. */
  lemma CopyRunCons(env: Env, d: Disk, srcDir: string, dstDir: string, f: string, rest: seq<string>)
    ensures var c := Copy(env, d, srcDir + "/" + f, dstDir + "/" + f);
            CopyRun(env, d, srcDir, dstDir, [f] + rest) == if c.ok then CopyRun(env, c.disk, srcDir, dstDir, rest) else c
  {
    assert ([f] + rest)[0] == f && ([f] + rest)[1..] == rest;
  }

  /** The copy calls for `files`, in order. */
  function CopyCalls(srcDir: string, dstDir: string, files: seq<string>): (calls: seq<Effect>)
    ensures |calls| == |files|
    ensures forall j :: 0 <= j < |files| ==> calls[j] == CopyFile(srcDir + "/" + files[j], dstDir + "/" + files[j])
  {
    if files == [] then [] else [CopyFile(srcDir + "/" + files[0], dstDir + "/" + files[0])] + CopyCalls(srcDir, dstDir, files[1..])
  }

  /** Copying `f` from srcDir to dstDir succeeds. */
  predicate CopyOk(env: Env, srcDir: string, dstDir: string, f: string)
  {
    env.copyOk(srcDir + "/" + f, dstDir + "/" + f)
  }

  /** How many copies CopyRun attempts: up to and including the first failing one. */
  function Attempted(env: Env, srcDir: string, dstDir: string, files: seq<string>): (k: nat)
    ensures k <= |files|
  {
    if files == [] then 0
    else if !CopyOk(env, srcDir, dstDir, files[0]) then 1
    else 1 + Attempted(env, srcDir, dstDir, files[1..])
  }

  /**
   * The copies performed are a prefix of the list: every one up to and
   * including the first failure. Nothing but the log and the set of files changes.
   */
  lemma {:induction false} CopyRunLog(env: Env, d: Disk, srcDir: string, dstDir: string, files: seq<string>)
    ensures var r := CopyRun(env, d, srcDir, dstDir, files);
            && r.disk.log == d.log + CopyCalls(srcDir, dstDir, files[..Attempted(env, srcDir, dstDir, files)])
            && d.files <= r.disk.files
            && r.disk == d.(files := r.disk.files, log := r.disk.log)
    decreases files
  {
    if files != [] {
      var c := Copy(env, d, srcDir + "/" + files[0], dstDir + "/" + files[0]);
      if c.ok {
        CopyRunLog(env, c.disk, srcDir, dstDir, files[1..]);
        var k := Attempted(env, srcDir, dstDir, files[1..]);
        assert files[..k + 1] == [files[0]] + files[1..][..k];
        assert CopyCalls(srcDir, dstDir, files[..k + 1])
            == [CopyFile(srcDir + "/" + files[0], dstDir + "/" + files[0])] + CopyCalls(srcDir, dstDir, files[1..][..k]);
      } else {
        assert files[..1] == [files[0]];
        assert CopyCalls(srcDir, dstDir, files[..1]) == [CopyFile(srcDir + "/" + files[0], dstDir + "/" + files[0])];
      }
    }
  }

  /**
   * The run succeeds exactly when every copy does; when it fails, the last copy
   * attempted is the first one that failed.
   */
  lemma {:induction false} CopyRunResult(env: Env, d: Disk, srcDir: string, dstDir: string, files: seq<string>)
    ensures var r := CopyRun(env, d, srcDir, dstDir, files);
            var k := Attempted(env, srcDir, dstDir, files);
            && (r.ok <==> forall j :: 0 <= j < |files| ==> CopyOk(env, srcDir, dstDir, files[j]))
            && (r.ok ==> k == |files|)
            && (!r.ok ==> 0 < k && !CopyOk(env, srcDir, dstDir, files[k - 1])
                          && forall j :: 0 <= j < k - 1 ==> CopyOk(env, srcDir, dstDir, files[j]))
    decreases files
  {
    if files != [] {
      var c := Copy(env, d, srcDir + "/" + files[0], dstDir + "/" + files[0]);
      if c.ok {
        CopyRunResult(env, c.disk, srcDir, dstDir, files[1..]);
        assert forall j :: 0 < j < |files| ==> files[1..][j - 1] == files[j];
      }
    }
  }

  /** Running the copies of `a + b` is running those of `a` and then, if all succeeded, those of `b`. */
  lemma {:induction false} CopyRunAppend(env: Env, d: Disk, srcDir: string, dstDir: string, a: seq<string>, b: seq<string>)
    ensures var r := CopyRun(env, d, srcDir, dstDir, a);
            CopyRun(env, d, srcDir, dstDir, a + b) == if r.ok then CopyRun(env, r.disk, srcDir, dstDir, b) else r
    decreases a
  {
    if a == [] {
      assert a + b == b;
    } else {
      assert (a + b)[0] == a[0];
      assert (a + b)[1..] == a[1..] + b;
      var c := Copy(env, d, srcDir + "/" + a[0], dstDir + "/" + a[0]);
      if c.ok {
        CopyRunAppend(env, c.disk, srcDir, dstDir, a[1..], b);
      }
    }
  }
}
