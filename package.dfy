/**
 * What saving a kit does to the filesystem, as functions of the filesystem
 * before the call: save_file's overwrite gate and write, save_samples' copy
 * loop, and save's orchestration of the two.
 */
module Package {
  import opened Wrappers
  import opened Instruments
  import opened Paths
  import opened KitCodec
  import opened FileSystem

  /** Drumkit::save_file(path, overwrite) for a kit with metadata `m`. */
  function SaveFileOutcome(env: Env, d: Disk, path: string, overwrite: bool, m: Metadata): (r: Outcome)
    ensures r.ok <==> !(path in d.files && !overwrite) && env.writeOk(path)
    ensures r.ok ==> path in r.disk.docs && r.disk.docs[path] == DrumkitDoc(m)
    ensures !r.ok ==> r.disk.docs == d.docs
    ensures r.disk.validKits == d.validKits && r.disk.installed == d.installed
  {
    if path in d.files && !overwrite then Outcome(false, d)
    else Write(env, d, path, DrumkitDoc(m))
  }

  /**
   * Drumkit::save_samples(dkDir) for a kit whose document is at `kitPath`:
   * create dkDir, then copy each occupied layer's sample from the kit's base
   * directory into it, stopping at the first failed copy.
   */
  function SaveSamplesOutcome(env: Env, d: Disk, kitPath: string, dkDir: string, items: seq<Instrument>): (r: Outcome)
    ensures r.ok ==> env.mkdirOk(dkDir)
    ensures r.disk == d.(files := r.disk.files, log := r.disk.log) && d.files <= r.disk.files
  {
    var mk := Mkdir(env, d, dkDir);
    if !mk.ok then mk else CopyRun(env, mk.disk, BaseDir(kitPath), dkDir, SampleFiles(items))
  }

  /** The kit name is taken and overwriting was not asked for. */
  predicate Refused(d: Disk, name: string, overwrite: bool)
  {
    name in d.installed && !overwrite
  }

  /** Drumkit::save(overwrite) for a kit whose document is at `kitPath`. */
  function SaveOutcome(env: Env, d: Disk, kitPath: string, m: Metadata, overwrite: bool): (r: Outcome)
    ensures Refused(d, m.name, overwrite) ==> r == Outcome(false, d)
    ensures r.ok ==> !Refused(d, m.name, overwrite) && env.mkdirOk(KitDir(env, m.name))
                     && env.writeOk(env.drumkitFile(KitDir(env, m.name)))
    ensures r.disk.validKits == d.validKits && r.disk.installed == d.installed
  {
    if Refused(d, m.name, overwrite) then Outcome(false, d)
    else
      var dkDir := KitDir(env, m.name);
      var mk := Mkdir(env, d, dkDir);
      if !mk.ok then mk
      else
        var f := SaveFileOutcome(env, mk.disk, env.drumkitFile(dkDir), overwrite, m);
        if !f.ok then f else SaveSamplesOutcome(env, f.disk, kitPath, dkDir, m.instruments)
  }

  /** save(overwrite) reaches save_to, the first point where it reads the instrument list. */
  predicate SaveEncodes(env: Env, d: Disk, name: string, overwrite: bool)
  {
    var dkDir := KitDir(env, name);
    && !Refused(d, name, overwrite)
    && env.mkdirOk(dkDir)
    && !(env.drumkitFile(dkDir) in d.files + {dkDir} && !overwrite)
  }

  /** save_file writes nothing when the target exists and overwriting was not asked for. */
  lemma SaveFileRefusesExisting(env: Env, d: Disk, path: string, m: Metadata)
    requires path in d.files
    ensures SaveFileOutcome(env, d, path, false, m) == Outcome(false, d)
  {
  }

  /**
   * Otherwise save_file issues exactly one write of the kit's document, reports
   * that write's result, and a kit with a name can then be loaded back from it.
   */
  lemma SaveFileWrites(env: Env, d: Disk, path: string, overwrite: bool, m: Metadata)
    requires path !in d.files || overwrite
    ensures var r := SaveFileOutcome(env, d, path, overwrite, m);
            && r.ok == env.writeOk(path)
            && r.disk.log == d.log + [WriteDoc(path, DrumkitDoc(m))]
            && (r.ok && m.name != "" ==> LoadFileResult(r.disk.docs, path) == Some(Reloaded(m)))
            && (!r.ok ==> r.disk.docs == d.docs)
  {
    if env.writeOk(path) && m.name != "" {
      SavedDocumentLoads(d.docs, path, m);
    }
  }

  /** The mkdir-then-copy sequence of save_samples, for any list of file names. */
  lemma MkdirThenCopy(env: Env, d: Disk, src: string, dkDir: string, files: seq<string>)
    ensures var mk := Mkdir(env, d, dkDir);
            var r := if !mk.ok then mk else CopyRun(env, mk.disk, src, dkDir, files);
            && (r.ok <==> env.mkdirOk(dkDir) && forall j :: 0 <= j < |files| ==> CopyOk(env, src, dkDir, files[j]))
            && (!env.mkdirOk(dkDir) ==> r.disk.log == d.log + [MakeDir(dkDir)])
            && (env.mkdirOk(dkDir) ==>
                  r.disk.log == d.log + [MakeDir(dkDir)] + CopyCalls(src, dkDir, files[..Attempted(env, src, dkDir, files)]))
            && r.disk.docs == d.docs
  {
    var mk := Mkdir(env, d, dkDir);
    if mk.ok {
      CopyRunLog(env, mk.disk, src, dkDir, files);
      CopyRunResult(env, mk.disk, src, dkDir, files);
    }
  }

  /**
   * save_samples: one mkdir of the target, then the copies of the occupied
   * layers, src and dst each being the directory joined to the sample's file
   * name; they stop at the first failure, and the call succeeds exactly when the
   * mkdir and every copy do.
   */
  lemma SaveSamplesCopies(env: Env, d: Disk, kitPath: string, dkDir: string, items: seq<Instrument>)
    ensures var r := SaveSamplesOutcome(env, d, kitPath, dkDir, items);
            var files := SampleFiles(items);
            var src := BaseDir(kitPath);
            && (r.ok <==> env.mkdirOk(dkDir) && forall j :: 0 <= j < |files| ==> CopyOk(env, src, dkDir, files[j]))
            && (!env.mkdirOk(dkDir) ==> r.disk.log == d.log + [MakeDir(dkDir)])
            && (env.mkdirOk(dkDir) ==>
                  r.disk.log == d.log + [MakeDir(dkDir)] + CopyCalls(src, dkDir, files[..Attempted(env, src, dkDir, files)]))
            && r.disk.docs == d.docs
  {
    var mk := Mkdir(env, d, dkDir);
    assert SaveSamplesOutcome(env, d, kitPath, dkDir, items)
        == if !mk.ok then mk else CopyRun(env, mk.disk, BaseDir(kitPath), dkDir, SampleFiles(items));
    MkdirThenCopy(env, d, BaseDir(kitPath), dkDir, SampleFiles(items));
  }

  /** save leaves the filesystem untouched when the name is taken and overwriting was not asked for. */
  lemma SaveRefusesExisting(env: Env, d: Disk, kitPath: string, m: Metadata)
    requires m.name in d.installed
    ensures SaveOutcome(env, d, kitPath, m, false) == Outcome(false, d)
  {
  }

  /** No effect in `effects` is a file copy. */
  predicate NoCopies(effects: seq<Effect>)
  {
    forall j :: 0 <= j < |effects| ==> !effects[j].CopyFile?
  }

  /**
   * The orchestration of save: mkdir, then the document write, then
   * save_samples. No sample is copied unless the document was written, and the
   * call succeeds exactly when every step does.
   */
  lemma SaveOrder(env: Env, d: Disk, kitPath: string, m: Metadata, overwrite: bool)
    requires !Refused(d, m.name, overwrite)
    ensures var r := SaveOutcome(env, d, kitPath, m, overwrite);
            var dkDir := KitDir(env, m.name);
            var file := env.drumkitFile(dkDir);
            var files := SampleFiles(m.instruments);
            var written := SaveEncodes(env, d, m.name, overwrite) && env.writeOk(file);
            && |r.disk.log| > |d.log| && r.disk.log[..|d.log| + 1] == d.log + [MakeDir(dkDir)]
            && (!env.mkdirOk(dkDir) ==> !r.ok && r.disk.log == d.log + [MakeDir(dkDir)])
            && (!written ==> !r.ok && NoCopies(r.disk.log[|d.log|..]))
            && (written ==> |r.disk.log| >= |d.log| + 3 && r.disk.log[..|d.log| + 3] == d.log + [MakeDir(dkDir), WriteDoc(file, DrumkitDoc(m)), MakeDir(dkDir)])
            && (r.ok <==> written && env.mkdirOk(dkDir)
                               && forall j :: 0 <= j < |files| ==> CopyOk(env, BaseDir(kitPath), dkDir, files[j]))
  {
    var dkDir := KitDir(env, m.name);
    var mk := Mkdir(env, d, dkDir);
    if mk.ok {
      var file := env.drumkitFile(dkDir);
      var f := SaveFileOutcome(env, mk.disk, file, overwrite, m);
      if f.ok {
        SaveSamplesCopies(env, f.disk, kitPath, dkDir, m.instruments);
        var r := SaveOutcome(env, d, kitPath, m, overwrite);
        assert r.disk.log[..|d.log| + 3] == (d.log + [MakeDir(dkDir), WriteDoc(file, DrumkitDoc(m)), MakeDir(dkDir)] + r.disk.log[|d.log| + 3..])[..|d.log| + 3];
      } else {
        var r := SaveOutcome(env, d, kitPath, m, overwrite);
        if file in mk.disk.files && !overwrite {
          assert r.disk.log[|d.log|..] == [MakeDir(dkDir)];
        } else {
          assert r.disk.log[|d.log|..] == [MakeDir(dkDir), WriteDoc(file, DrumkitDoc(m))];
        }
      }
    } else {
      var r := SaveOutcome(env, d, kitPath, m, overwrite);
      assert r.disk.log[|d.log|..] == [MakeDir(dkDir)];
    }
  }

  /**
   * Drumkit::load(dkDir) with the corrected load_file: only a directory that
   * drumkit_valid accepts is read, from the document drumkit_file names in it.
   */
  function LoadDirResult(env: Env, d: Disk, dkDir: string): (r: Option<Metadata>)
    ensures r.Some? ==> dkDir in d.validKits && r.value.name != ""
    ensures dkDir in d.validKits ==> r == LoadFileResult(d.docs, env.drumkitFile(dkDir))
  {
    if dkDir !in d.validKits then None else LoadFileResult(d.docs, env.drumkitFile(dkDir))
  }

  /** Drumkit::remove(name): rm(usr_drumkits_dir/name, true), only on a directory drumkit_valid accepts. */
  function RemoveOutcome(env: Env, d: Disk, name: string): (r: Outcome)
    ensures r.ok <==> KitDir(env, name) in d.validKits && env.rmOk(KitDir(env, name))
    ensures r.disk.installed == d.installed
  {
    var dir := KitDir(env, name);
    if dir !in d.validKits then Outcome(false, d) else Rm(env, d, dir)
  }

  /**
   * remove never deletes a directory that is not a valid kit; on a valid one
   * it issues exactly one recursive rm, reports its result, and on success
   * nothing at or below the kit directory is left. Whatever lies outside the
   * kit directory stays: its files, its valid kit directories, its documents
   * (unchanged) and the installed names.
   */
  lemma RemoveGuarded(env: Env, d: Disk, name: string)
    ensures var dir := KitDir(env, name);
            var r := RemoveOutcome(env, d, name);
            && (dir !in d.validKits ==> r == Outcome(false, d))
            && (dir in d.validKits ==> r.ok == env.rmOk(dir) && r.disk.log == d.log + [RemoveTree(dir)])
            && (r.ok ==> forall p :: p in r.disk.files ==> !Under(dir, p))
            && (r.ok ==> dir !in r.disk.validKits && LoadDirResult(env, r.disk, dir).None?)
            && (forall p :: p in d.files && !Under(dir, p) ==> p in r.disk.files)
            && (forall p :: p in d.validKits && !Under(dir, p) ==> p in r.disk.validKits)
            && (forall p :: p in d.docs && !Under(dir, p) ==> p in r.disk.docs && r.disk.docs[p] == d.docs[p])
            && r.disk.installed == d.installed
  {
  }

  /**
   * Removing one kit leaves what loads from any other kit directory as it
   * was, when neither that directory nor its document lies below the removed one.
   */
  lemma RemoveKeepsOtherKits(env: Env, d: Disk, name: string, other: string)
    requires !Under(KitDir(env, name), other) && !Under(KitDir(env, name), env.drumkitFile(other))
    ensures LoadDirResult(env, RemoveOutcome(env, d, name).disk, other) == LoadDirResult(env, d, other)
  {
    var dir := KitDir(env, name);
    var r := RemoveOutcome(env, d, name);
    var file := env.drumkitFile(other);
    assert other in r.disk.validKits <==> other in d.validKits;
    assert file in r.disk.docs <==> file in d.docs;
    if file in d.docs {
      assert r.disk.docs[file] == d.docs[file];
    }
  }

  /**
   * The convenience save's transient kit has an empty path, so its base
   * directory is empty and each sample is copied from "/" + its file name:
   * such a save succeeds exactly when, besides the mkdir and write, every copy
   * from the filesystem root succeeds.
   */
  lemma EmptyPathCopiesFromRoot(env: Env, d: Disk, m: Metadata, overwrite: bool)
    requires !Refused(d, m.name, overwrite)
    ensures var dkDir := KitDir(env, m.name);
            var files := SampleFiles(m.instruments);
            SaveOutcome(env, d, "", m, overwrite).ok <==>
              && SaveEncodes(env, d, m.name, overwrite) && env.writeOk(env.drumkitFile(dkDir))
              && env.mkdirOk(dkDir)
              && forall j :: 0 <= j < |files| ==> env.copyOk("/" + files[j], dkDir + "/" + files[j])
  {
    SaveOrder(env, d, "", m, overwrite);
    assert BaseDir("") == "";
    var dkDir := KitDir(env, m.name);
    var files := SampleFiles(m.instruments);
    forall j | 0 <= j < |files|
      ensures CopyOk(env, BaseDir(""), dkDir, files[j]) == env.copyOk("/" + files[j], dkDir + "/" + files[j])
    {
      assert "" + "/" + files[j] == "/" + files[j];
    }
  }

  /**
   * When drumkit_file names a file directly inside the kit directory, a kit
   * loaded from that directory has the directory itself as its base, so
   * load_samples reads from where save_samples copied to.
   */
  lemma LoadedKitBaseDir(env: Env, dkDir: string, fileName: string)
    requires env.drumkitFile(dkDir) == dkDir + "/" + fileName && '/' !in fileName
    ensures BaseDir(env.drumkitFile(dkDir)) == dkDir
  {
    BaseDirOfJoin(dkDir, fileName);
  }

  /**
   * A kit with a name saved successfully loads back from the document
   * drumkit_file names in its directory, with the same metadata (empty author,
   * info or license defaulted): the sample copies after the document write
   * never touch the documents. Loading the directory itself gives the same
   * whenever drumkit_valid accepts it.
   */
  lemma SaveThenLoad(env: Env, d: Disk, kitPath: string, m: Metadata, overwrite: bool)
    requires m.name != ""
    ensures var r := SaveOutcome(env, d, kitPath, m, overwrite);
            var dkDir := KitDir(env, m.name);
            && (r.ok ==> LoadFileResult(r.disk.docs, env.drumkitFile(dkDir)) == Some(Reloaded(m)))
            && (r.ok && dkDir in r.disk.validKits ==> LoadDirResult(env, r.disk, dkDir) == Some(Reloaded(m)))
  {
    var r := SaveOutcome(env, d, kitPath, m, overwrite);
    if r.ok && !Refused(d, m.name, overwrite) {
      var dkDir := KitDir(env, m.name);
      var mk := Mkdir(env, d, dkDir);
      var file := env.drumkitFile(dkDir);
      var f := SaveFileOutcome(env, mk.disk, file, overwrite, m);
      SaveFileWrites(env, mk.disk, file, overwrite, m);
      SaveSamplesCopies(env, f.disk, kitPath, dkDir, m.instruments);
      assert r.disk.docs == f.disk.docs;
      assert LoadFileResult(r.disk.docs, file) == Some(Reloaded(m));
    }
  }
}
