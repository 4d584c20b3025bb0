/**
 * The Drumkit object: its fields, its constructors and destructor, the
 * loaders that create it, the loaded/unloaded sample state machine, and the
 * save operations that read its fields and drive the filesystem.
 */
module Kit {
  import opened Wrappers
  import opened Instruments
  import opened Document
  import opened Paths
  import opened KitCodec
  import opened FileSystem
  import opened Package

  class Drumkit {
    var path: string
    var name: string
    var author: string
    var info: string
    var license: string
    var samplesLoaded: bool
    /** The owned instrument list; null until one is set. */
    var instruments: InstrumentList?

    /** The list's instruments, or none while no list is set. */
    function Items(): (r: seq<Instrument>)
      reads this, instruments
    {
      if instruments == null then [] else instruments.items
    }

    /** The fields save_to writes. */
    function Meta(): (m: Metadata)
      reads this, instruments
      ensures m.name == name && m.author == author && m.info == info && m.license == license
      ensures m.instruments == Items()
    {
      Metadata(name, author, info, license, Items())
    }

    /** Drumkit(): empty fields, samples not loaded, no instrument list. */
    constructor ()
      ensures path == "" && name == "" && author == "" && info == "" && license == ""
      ensures !samplesLoaded && instruments == null
    {
      path, name, author, info, license := "", "", "", "", "";
      samplesLoaded := false;
      instruments := null;
    }

    /**
     * Drumkit(Drumkit* other): every scalar field is copied, the loaded flag
     * included, and the instrument list is a new list with the same contents.
     */
    constructor Copy(other: Drumkit)
      requires other.instruments != null
      ensures path == other.path && name == other.name && author == other.author
      ensures info == other.info && license == other.license && samplesLoaded == other.samplesLoaded
      ensures instruments != null && fresh(instruments) && instruments != other.instruments
      ensures instruments.items == other.instruments.items && instruments.live
    {
      path, name, author, info, license := other.path, other.name, other.author, other.info, other.license;
      samplesLoaded := other.samplesLoaded;
      instruments := new InstrumentList(other.instruments.items);
    }

    /** ~Drumkit(): deletes the instrument list when one is set, and nothing else. */
    method Release()
      requires instruments != null ==> instruments.live
      modifies instruments
      ensures instruments == old(instruments)
      ensures instruments != null ==> !instruments.live && instruments.items == old(instruments.items)
    {
      if instruments != null {
        instruments.Delete();
      }
    }

    /** set_instruments: the kit points at `list`; the list it held is not deleted. */
    method SetInstruments(list: InstrumentList?)
      modifies this`instruments
      ensures instruments == list
    {
      instruments := list;
    }

    /** Drumkit::load_from: a new kit when the node has a name, null otherwise. */
    static method LoadFrom(node: Node) returns (kit: Drumkit?)
      ensures kit == null <==> KitCodec.LoadFrom(node).None?
      ensures kit != null ==> fresh(kit) && fresh(kit.instruments) && kit.instruments != null
      ensures kit != null ==> Some(kit.Meta()) == KitCodec.LoadFrom(node)
      ensures kit != null ==> kit.path == "" && !kit.samplesLoaded && kit.instruments.live
    {
      var name := ReadString(node, "name", "");
      if name == "" {
        return null;
      }
      kit := new Drumkit();
      kit.name := name;
      kit.author := ReadString(node, "author", DefaultAuthor);
      kit.info := ReadString(node, "info", DefaultInfo);
      kit.license := ReadString(node, "license", DefaultLicense);
      kit.samplesLoaded := false;
      var list;
      match node.instrumentList {
        case None =>
          list := new InstrumentList([]);
        case Some(items) =>
          list := new InstrumentList(items);
      }
      kit.SetInstruments(list);
    }

    /**
     * Drumkit::load_file, with the null test on load_from's result that the
     * source omits: the kit read from the document at `dkPath`, stamped with
     * that path.
     */
    static method LoadFile(docs: map<string, XmlDoc>, dkPath: string) returns (kit: Drumkit?)
      ensures kit == null <==> LoadFileResult(docs, dkPath).None?
      ensures kit != null ==> fresh(kit) && kit.instruments != null && fresh(kit.instruments)
      ensures kit != null ==> Some(kit.Meta()) == LoadFileResult(docs, dkPath)
      ensures kit != null ==> kit.path == dkPath && !kit.samplesLoaded
    {
      if dkPath !in docs || docs[dkPath].rootName != RootTag {
        return null;
      }
      kit := LoadFrom(docs[dkPath].root);
      if kit != null {
        kit.path := dkPath;
      }
    }

    /** Drumkit::load: a kit only from a directory that drumkit_valid accepts. */
    static method Load(env: Env, d: Disk, dkDir: string) returns (kit: Drumkit?)
      ensures kit == null <==> LoadDirResult(env, d, dkDir).None?
      ensures kit != null ==> fresh(kit) && kit.instruments != null && fresh(kit.instruments)
      ensures kit != null ==> Some(kit.Meta()) == LoadDirResult(env, d, dkDir)
      ensures kit != null ==> kit.path == env.drumkitFile(dkDir) && !kit.samplesLoaded
    {
      if dkDir !in d.validKits {
        return null;
      }
      kit := LoadFile(d.docs, env.drumkitFile(dkDir));
    }

    /**
     * Drumkit::load_samples. Already loaded: success, and the list is not
     * asked. Otherwise the list loads from the kit's base directory and the
     * flag becomes true exactly when it reports success (`outcome`).
     */
    method LoadSamples(outcome: bool) returns (ok: bool)
      requires !samplesLoaded ==> instruments != null
      modifies this`samplesLoaded, (if instruments == null then {} else {instruments})`sampleCalls
      ensures ok == (old(samplesLoaded) || outcome)
      ensures samplesLoaded == ok
      ensures old(samplesLoaded) ==> instruments == null || instruments.sampleCalls == old(instruments.sampleCalls)
      ensures !old(samplesLoaded) ==> instruments.sampleCalls == old(instruments.sampleCalls) + [LoadAll(BaseDir(path))]
    {
      if samplesLoaded {
        return true;
      }
      ok := instruments.LoadSamples(Left(path, LastIndexOf(path, '/')), outcome);
      if ok {
        samplesLoaded := true;
      }
    }

    /**
     * Drumkit::unload_samples. Not loaded: success, and the list is not
     * asked. Otherwise the list unloads and the flag becomes false exactly
     * when it reports success (`outcome`).
     */
    method UnloadSamples(outcome: bool) returns (ok: bool)
      requires samplesLoaded ==> instruments != null
      modifies this`samplesLoaded, (if instruments == null then {} else {instruments})`sampleCalls
      ensures ok == (!old(samplesLoaded) || outcome)
      ensures samplesLoaded == !ok
      ensures !old(samplesLoaded) ==> instruments == null || instruments.sampleCalls == old(instruments.sampleCalls)
      ensures old(samplesLoaded) ==> instruments.sampleCalls == old(instruments.sampleCalls) + [UnloadAll]
    {
      if !samplesLoaded {
        return true;
      }
      ok := instruments.UnloadSamples(outcome);
      if ok {
        samplesLoaded := false;
      }
    }

    /**
     * Drumkit::save_file: refuses an existing file unless overwriting, and
     * otherwise writes the drumkit_info document of this kit.
     */
    method SaveFile(env: Env, d: Disk, dkPath: string, overwrite: bool) returns (ok: bool, disk: Disk)
      requires instruments != null || (dkPath in d.files && !overwrite)
      ensures Outcome(ok, disk) == SaveFileOutcome(env, d, dkPath, overwrite, Meta())
    {
      if dkPath in d.files && !overwrite {
        return false, d;
      }
      var root := SaveTo(Metadata(name, author, info, license, instruments.items));
      var w := Write(env, d, dkPath, XmlDoc(RootTag, root));
      ok, disk := w.ok, w.disk;
    }

    /**
     * Drumkit::save_samples: creates dkDir, then walks the instruments in
     * order and, for each, layer slots 0 .. MaxLayers - 1, copying each
     * occupied slot's sample from the kit's base directory into dkDir and
     * returning false at the first copy that fails.
     */
    method SaveSamples(env: Env, d: Disk, dkDir: string, overwrite: bool) returns (ok: bool, disk: Disk)
      requires instruments != null || !env.mkdirOk(dkDir)
      ensures Outcome(ok, disk) == SaveSamplesOutcome(env, d, path, dkDir, Items())
    {
      var mk := Mkdir(env, d, dkDir);
      if !mk.ok {
        return false, mk.disk;
      }
      var items := instruments.items;
      var src := Left(path, LastIndexOf(path, '/'));
      ghost var total := CopyRun(env, mk.disk, src, dkDir, SampleFiles(items));
      assert total == SaveSamplesOutcome(env, d, path, dkDir, items);
      disk := mk.disk;
      var i := 0;
      while i < |items|
        invariant 0 <= i <= |items|
        invariant total == CopyRun(env, disk, src, dkDir, SampleFiles(items[i..]))
      {
        ghost var rest := SampleFiles(items[i + 1..]);
        SampleFilesFrom(items, i);
        var n := 0;
        while n < MaxLayers
          invariant 0 <= n <= MaxLayers
          invariant total == CopyRun(env, disk, src, dkDir, SlotsFrom(items[i], n) + rest)
        {
          SlotsFromStepThen(items[i], n, rest);
          var layer := GetLayer(items[i], n);
          if layer.Some? {
            var f := layer.value.sampleFile;
            assert SlotFile(items[i], n) == [f];
            CopyRunCons(env, disk, src, dkDir, f, SlotsFrom(items[i], n + 1) + rest);
            var c := FileSystem.Copy(env, disk, src + "/" + f, dkDir + "/" + f);
            if !c.ok {
              return false, c.disk;
            }
            disk := c.disk;
          } else {
            assert SlotFile(items[i], n) + (SlotsFrom(items[i], n + 1) + rest) == SlotsFrom(items[i], n + 1) + rest;
          }
          n := n + 1;
        }
        SlotsFromEnd(items[i]);
        assert SlotsFrom(items[i], n) + rest == rest;
        i := i + 1;
      }
      ok := true;
    }

    /**
     * Drumkit::save(overwrite): refuses a kit name that is already installed
     * unless overwriting, creates usr_drumkits_dir/name, writes the document
     * there, and copies the samples only when the document was written.
     */
    method Save(env: Env, d: Disk, overwrite: bool) returns (ok: bool, disk: Disk)
      requires instruments != null || !SaveEncodes(env, d, name, overwrite)
      ensures Outcome(ok, disk) == SaveOutcome(env, d, path, Meta(), overwrite)
    {
      if name in d.installed && !overwrite {
        return false, d;
      }
      var dkDir := env.usrDrumkitsDir + "/" + name;
      var mk := Mkdir(env, d, dkDir);
      if !mk.ok {
        return false, mk.disk;
      }
      ok, disk := SaveFile(env, mk.disk, env.drumkitFile(dkDir), overwrite);
      if ok {
        ok, disk := SaveSamples(env, disk, dkDir, overwrite);
      }
    }

    /**
     * The static Drumkit::save(name, author, info, license, instruments,
     * overwrite): a transient kit with these fields and the caller's list
     * (and an empty path) is saved, then detached from the list before it is
     * deleted, so the caller's list is neither deleted nor changed.
     */
    static method SaveKit(env: Env, d: Disk, name: string, author: string, info: string, license: string,
                          list: InstrumentList?, overwrite: bool) returns (ok: bool, disk: Disk)
      requires list != null || !SaveEncodes(env, d, name, overwrite)
      ensures Outcome(ok, disk) == SaveOutcome(env, d, "", Metadata(name, author, info, license,
                                                                     if list == null then [] else list.items), overwrite)
      ensures list != null ==> list.live == old(list.live) && list.items == old(list.items)
    {
      var kit := new Drumkit();
      kit.name, kit.author, kit.info, kit.license := name, author, info, license;
      kit.SetInstruments(list);
      ok, disk := kit.Save(env, d, overwrite);
      kit.SetInstruments(null);
      kit.Release();
    }
  }
}
