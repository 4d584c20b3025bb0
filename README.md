# Hydrogen drumkit core, modelled in Dafny

This project models `H2Core::Drumkit` from Hydrogen
(`libs/hydrogen/src/basics/drumkit.cpp`). A drumkit is a named bundle of
instrument and sample metadata plus the audio files it refers to. The model
covers the following parts of the class, with the XML, filesystem and archive
libraries replaced by abstract collaborators:

- the kit record, its constructors and destructor;
- the metadata codec (`load_from`, `save_to`, `load_file`, `load`);
- the loaded/unloaded sample state machine (`load_samples`, `unload_samples`);
- the save and remove orchestration (`save(overwrite)`, the convenience `save`,
  `save_file`, `save_samples`, `remove`);
- the libarchive `install` loop.

Files and modules:

- `wrappers.dfy` (`Wrappers`): `Option`, which stands for the null pointers the
  code returns.
- `paths.dfy` (`Paths`): `QString::lastIndexOf` and `QString::left`, and the
  sample base directory `path.left(path.lastIndexOf("/"))`. Qt returns the whole
  string for a negative count, so a path without `/` is its own base directory.
- `instruments.dfy` (`Instruments`): the instrument list, reduced to the
  instruments' layer slots and each occupied slot's sample file name.
  `MAX_LAYERS` is 16. `InstrumentList` is a heap object. The kit points to it,
  and it can be deleted.
- `document.dfy` (`Document`): an XML element, reduced to a map from child tag to
  text plus an optional `instrumentList` child. `read_string` returns its default
  for a child that is absent or whose text is empty.
- `codec.dfy` (`KitCodec`): `load_from`, `save_to` and `load_file` as functions,
  with the round-trip and default lemmas.
- `filesystem.dfy` (`FileSystem`): the filesystem as a value. `Disk` holds the
  existing paths, the directories `drumkit_valid` accepts, the installed kit
  names, the documents that read back, and a log of mkdir, write, copy and rm
  calls. `Env` fixes what each of those calls reports, and names the user kit
  directory and `drumkit_file`.
- `package.dfy` (`Package`): what `save_file`, `save_samples`, `save`, `load` and
  `remove` do to the filesystem, as functions, with the lemmas about ordering,
  gates and the prefix of copies performed.
- `drumkit.dfy` (`Kit`): the `Drumkit` class with the source's fields. Its methods
  are proved against the `Package` and `KitCodec` functions. `SaveSamples`
  keeps the source's nested instrument/layer loops with their early return.
- `install.dfy` (`Install`): the libarchive `install`. It runs over an
  `ArchiveReader` handle whose entries each carry a pathname, a header status
  and an extract status (OK, WARN or any other failure).

Collaborator results are parameters: what the instrument list's
`load_samples`/`unload_samples` report (`outcome`), and what mkdir, the
document write, `file_copy` and `rm` report (`Env`). Whether the archive opens,
and the status of each entry, are fields of the `ArchiveReader`.

Where the code does something a reader might not expect, the model follows the code:

- `install` returns true even when the loop stopped at a failed entry.
- `install` re-roots each pathname by plain concatenation. The model states
  only that every extracted pathname starts with `usr_drumkits_dir + "/"`;
  `..` components survive (`Install.DotDotIsKept`).
- `set_instruments` (declared in `drumkit.h`, which is not part of this model) is
  modelled as a plain pointer assignment that does not delete the previous list.
  The convenience `save` detaches the caller's list with `set_instruments(0)`
  before deleting its transient kit, and that only makes sense under this reading.
- A kit whose author, info or license is empty is written with an empty element,
  which reads back as the default. The round trip is exact only for non-empty fields.
- The convenience `save` builds its kit with an empty path, so its base directory
  is empty and every sample is copied from `"/" + file name`
  (`Package.EmptyPathCopiesFromRoot`).

## Model

| member | source | states |
|---|---|---|
| `Paths.LastIndexOf` | libs/hydrogen/src/basics/drumkit.cpp:110 | the result is -1 exactly when `/` does not occur, and otherwise indexes a `/` with none after it |
| `Paths.BaseDir` | libs/hydrogen/src/basics/drumkit.cpp:196 | the sample base directory is the part of the path before its last `/`, or the whole path when it has no `/` |
| `Paths.BaseDirOfJoin` | libs/hydrogen/src/basics/drumkit.cpp:110 | a document stored directly in a directory has that directory as its base directory |
| `Document.ReadString` | libs/hydrogen/src/basics/drumkit.cpp:93-95 | a child with non-empty text reads as that text; an absent or empty child reads as the default |
| `Document.ReadAfterWrite` | libs/hydrogen/src/basics/drumkit.cpp:177-180 | a child written to an element that has none reads back as the value written, or as the default when the value is empty; an existing child and other children read as before |
| `KitCodec.LoadFrom` | libs/hydrogen/src/basics/drumkit.cpp:85-105 | decoding fails exactly when `name` is absent or empty; otherwise the kit's name is the document's |
| `KitCodec.SaveTo` | libs/hydrogen/src/basics/drumkit.cpp:176-182 | the encoded element maps name, author, info and license to the kit's four fields and nothing else, and carries the instrument list |
| `KitCodec.LoadFromDefaults` | libs/hydrogen/src/basics/drumkit.cpp:91-104 | author, info and license are read back when present and non-empty, and take "undefined author", "defaultInfo" and "undefined license" when absent or empty; a missing instrumentList gives an empty list |
| `KitCodec.SaveLoadRoundTrip` | libs/hydrogen/src/basics/drumkit.cpp:176-180 | for a kit with a non-empty name, `load_from(save_to(kit))` gives back name and instruments, each non-empty field as written and each empty one as its default; the kit itself when no field is empty |
| `KitCodec.Reloaded` | libs/hydrogen/src/basics/drumkit.cpp:93-95 | a kit as read back keeps its name and instruments, has no empty author, info or license, and is the kit itself when none was empty |
| `KitCodec.EmptyAuthorReadsBackDefault` | libs/hydrogen/src/basics/drumkit.cpp:93 | an empty author is written as an empty element and reads back as "undefined author" |
| `KitCodec.ReloadedIsStable` | libs/hydrogen/src/basics/drumkit.cpp:176-180 | a kit as read back survives another save and load unchanged |
| `KitCodec.NamelessKitDoesNotRoundTrip` | libs/hydrogen/src/basics/drumkit.cpp:86-90 | a kit with an empty name is written but cannot be read back |
| `KitCodec.LoadFileResult` | libs/hydrogen/src/basics/drumkit.cpp:72-83 | a kit is read only from a document present at the path with a `drumkit_info` root, and then it is exactly what `load_from` decodes |
| `KitCodec.LoadFileAsWritten` | libs/hydrogen/src/basics/drumkit.cpp:72-83 | `load_file` as written: a returned kit is what `load_from` decodes from the document at the path, and the null dereference happens only on a readable `drumkit_info` document |
| `KitCodec.LoadFileAsWrittenDereferencesNull` | libs/hydrogen/src/basics/drumkit.cpp:80-81 | a readable `drumkit_info` document with an empty name makes `load_file` as written call `set_path` on null |
| `KitCodec.LoadFileCorrected` | libs/hydrogen/src/basics/drumkit.cpp:72-83 | the corrected `load_file` agrees with the code wherever the code does not dereference null, and that happens exactly when the corrected one returns null on a readable document |
| `KitCodec.SavedDocumentLoads` | libs/hydrogen/src/basics/drumkit.cpp:164-173 | the document `save_file` writes at a path loads back from that path as the kit's metadata, empty fields defaulted |
| `FileSystem.CopyRun` | libs/hydrogen/src/basics/drumkit.cpp:191-203 | the copy loop changes only the set of files, which only grows, and the log; an empty list of files succeeds and changes nothing |
| `FileSystem.CopyRunLog` | libs/hydrogen/src/basics/drumkit.cpp:191-203 | the copies issued are the prefix of the occupied-layer list up to and including the first failure; only the set of files and the log change |
| `FileSystem.CopyRunResult` | libs/hydrogen/src/basics/drumkit.cpp:198-200 | the copy run succeeds exactly when every copy succeeds; on failure the last copy issued is the first one that failed |
| `FileSystem.CopyRunAppend` | libs/hydrogen/src/basics/drumkit.cpp:191-203 | copying `a + b` copies `a`, then `b` only if all of `a` succeeded |
| `Instruments.SlotsFromOccupied` | libs/hydrogen/src/basics/drumkit.cpp:193-195 | a file is visited for an instrument exactly when some slot below `MAX_LAYERS` holds a layer naming it |
| `Instruments.SampleFilesOccupied` | libs/hydrogen/src/basics/drumkit.cpp:191-197 | a file is copied for a kit exactly when some occupied slot below `MAX_LAYERS` of some instrument names it |
| `Instruments.SampleFilesAppend` | libs/hydrogen/src/basics/drumkit.cpp:191-192 | the visiting order is instrument-major: the files of `a + b` are those of `a` followed by those of `b` |
| `Package.SaveFileOutcome` | libs/hydrogen/src/basics/drumkit.cpp:158-174 | `save_file` succeeds exactly when the overwrite gate passes and the write succeeds; on success the path holds the kit's document, on failure the documents are unchanged, taking a failed write to have no effect |
| `Package.SaveSamplesOutcome` | libs/hydrogen/src/basics/drumkit.cpp:184-205 | `save_samples` succeeds only after a successful mkdir and changes only the set of files and the log |
| `Package.SaveOutcome` | libs/hydrogen/src/basics/drumkit.cpp:140-156 | `save` of a taken name without overwrite changes nothing; success needs the name to be free or overwriting asked for, and the mkdir of the kit directory and the write of its `drumkit_file` to succeed |
| `Package.SaveFileRefusesExisting` | libs/hydrogen/src/basics/drumkit.cpp:160-163 | `save_file` on an existing file without overwrite fails and leaves the filesystem and log unchanged |
| `Package.SaveFileWrites` | libs/hydrogen/src/basics/drumkit.cpp:164-173 | otherwise exactly one write is issued and reported; a successful write of a named kit reads back; a failed one, taken to have no effect, leaves the documents unchanged |
| `Package.SaveSamplesCopies` | libs/hydrogen/src/basics/drumkit.cpp:184-205 | `save_samples` makes one mkdir and then issues copies from `base/file` to `dk_dir/file` for the occupied layers, in order, up to the first failure; it succeeds exactly when the mkdir and every copy do |
| `Package.SaveRefusesExisting` | libs/hydrogen/src/basics/drumkit.cpp:142-145 | `save` of an installed kit name without overwrite fails before any mkdir or write |
| `Package.SaveOrder` | libs/hydrogen/src/basics/drumkit.cpp:140-156 | `save` makes the kit directory first, and stops there with nothing else issued when that fails; no sample is copied unless the document write succeeded; it succeeds exactly when mkdir, write, the second mkdir and every copy do |
| `Package.LoadDirResult` | libs/hydrogen/src/basics/drumkit.cpp:63-70 | a kit loads from a directory only if `drumkit_valid` accepts it, and then it is what `load_file` reads from `drumkit_file(dir)` |
| `Package.RemoveOutcome` | libs/hydrogen/src/basics/drumkit.cpp:207-219 | `remove` succeeds exactly when the kit directory is valid and rm of it succeeds |
| `Package.RemoveGuarded` | libs/hydrogen/src/basics/drumkit.cpp:207-219 | `remove` calls rm only on a valid kit directory and reports its result; on success nothing at or below the directory remains; files, valid kit directories and documents outside it stay, the documents unchanged |
| `Package.RemoveKeepsOtherKits` | libs/hydrogen/src/basics/drumkit.cpp:207-219 | removing one kit leaves what loads from any directory outside it unchanged |
| `Package.EmptyPathCopiesFromRoot` | libs/hydrogen/src/basics/drumkit.cpp:196 | for the convenience save's empty path, the save succeeds exactly when mkdir, write and every copy from `"/" + file` to the kit directory succeed |
| `Package.LoadedKitBaseDir` | libs/hydrogen/src/basics/drumkit.cpp:110 | when `drumkit_file` names a file directly in the kit directory, the base directory of that file's path is the kit directory itself |
| `Package.SaveThenLoad` | libs/hydrogen/src/basics/drumkit.cpp:151-153 | after a successful `save` of a named kit, the document at its `drumkit_file` loads back as the same metadata, empty fields defaulted; loading the directory gives the same whenever it is valid |
| `Kit.Drumkit.constructor` | libs/hydrogen/src/basics/drumkit.cpp:48 | a new kit has empty fields, samples not loaded and no instrument list |
| `Kit.Drumkit.Copy` | libs/hydrogen/src/basics/drumkit.cpp:50-59 | the copy has every scalar field of the original, the loaded flag included, and a fresh list with the same instruments |
| `Kit.Drumkit.Release` | libs/hydrogen/src/basics/drumkit.cpp:61 | the destructor deletes the owned list when one is set, and nothing else |
| `Kit.Drumkit.SetInstruments` | libs/hydrogen/src/basics/drumkit.cpp:133-135 | the kit points to the given list; the previous one is not deleted |
| `Kit.Drumkit.LoadFrom` | libs/hydrogen/src/basics/drumkit.cpp:85-105 | null exactly when the name is missing or empty; otherwise a fresh kit with the decoded metadata, an empty path, samples not loaded and a fresh live list |
| `Kit.Drumkit.LoadFile` | libs/hydrogen/src/basics/drumkit.cpp:72-83 | the corrected `load_file`: the kit read from the document, with its path set to the document's path |
| `Kit.Drumkit.Load` | libs/hydrogen/src/basics/drumkit.cpp:63-70 | null for a directory `drumkit_valid` rejects; otherwise the kit read from `drumkit_file(dir)` |
| `Kit.Drumkit.LoadSamples` | libs/hydrogen/src/basics/drumkit.cpp:107-115 | when already loaded: true, without calling the list; otherwise the list loads from the base directory, and the flag and result become true exactly when it succeeds |
| `Kit.Drumkit.UnloadSamples` | libs/hydrogen/src/basics/drumkit.cpp:117-125 | when not loaded: true, without calling the list; otherwise the list unloads, and the flag clears and the result is true exactly when it succeeds |
| `Kit.Drumkit.SaveFile` | libs/hydrogen/src/basics/drumkit.cpp:158-174 | behaves as `Package.SaveFileOutcome` on this kit's fields: the overwrite gate, then one write of its document |
| `Kit.Drumkit.SaveSamples` | libs/hydrogen/src/basics/drumkit.cpp:184-205 | the nested instrument/layer loops with early return produce exactly the outcome of `Package.SaveSamplesOutcome` for this kit's path and instruments |
| `Kit.Drumkit.Save` | libs/hydrogen/src/basics/drumkit.cpp:140-156 | behaves as `Package.SaveOutcome` on this kit's path and fields |
| `Kit.Drumkit.SaveKit` | libs/hydrogen/src/basics/drumkit.cpp:127-138 | saves as a kit with the given fields, the caller's list and an empty path would; the caller's list is neither deleted nor changed |
| `Install.Extractions` | libs/hydrogen/src/basics/drumkit.cpp:273-290 | the install loop extracts at most one pathname per entry |
| `Install.ExtractionsPrefix` | libs/hydrogen/src/basics/drumkit.cpp:273-290 | the loop extracts a prefix of the entries, each as `usr_drumkits_dir + "/" + pathname`. It goes past WARN extractions and stops after a failed extraction or before a header that is not OK |
| `Install.ExtractionsPrefixed` | libs/hydrogen/src/basics/drumkit.cpp:279-281 | every extracted pathname starts with `usr_drumkits_dir + "/"` |
| `Install.ExtractionsComplete` | libs/hydrogen/src/basics/drumkit.cpp:273-290 | an archive with no failing header or extraction is extracted entry by entry to the end |
| `Install.DotDotIsKept` | libs/hydrogen/src/basics/drumkit.cpp:279 | an entry named `../x` is extracted as `usr_drumkits_dir + "/../x"`; no normalisation happens |
| `Install.InstallArchive` | libs/hydrogen/src/basics/drumkit.cpp:253-294 | false with nothing extracted when opening fails; otherwise true, with exactly the extractions `Install.Extractions` gives; the handle is closed and finished on both paths |

## Left out

- XML parsing, XSD validation, the header processing instruction and the namespace attributes of `save_file` (:164-173): library calls. A document is a tag-to-text map with an optional instrument-list child. A document that fails to read or validate is a path missing from `Disk.docs`.
- `XMLNode::read_string` itself: `xml.cpp` is not part of this model. `Document.ReadString` assumes that an empty element reads like an absent one, giving the default, whatever flags are passed: at :86, which passes `false, false`, and at :93-95, which pass only the defaults. Under the other reading an empty author, info or license would read back as the empty string and the round trip would be exact.
- `Document.WriteString` and `Document.ReadAfterWrite`: `write_string` appends a child and `read_string` is taken to read the first one, so writing a key that is already present leaves what it reads unchanged. `save_to` only writes fresh keys to a new element (:176-180).
- `KitCodec.SaveLoadRoundTrip`: its empty-field part rests on the reading of `read_string` above. Its instruments part holds by construction, because a `Node` stores the already-decoded instrument list.
- A null instrument list: the code dereferences `__instruments` without a check at :58, :110, :120, :181 and :190-191, and the caller's list at :133 reaches :181. A kit from the default constructor (:48) that is saved or asked to load samples crashes there. Likewise `save_samples` calls `layer->get_sample()->get_filename()` at :196-197 without testing the sample, while `dump()` tests it at :238-243: `Instruments.Layer` assumes every occupied layer has a sample with a file name, so a layer with a null sample, which crashes at :196, cannot be expressed. `Kit.Drumkit.Copy`, `LoadSamples`, `UnloadSamples`, `SaveFile`, `SaveSamples`, `Save` and `SaveKit` exclude this in their preconditions, only on the paths that reach the dereference. The crash itself is not modelled.
- The instrument list's own codec, deep copy and per-sample loading: `InstrumentList`, `Instrument`, `InstrumentLayer` and `Sample` are not part of this model. Their load/unload results are the `outcome` parameter. Partially loaded samples left in memory after a failed load are not represented.
- The real filesystem (`Filesystem::drumkit_valid`, `drumkit_exists`, `mkdir`, `file_exists`, `file_copy`, `rm`, `drumkit_file`, `usr_drumkits_dir`): their results are fixed by `Env` and `Disk`. They do not check one another; for example, a directory's validity does not follow from what was written into it.
- `Package.SaveOutcome`: leaves `Disk.validKits` and `Disk.installed` as they were, because `drumkit_valid` and `drumkit_exists` are oracles here (`filesystem.cpp` is not part of this model). The real functions look at the disk, so they would see a kit just saved to a fresh directory. After a successful save, a second `save(false)` of the same name would then be refused at :142 with no write, while the model issues the mkdir and is refused only at the `save_file` gate (:160-163).
- `Package.SaveThenLoad`: its statement about `load(dir)` needs the directory to be valid in the disk after the save, which in the model means valid before it. Its statement about the `drumkit_file` document holds for any successful save, to a fresh directory as well.
- `Package.RemoveOutcome`: the installed names stay as they were after a removal, for the same reason as `Package.SaveOutcome`.
- `Package.SaveFileOutcome`: a failed document write is assumed to leave `Disk.docs` as it was. `XMLDoc::write` is not part of this model, and a write that fails after truncating the file would lose the old document at that path.
- `Package.SaveFileWrites`: its clause that the documents are unchanged after a failed write rests on the same assumption. Likewise `FileSystem.Rm` takes a failed recursive rm to have removed nothing, though a real one can fail part way.
- libarchive internals: only the entry statuses the loop reacts to are modelled. Codes other than OK, WARN and end-of-archive are all one `Failed` status, which the code treats alike.
- The libtar/zlib fallback `install` (:297-335): it refers to an undefined `dataDir` (:327), so it does not build as shown. It also writes a full 4096 bytes per `gzread` whatever the count read (:310-311).
- The fixed 1024-byte `char` buffers filled with `strcpy` (:259, :280, :318, :325): a pathname longer than the buffer overflows it. The model has unbounded strings. At :279-280 the pathname also goes from `char*` to `QString` and back through `toLocal8Bit()`, which can change non-ASCII names; `Install.Extractions` is plain concatenation of the stored pathname.
- `dump()` (:221-250) and every log message: diagnostics only.
- The scalar setters and getters of `drumkit.h`: the model assigns and reads the fields directly.
- The `overwrite` parameter of `save_samples` is accepted and unused, as in the code.
- Concurrency: the code is single-threaded; nothing is modelled about concurrent use.
- `Install.ExtractionsPrefixed`: states only that extracted pathnames start with the user kit directory and a `/`. The code does not normalise `..`, so extraction is not confined to that directory.

## Findings

| source | as written | input that shows it | evidently intended | confidence | as-written member | corrected member |
|---|---|---|---|---|---|---|
| libs/hydrogen/src/basics/drumkit.cpp:80-81 | `load_file` calls `set_path` on the result of `load_from` without testing it for null | a document at the path that reads, validates and has a `drumkit_info` root with an empty `name` | return null, as the other failure paths of `load_file` do | medium, not executed (depends on the schema admitting an empty name) | `KitCodec.LoadFileAsWritten`, `KitCodec.LoadFileAsWrittenDereferencesNull` | `KitCodec.LoadFileResult`, `KitCodec.LoadFileCorrected` |
