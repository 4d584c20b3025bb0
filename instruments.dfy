/**
 * The instrument aggregate the kit owns but does not look inside: an ordered
 * list of instruments, each with layer slots, each occupied slot naming one
 * sample file. Its own codec and per-sample loading are outside the model.
 */
module Instruments {
  import opened Wrappers

  /** MAX_LAYERS: the number of layer slots visited per instrument. */
  const MaxLayers: nat := 16

  /** An occupied layer slot, reduced to the file name of its sample. */
  datatype Layer = Layer(sampleFile: string)

  /** An instrument, reduced to its layer slots; slots past the end are empty. */
  datatype Instrument = Instrument(layers: seq<Option<Layer>>)

  /** Instrument::get_layer(n). */
  function GetLayer(ins: Instrument, n: nat): (r: Option<Layer>)
    ensures n >= |ins.layers| ==> r.None?
  {
    if n < |ins.layers| then ins.layers[n] else None
  }

  /** The sample file of slot `n`, as a list of zero or one names. */
  function SlotFile(ins: Instrument, n: nat): (r: seq<string>)
    ensures |r| <= 1 && (r == [] <==> GetLayer(ins, n).None?)
  {
    match GetLayer(ins, n)
    case Some(layer) => [layer.sampleFile]
    case None => []
  }

  /** The slots below MaxLayers that the instrument holds. */
  function Visible(ins: Instrument): (slots: seq<Option<Layer>>)
    ensures |slots| <= MaxLayers
    ensures forall n :: 0 <= n < |slots| ==> slots[n] == GetLayer(ins, n)
    ensures forall n: nat :: |slots| <= n < MaxLayers ==> GetLayer(ins, n).None?
  {
    if |ins.layers| <= MaxLayers then ins.layers else ins.layers[..MaxLayers]
  }

  /** The sample file names of the occupied slots in `slots`, in order. */
  function Names(slots: seq<Option<Layer>>): (r: seq<string>)
    ensures |r| <= |slots|
  {
    if slots == [] then []
    else (match slots[0] case Some(layer) => [layer.sampleFile] case None => []) + Names(slots[1..])
  }

  /** Sample files of the occupied slots `n .. MaxLayers - 1`, in slot order. */
  function SlotsFrom(ins: Instrument, n: nat): (r: seq<string>)
    ensures |r| <= MaxLayers
  {
    var slots := Visible(ins);
    if n < |slots| then Names(slots[n..]) else []
  }

  /** Visiting slot `n` and then the slots above it visits the slots from `n`. */
  lemma SlotsFromStep(ins: Instrument, n: nat)
    requires n < MaxLayers
    ensures SlotsFrom(ins, n) == SlotFile(ins, n) + SlotsFrom(ins, n + 1)
  {
    var slots := Visible(ins);
    if n < |slots| {
      assert slots[n..][0] == slots[n] == GetLayer(ins, n);
      assert slots[n..][1..] == slots[n + 1..];
      assert Names(slots[n..]) == SlotFile(ins, n) + Names(slots[n + 1..]);
      if n + 1 == |slots| {
        assert slots[n + 1..] == [];
      }
    }
  }

  /** All sample files of all occupied slots: instrument by instrument, each in slot order. */
  function SampleFiles(items: seq<Instrument>): (r: seq<string>)
    ensures |r| <= MaxLayers * |items|
  {
    if items == [] then [] else SlotsFrom(items[0], 0) + SampleFiles(items[1..])
  }

  /** The files of the instruments from `i` on: those of instrument `i`, then those after it. */
  lemma SampleFilesFrom(items: seq<Instrument>, i: nat)
    requires i < |items|
    ensures SampleFiles(items[i..]) == SlotsFrom(items[i], 0) + SampleFiles(items[i + 1..])
  {
    assert items[i..][0] == items[i];
    assert items[i..][1..] == items[i + 1..];
  }

  /** SlotsFromStep, followed by the files of the instruments after this one. */
  lemma SlotsFromStepThen(ins: Instrument, n: nat, rest: seq<string>)
    requires n < MaxLayers
    ensures SlotsFrom(ins, n) + rest == SlotFile(ins, n) + (SlotsFrom(ins, n + 1) + rest)
  {
    SlotsFromStep(ins, n);
  }

  /** Past the last slot there is nothing left to visit. */
  lemma SlotsFromEnd(ins: Instrument)
    ensures SlotsFrom(ins, MaxLayers) == []
  {
  }

  lemma {:induction false} SlotsFromOccupied(ins: Instrument, n: nat, f: string)
    ensures f in SlotsFrom(ins, n) <==> exists k :: n <= k < MaxLayers && GetLayer(ins, k) == Some(Layer(f))
    decreases MaxLayers - n
  {
    if n < MaxLayers {
      SlotsFromStep(ins, n);
      SlotsFromOccupied(ins, n + 1, f);
      if f in SlotsFrom(ins, n) && f !in SlotsFrom(ins, n + 1) {
        assert GetLayer(ins, n) == Some(Layer(f));
      }
      if exists k :: n <= k < MaxLayers && GetLayer(ins, k) == Some(Layer(f)) {
        var k :| n <= k < MaxLayers && GetLayer(ins, k) == Some(Layer(f));
        if k == n {
          assert f in SlotFile(ins, n);
        }
      }
    }
  }

  /** Slot `k` of `ins` is occupied by a layer whose sample is `f`. */
  ghost predicate HoldsFile(ins: Instrument, k: nat, f: string)
  {
    k < MaxLayers && GetLayer(ins, k) == Some(Layer(f))
  }

  /** A file is copied for a kit exactly when some occupied slot below MaxLayers names it. */
  lemma {:induction false} SampleFilesOccupied(items: seq<Instrument>, f: string)
    ensures f in SampleFiles(items) <==> exists i, k :: 0 <= i < |items| && HoldsFile(items[i], k, f)
  {
    if items != [] {
      var head, rest := SlotsFrom(items[0], 0), SampleFiles(items[1..]);
      assert SampleFiles(items) == head + rest;
      SlotsFromOccupied(items[0], 0, f);
      SampleFilesOccupied(items[1..], f);
      if f in head {
        var k :| 0 <= k < MaxLayers && GetLayer(items[0], k) == Some(Layer(f));
        assert HoldsFile(items[0], k, f);
      } else if f in rest {
        var i, k :| 0 <= i < |items[1..]| && HoldsFile(items[1..][i], k, f);
        assert HoldsFile(items[i + 1], k, f);
      }
      if exists i, k :: 0 <= i < |items| && HoldsFile(items[i], k, f) {
        var i, k :| 0 <= i < |items| && HoldsFile(items[i], k, f);
        if i == 0 {
          assert f in head;
        } else {
          assert HoldsFile(items[1..][i - 1], k, f);
          assert f in rest;
        }
      }
    }
  }

  /** The visiting order is instrument-major: the files of a list are those of its parts, in order. */
  lemma {:induction false} SampleFilesAppend(a: seq<Instrument>, b: seq<Instrument>)
    ensures SampleFiles(a + b) == SampleFiles(a) + SampleFiles(b)
  {
    if a == [] {
      assert a + b == b;
    } else {
      assert (a + b)[1..] == a[1..] + b;
      SampleFilesAppend(a[1..], b);
    }
  }

  /** The calls the kit makes on its instrument list to bring samples in and out of memory. */
  datatype SampleCall = LoadAll(baseDir: string) | UnloadAll

  /**
   * InstrumentList: a heap object the kit points to. `live` is false once it
   * has been deleted; `sampleCalls` records the bulk load/unload requests it received.
   */
  class InstrumentList {
    var items: seq<Instrument>
    var live: bool
    ghost var sampleCalls: seq<SampleCall>

    /** A new list holding `items` (also the deep copy of another list's items). */
    constructor (items: seq<Instrument>)
      ensures this.items == items && live && sampleCalls == []
    {
      this.items := items;
      live := true;
      sampleCalls := [];
    }

    /** InstrumentList::load_samples(dir); `outcome` is what the per-sample loading reports. */
    method LoadSamples(baseDir: string, outcome: bool) returns (ok: bool)
      modifies this`sampleCalls
      ensures ok == outcome
      ensures sampleCalls == old(sampleCalls) + [LoadAll(baseDir)]
    {
      sampleCalls := sampleCalls + [LoadAll(baseDir)];
      ok := outcome;
    }

    /** InstrumentList::unload_samples(); `outcome` is what the per-sample unloading reports. */
    method UnloadSamples(outcome: bool) returns (ok: bool)
      modifies this`sampleCalls
      ensures ok == outcome
      ensures sampleCalls == old(sampleCalls) + [UnloadAll]
    {
      sampleCalls := sampleCalls + [UnloadAll];
      ok := outcome;
    }

    /** delete: the list is released. */
    method Delete()
      requires live
      modifies this`live
      ensures !live
    {
      live := false;
    }
  }
}
