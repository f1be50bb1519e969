/** The viewer (oma/app/visualization.py:55-602): a registry from item name
    to scene item, the list of scalar bars, and the operations the
    controller forwards to. Each item is the dictionary `add` builds; its
    actor property and mapper are held as values and rewritten in place by
    the appearance operations. */
module Visualization {
  import opened Results
  import opened Meshes
  import opened Appearance
  import opened LabelTable

  /** The protected root item, created at start-up and kept by remove_all. */
  const HeadMesh := "HeadMesh"

  /** An item's source: the file reader (for the root item), which hands out
      its mesh through GetOutput, or a mesh produced by an extraction. */
  datatype Source = Reader(mesh: Mesh) | DataSet(mesh: Mesh)

  datatype Item = Item(name: string, source: Source, property: Property, mapper: Mapper)

  /** An entry of `dataset_arrays`: a cell array's name and its value range. */
  datatype ArrayInfo = ArrayInfo(title: string, range: Range)

  /** A legend: its title and the table it shows when it is added. */
  datatype ScalarBar = ScalarBar(title: string, lookupTable: LookupTable)

  /** The exceptions the viewer's operations raise. */
  datatype ViewerError =
    | NoSuchItem(name: string)        // `self.get(name)` is None and `.get(...)` is called on it
    | NoOutputPort(name: string)      // the item's source is a data set, which has no GetOutput
    | MissingArray(array: string)     // the cell data has no such array
    | ArrayIndexOutOfRange(index: int)
    | NotALookupTable                 // a ramp preset on a bound categorical transfer function
    | ViewerHasNoName(name: string)   // `self.name` in add's duplicate branch

  /** The item `add` builds: default actor property and mapper. */
  function NewItem(name: string, source: Source): (item: Item)
    ensures item.name == name && item.source == source
    ensures item.property.opacity == 1.0 && item.property.representation == VtkSurface
  {
    Item(name, source, DefaultProperty, DefaultMapper)
  }

  /** Python list indexing: a negative index counts from the end. */
  function PyIndex(length: nat, index: int): (r: Option<nat>)
    ensures r.Some? <==> 0 - length <= index < length
    ensures r.Some? ==> r.value < length && (r.value == index || r.value == length + index)
  {
    if 0 <= index < length then Some(index)
    else if 0 - length <= index < 0 then Some(length + index)
    else None
  }

  /** Every item is filed under its own name and holds a well-formed mesh. */
  ghost predicate Filed(scene: map<string, Item>) {
    forall name :: name in scene ==> scene[name].name == name && WellFormed(scene[name].source.mesh)
  }

  /** The scene after set_opacity: the named item takes the (clamped) value
      unless it is absent or already has exactly that opacity. */
  function OpacityApplied(scene: map<string, Item>, name: string, value: real): map<string, Item> {
    if name in scene && scene[name].property.opacity != value then
      scene[name := scene[name].(property := scene[name].property.(opacity := ClampOpacity(value)))]
    else scene
  }

  /** Setting an opacity in [0, 1] makes it read back; setting the same value
      again changes nothing, and no other item is touched. */
  lemma OpacityReadBack(scene: map<string, Item>, name: string, value: real)
    requires name in scene && 0.0 <= value <= 1.0
    ensures name in OpacityApplied(scene, name, value)
    ensures OpacityApplied(scene, name, value)[name].property.opacity == value
    ensures OpacityApplied(OpacityApplied(scene, name, value), name, value) == OpacityApplied(scene, name, value)
    ensures forall other :: other in scene && other != name ==> OpacityApplied(scene, name, value)[other] == scene[other]
  {
  }

  /** The scene remove_all leaves: only the protected item, if present. */
  function Protected(scene: map<string, Item>): (kept: map<string, Item>)
    ensures kept.Keys == scene.Keys * {HeadMesh}
    ensures forall name :: name in kept ==> kept[name] == scene[name]
  {
    map name | name in scene && name == HeadMesh :: scene[name]
  }

  /** `add` as written: on a name already present it formats its warning
      with `self.name`, an attribute the viewer never sets, and so raises
      AttributeError instead of returning None. */
  function AddAsWritten(scene: map<string, Item>, name: string, source: Source): Result<map<string, Item>, ViewerError> {
    if name in scene then Err(ViewerHasNoName(name))
    else Ok(scene[name := NewItem(name, source)])
  }

  /** Adding a name twice with the code as written: the second call raises. */
  lemma AddTwiceRaises(scene: map<string, Item>, name: string, first: Source, second: Source)
    requires name !in scene
    ensures AddAsWritten(scene, name, first).Ok?
    ensures AddAsWritten(AddAsWritten(scene, name, first).value, name, second) == Err(ViewerHasNoName(name))
  {
  }

  class VtkViewer {
    var scene: map<string, Item>
    var scalarBars: seq<ScalarBar>
    /** The cell arrays of the loaded mesh, with their ranges, in file order. */
    const datasetArrays: seq<ArrayInfo>

    ghost predicate Valid()
      reads this
    {
      Filed(scene)
    }

    /** Start-up with the loaded mesh and its arrays; the first array's
        range is read, so there must be one. The root item is added. */
    constructor (base: Mesh, arrays: seq<ArrayInfo>)
      requires WellFormed(base) && |arrays| > 0
      ensures Valid()
      ensures scene == map[HeadMesh := NewItem(HeadMesh, Reader(base))]
      ensures scalarBars == [] && datasetArrays == arrays
    {
      datasetArrays := arrays;
      scene := map[];
      scalarBars := [];
      new;
      var _ := Add(HeadMesh, Reader(base));
    }

    /** Inserts a new item under a fresh name; a name already present is
        rejected with None and nothing changes. */
    method Add(name: string, source: Source) returns (item: Option<Item>)
      requires Valid() && WellFormed(source.mesh)
      modifies this`scene
      ensures Valid()
      ensures name in old(scene) ==> item == None && scene == old(scene)
      ensures name !in old(scene) ==> item == Some(NewItem(name, source))
      ensures name !in old(scene) ==> scene == old(scene)[name := NewItem(name, source)]
    {
      if name in scene {
        return None;
      }
      var created := NewItem(name, source);
      scene := scene[name := created];
      return Some(created);
    }

    /** Total lookup: the item of a present name, None otherwise. */
    function Get(name: string): (item: Option<Item>)
      reads this
      ensures item.Some? <==> name in scene
      ensures item.Some? ==> item.value == scene[name]
    {
      if name in scene then Some(scene[name]) else None
    }

    /** Deletes exactly the named item; an absent name changes nothing. */
    method Remove(name: string)
      requires Valid()
      modifies this`scene
      ensures Valid()
      ensures scene == old(scene) - {name}
      ensures name !in old(scene) ==> scene == old(scene)
    {
      var item := Get(name);
      if item.Some? {
        scene := scene - {name};
      }
    }

    /** Removes every item but the protected root, walking a snapshot of
        the names taken before the first removal. */
    method RemoveAll()
      requires Valid()
      modifies this`scene
      ensures Valid()
      ensures scene == Protected(old(scene))
      ensures HeadMesh in old(scene) ==> HeadMesh in scene && scene[HeadMesh] == old(scene)[HeadMesh]
    {
      var names := scene.Keys;
      while names != {}
        invariant Valid()
        invariant names <= old(scene).Keys
        invariant scene == old(scene) - (old(scene).Keys - names - {HeadMesh})
        decreases names
      {
        var name :| name in names;
        if name != HeadMesh {
          Remove(name);
        }
        names := names - {name};
      }
    }

    /** Applies one row of the representation table to the named item. */
    method SetRepresentation(name: string, mode: int) returns (r: Outcome<ViewerError>)
      requires Valid()
      modifies this`scene
      ensures Valid()
      ensures name !in old(scene) ==> r == Fail(NoSuchItem(name)) && scene == old(scene)
      ensures name in old(scene) ==> r == Done
      ensures name in old(scene) ==> scene == old(scene)[name :=
        old(scene)[name].(property := ApplyRepresentation(old(scene)[name].property, mode))]
    {
      var item := Get(name);
      if item.None? {
        return Fail(NoSuchItem(name));
      }
      var it := item.value;
      scene := scene[name := it.(property := ApplyRepresentation(it.property, mode))];
      return Done;
    }

    /** The representation code the named item's property reports: 0, 1 or 2. */
    function GetRepresentation(name: string): (r: Result<int, ViewerError>)
      reads this
      ensures name !in scene ==> r == Err(NoSuchItem(name))
      ensures name in scene ==> r.Ok? && 0 <= r.value <= 2
      ensures name in scene ==> r.value == scene[name].property.representation.Code()
    {
      match Get(name)
      case None => Err(NoSuchItem(name))
      case Some(item) => Ok(item.property.representation.Code())
    }

    /** The sub-mesh of the named item's source holding the cells whose
        "AtlasLabels" value equals the query's value, found by one scan in
        ascending cell order. The source is only read. */
    method ExtractSelection(name: string, query: Label) returns (r: Result<Mesh, ViewerError>)
      requires Valid()
      ensures name !in scene ==> r == Err(NoSuchItem(name))
      ensures name in scene && scene[name].source.DataSet? ==> r == Err(NoOutputPort(name))
      ensures name in scene && scene[name].source.Reader? && SelectionArray !in scene[name].source.mesh.cellArrays ==>
        r == Err(MissingArray(SelectionArray))
      ensures name in scene && scene[name].source.Reader? && SelectionArray in scene[name].source.mesh.cellArrays ==>
        r == Ok(Extract(scene[name].source.mesh, query.value))
      ensures r.Ok? ==> WellFormed(r.value) && SelectionArray in r.value.cellArrays
      ensures r.Ok? ==> forall k :: 0 <= k < r.value.cellCount ==> r.value.cellArrays[SelectionArray][k] == query.value
    {
      var item := Get(name);
      if item.None? {
        return Err(NoSuchItem(name));
      }
      if item.value.source.DataSet? {
        return Err(NoOutputPort(name));
      }
      var source := item.value.source.mesh;
      if SelectionArray !in source.cellArrays {
        return Err(MissingArray(SelectionArray));
      }
      var labels := source.cellArrays[SelectionArray];
      var cellIndices: seq<nat> := [];
      for i := 0 to |labels|
        invariant cellIndices == Matches(labels[..i], query.value)
      {
        assert labels[..i + 1][..i] == labels[..i];
        if labels[i] == query.value {
          cellIndices := cellIndices + [i];
        }
      }
      assert labels[..|labels|] == labels;
      ExtractExact(source, query.value);
      return Ok(ExtractCells(source, cellIndices));
    }

    /** Sets the named item's opacity and reports 1 when something changed;
        an absent name or a value equal to the current opacity gives 0 and
        changes nothing. The property keeps the value clamped to [0, 1]. */
    method SetOpacity(name: string, value: real) returns (dirty: int)
      requires Valid()
      modifies this`scene
      ensures Valid()
      ensures dirty == 0 || dirty == 1
      ensures dirty == 1 <==> name in old(scene) && old(scene)[name].property.opacity != value
      ensures scene == OpacityApplied(old(scene), name, value)
    {
      var item := Get(name);
      if item.Some? {
        var it := item.value;
        if it.property.opacity == value {
          return 0;
        } else {
          scene := scene[name := it.(property := it.property.(opacity := ClampOpacity(value)))];
          return 1;
        }
      }
      return 0;
    }

    /** Appends one legend; the list is never deduplicated. */
    method AddScalarBar(title: string, table: LookupTable)
      modifies this`scalarBars
      ensures scalarBars == old(scalarBars) + [ScalarBar(title, table)]
    {
      scalarBars := scalarBars + [ScalarBar(title, table)];
    }

    /** Colours the named item by the array at `index` of `dataset_arrays`
        (Python indexing), over exactly that array's range. */
    method ColorByArray(name: string, index: int) returns (r: Outcome<ViewerError>)
      requires Valid()
      modifies this`scene
      ensures Valid()
      ensures name !in old(scene) ==> r == Fail(NoSuchItem(name)) && scene == old(scene)
      ensures name in old(scene) && PyIndex(|datasetArrays|, index).None? ==>
        r == Fail(ArrayIndexOutOfRange(index)) && scene == old(scene)
      ensures name in old(scene) && PyIndex(|datasetArrays|, index).Some? ==> r == Done
      ensures name in old(scene) && PyIndex(|datasetArrays|, index).Some? ==>
        var info := datasetArrays[PyIndex(|datasetArrays|, index).value];
        scene == old(scene)[name := old(scene)[name].(mapper := ColorBy(old(scene)[name].mapper, info.title, info.range))]
    {
      var item := Get(name);
      if item.None? {
        return Fail(NoSuchItem(name));
      }
      var k := PyIndex(|datasetArrays|, index);
      if k.None? {
        return Fail(ArrayIndexOutOfRange(index));
      }
      var info := datasetArrays[k.value];
      var it := item.value;
      scene := scene[name := it.(mapper := ColorBy(it.mapper, info.title, info.range))];
      return Done;
    }

    /** Applies a colour preset to the named item and appends one legend
        titled with the item's name; an unknown preset value does nothing. */
    method UsePreset(name: string, preset: int) returns (r: Outcome<ViewerError>)
      requires Valid()
      modifies this`scene, this`scalarBars
      ensures Valid()
      ensures name !in old(scene) ==> r == Fail(NoSuchItem(name))
      ensures name !in old(scene) || PresetOf(preset).None? ==> scene == old(scene) && scalarBars == old(scalarBars)
      ensures name in old(scene) && PresetOf(preset).None? ==> r == Done
      ensures name in old(scene) && PresetOf(preset).Some? ==>
        match WithPreset(old(scene)[name].mapper, PresetOf(preset).value)
        case None => r == Fail(NotALookupTable) && scene == old(scene) && scalarBars == old(scalarBars)
        case Some(m) =>
          && r == Done
          && scene == old(scene)[name := old(scene)[name].(mapper := m)]
          && scalarBars == old(scalarBars) + [ScalarBar(name, m.lookupTable)]
    {
      var item := Get(name);
      if item.None? {
        return Fail(NoSuchItem(name));
      }
      var p := PresetOf(preset);
      if p.None? {
        return Done;
      }
      var it := item.value;
      var m := WithPreset(it.mapper, p.value);
      if m.None? {
        return Fail(NotALookupTable);
      }
      scene := scene[name := it.(mapper := m.value)];
      AddScalarBar(name, m.value.lookupTable);
      return Done;
    }
  }
}
