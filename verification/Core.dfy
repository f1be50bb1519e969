/** The application controller (oma/app/core.py): its shared state and the
    handlers the user interface triggers, written as explicit calls into
    the viewer. Redraw requests (`ctrl.view_update()`) are counted in
    `viewUpdates`: the opacity handler asks for one only when set_opacity
    reports a change, query_selection asks for one plus whatever its
    dimming asks for, and every other handler that finishes asks for one.
    A handler whose viewer call raises stops there. */
module Core {
  import opened Results
  import opened Meshes
  import opened Appearance
  import opened LabelTable
  import opened Visualization

  /** The opacity query_selection dims the active item to (oma/app/core.py:108). */
  const DimmedOpacity: real := 0.05

  /** The titles of a list of labels. */
  ghost function Titles(labels: seq<Label>): set<string> {
    set k | 0 <= k < |labels| :: labels[k].title
  }

  /** The items query_selection adds: for each label in order, the
      extraction of its value filed under its title, unless an item of
      that title is already present (`add` rejects the duplicate). */
  function AddSelected(scene: map<string, Item>, source: Mesh, labels: seq<Label>): (r: map<string, Item>)
    requires Filed(scene) && WellFormed(source) && SelectionArray in source.cellArrays
    ensures Filed(r)
    ensures r.Keys == scene.Keys + Titles(labels)
    ensures forall name :: name in scene ==> r[name] == scene[name]
    decreases |labels|
  {
    if labels == [] then scene
    else
      var init := labels[..|labels| - 1];
      var l := labels[|labels| - 1];
      var before := AddSelected(scene, source, init);
      TitlesSnoc(labels);
      if l.title in before then before
      else
        SelectedFiled(before, source, l);
        before[l.title := NewItem(l.title, DataSet(Extract(source, l.value)))]
  }

  lemma TitlesSnoc(labels: seq<Label>)
    requires labels != []
    ensures Titles(labels) == Titles(labels[..|labels| - 1]) + {labels[|labels| - 1].title}
  {
    var init := labels[..|labels| - 1];
    assert forall k :: 0 <= k < |init| ==> init[k] == labels[k];
  }

  /** Filing a label's extraction under its title keeps the scene filed. */
  lemma SelectedFiled(scene: map<string, Item>, source: Mesh, l: Label)
    requires Filed(scene) && WellFormed(source) && SelectionArray in source.cellArrays
    ensures Filed(scene[l.title := NewItem(l.title, DataSet(Extract(source, l.value)))])
  {
    ExtractExact(source, l.value);
  }

  /** A title's item is the extraction of the FIRST label carrying it; a
      later label with the same title adds nothing. */
  lemma {:induction false} FirstTitleWins(scene: map<string, Item>, source: Mesh, labels: seq<Label>, k: nat)
    requires Filed(scene) && WellFormed(source) && SelectionArray in source.cellArrays
    requires k < |labels| && labels[k].title !in scene
    requires forall j :: 0 <= j < k ==> labels[j].title != labels[k].title
    ensures AddSelected(scene, source, labels)[labels[k].title]
      == NewItem(labels[k].title, DataSet(Extract(source, labels[k].value)))
    decreases |labels|
  {
    var n := |labels| - 1;
    var init := labels[..n];
    if k < n {
      assert init[k] == labels[k];
      assert forall j :: 0 <= j < k ==> init[j] == labels[j];
      FirstTitleWins(scene, source, init, k);
    } else {
      assert labels[k].title !in Titles(init) by {
        assert forall j :: 0 <= j < |init| ==> init[j] == labels[j];
      }
    }
  }

  /** Whether the active item can be extracted from: it survives remove_all
      and has a reader source holding the selection array. */
  ghost predicate Extractable(kept: map<string, Item>, active: string) {
    && active in kept
    && kept[active].source.Reader?
    && SelectionArray in kept[active].source.mesh.cellArrays
  }

  /** The scene query_selection builds before dimming, or the exception of
      its first extraction. The active item is the source of every
      extraction; with no label selected nothing is extracted. */
  function QueryScene(scene: map<string, Item>, active: string, labels: seq<Label>): Result<map<string, Item>, ViewerError>
    requires Filed(scene)
  {
    var kept := Protected(scene);
    if labels == [] then Ok(kept)
    else if active !in kept then Err(NoSuchItem(active))
    else if kept[active].source.DataSet? then Err(NoOutputPort(active))
    else if SelectionArray !in kept[active].source.mesh.cellArrays then Err(MissingArray(SelectionArray))
    else Ok(AddSelected(kept, kept[active].source.mesh, labels))
  }

  /** A query succeeds exactly when no label is selected or the active item
      is the root and can be extracted from; the scene then holds the root
      (if present) and one item per distinct title. */
  lemma QuerySceneOutcome(scene: map<string, Item>, active: string, labels: seq<Label>)
    requires Filed(scene)
    ensures QueryScene(scene, active, labels).Ok? <==>
      labels == [] || (active == HeadMesh && Extractable(scene, active))
    ensures QueryScene(scene, active, labels).Ok? ==>
      QueryScene(scene, active, labels).value.Keys == (scene.Keys * {HeadMesh}) + Titles(labels)
  {
  }

  /** After a successful query, the first label of each title (other than
      the root's) owns that title's item: an extraction from the root
      holding exactly the root's cells of that label's value. */
  lemma QuerySceneItems(scene: map<string, Item>, active: string, labels: seq<Label>, k: nat)
    requires Filed(scene) && QueryScene(scene, active, labels).Ok?
    requires k < |labels| && labels[k].title != HeadMesh
    requires forall j :: 0 <= j < k ==> labels[j].title != labels[k].title
    ensures labels[k].title in QueryScene(scene, active, labels).value
    ensures QueryScene(scene, active, labels).value[labels[k].title]
      == NewItem(labels[k].title, DataSet(Extract(scene[HeadMesh].source.mesh, labels[k].value)))
  {
    QuerySceneOutcome(scene, active, labels);
    FirstTitleWins(Protected(scene), scene[HeadMesh].source.mesh, labels, k);
  }

  class TrameApp {
    var activeActor: string
    var meshRepresentation: int
    var meshColorPreset: int
    var meshColorArrayIdx: int
    var meshOpacity: real
    var activeLabels: seq<Label>
    var atlasLabel: seq<Label>
    var materialLabel: seq<Label>
    var selectedLabels: seq<Label>
    /** `current_representation`, unset until the active item changes. */
    var currentRepresentation: Option<int>
    /** How many redraws the handlers have asked for. */
    var viewUpdates: nat
    const viz: VtkViewer

    ghost predicate Valid()
      reads this, viz
    {
      viz.Valid()
    }

    /** The initial state (oma/app/core.py:23-38), with the two label
        tables already read. */
    constructor (base: Mesh, arrays: seq<ArrayInfo>, atlas: seq<Label>, material: seq<Label>)
      requires WellFormed(base) && |arrays| > 0
      ensures Valid() && fresh(viz)
      ensures activeActor == HeadMesh && meshRepresentation == 2 && meshColorPreset == 0
      ensures meshColorArrayIdx == 0 && meshOpacity == 1.0
      ensures activeLabels == [] && selectedLabels == []
      ensures atlasLabel == atlas && materialLabel == material
      ensures currentRepresentation == None && viewUpdates == 0
      ensures viz.scene == map[HeadMesh := NewItem(HeadMesh, Reader(base))]
      ensures viz.scalarBars == [] && viz.datasetArrays == arrays
    {
      activeActor := HeadMesh;
      meshRepresentation := 2;
      meshColorPreset := 0;
      meshColorArrayIdx := 0;
      meshOpacity := 1.0;
      activeLabels := [];
      atlasLabel := atlas;
      materialLabel := material;
      selectedLabels := [];
      currentRepresentation := None;
      viewUpdates := 0;
      viz := new VtkViewer(base, arrays);
    }

    /** Start-up: read both label tables, then build the viewer; a table
        line that does not parse stops start-up. */
    static method Launch(base: Mesh, arrays: seq<ArrayInfo>, atlasLines: seq<string>, materialLines: seq<string>)
      returns (r: Result<TrameApp, ParseError>)
      requires WellFormed(base) && |arrays| > 0
      ensures r.Ok? <==> (forall k :: 0 <= k < |atlasLines| ==> ParseLine(atlasLines[k]).Ok?) &&
                         (forall k :: 0 <= k < |materialLines| ==> ParseLine(materialLines[k]).Ok?)
      ensures r.Ok? ==> fresh(r.value) && fresh(r.value.viz) && r.value.Valid()
      ensures r.Ok? ==> r.value.activeActor == HeadMesh && r.value.meshRepresentation == 2
      ensures r.Ok? ==> r.value.meshColorPreset == 0 && r.value.meshColorArrayIdx == 0 && r.value.meshOpacity == 1.0
      ensures r.Ok? ==> r.value.activeLabels == [] && r.value.selectedLabels == []
      ensures r.Ok? ==> r.value.currentRepresentation == None && r.value.viewUpdates == 0
      ensures r.Ok? ==> r.value.viz.scene == map[HeadMesh := NewItem(HeadMesh, Reader(base))]
      ensures r.Ok? ==> r.value.viz.scalarBars == [] && r.value.viz.datasetArrays == arrays
      ensures r.Ok? ==> |r.value.atlasLabel| == |atlasLines|
      ensures r.Ok? ==> forall k :: 0 <= k < |atlasLines| ==> ParseLine(atlasLines[k]) == Ok(r.value.atlasLabel[k])
      ensures r.Ok? ==> |r.value.materialLabel| == |materialLines|
      ensures r.Ok? ==> forall k :: 0 <= k < |materialLines| ==> ParseLine(materialLines[k]) == Ok(r.value.materialLabel[k])
      ensures r.Err? && (exists k :: 0 <= k < |atlasLines| && ParseLine(atlasLines[k]).Err?) ==>
        && r.error.line < |atlasLines|
        && ParseLine(atlasLines[r.error.line]) == Err(r.error.error)
        && forall k :: 0 <= k < r.error.line ==> ParseLine(atlasLines[k]).Ok?
      ensures r.Err? && (forall k :: 0 <= k < |atlasLines| ==> ParseLine(atlasLines[k]).Ok?) ==>
        && r.error.line < |materialLines|
        && ParseLine(materialLines[r.error.line]) == Err(r.error.error)
        && forall k :: 0 <= k < r.error.line ==> ParseLine(materialLines[k]).Ok?
    {
      var atlas := ParseFile(atlasLines);
      if atlas.Err? {
        return Err(atlas.error);
      }
      var material := ParseFile(materialLines);
      if material.Err? {
        return Err(material.error);
      }
      var app := new TrameApp(base, arrays, atlas.value, material.value);
      return Ok(app);
    }

    /** The user ticks labels in the list. */
    method SelectLabels(labels: seq<Label>)
      modifies this`selectedLabels
      ensures selectedLabels == labels
    {
      selectedLabels := labels;
    }

    /** `mesh_opacity` changes (update_opacity): the active item takes the
        value, and a redraw is asked for only when set_opacity reports a change. */
    method ChangeMeshOpacity(value: real) returns (dirty: int)
      requires Valid()
      modifies this`meshOpacity, this`viewUpdates, viz`scene
      ensures Valid()
      ensures meshOpacity == value
      ensures viz.scene == OpacityApplied(old(viz.scene), activeActor, value)
      ensures dirty == 1 <==> activeActor in old(viz.scene) && old(viz.scene)[activeActor].property.opacity != value
      ensures viewUpdates == old(viewUpdates) + (if dirty == 1 then 1 else 0)
    {
      meshOpacity := value;
      dirty := viz.SetOpacity(activeActor, value);
      if dirty == 1 {
        viewUpdates := viewUpdates + 1;
      }
    }

    /** `mesh_representation` changes (update_representation). */
    method ChangeRepresentation(mode: int) returns (r: Outcome<ViewerError>)
      requires Valid()
      modifies this`meshRepresentation, this`viewUpdates, viz`scene
      ensures Valid()
      ensures meshRepresentation == mode
      ensures activeActor !in old(viz.scene) ==> r == Fail(NoSuchItem(activeActor))
      ensures activeActor !in old(viz.scene) ==> viz.scene == old(viz.scene) && viewUpdates == old(viewUpdates)
      ensures activeActor in old(viz.scene) ==> r == Done && viewUpdates == old(viewUpdates) + 1
      ensures activeActor in old(viz.scene) ==> viz.scene == old(viz.scene)[activeActor :=
        old(viz.scene)[activeActor].(property := ApplyRepresentation(old(viz.scene)[activeActor].property, mode))]
    {
      meshRepresentation := mode;
      r := viz.SetRepresentation(activeActor, mode);
      if r.Fail? {
        return;
      }
      viewUpdates := viewUpdates + 1;
    }

    /** `active_actor` changes (update_active_actor): read back the new
        active item's representation. */
    method ChangeActiveActor(name: string) returns (r: Outcome<ViewerError>)
      requires Valid()
      modifies this`activeActor, this`currentRepresentation, this`viewUpdates
      ensures Valid()
      ensures activeActor == name
      ensures name !in viz.scene ==> r == Fail(NoSuchItem(name))
      ensures name !in viz.scene ==> currentRepresentation == old(currentRepresentation)
      ensures name !in viz.scene ==> viewUpdates == old(viewUpdates)
      ensures name in viz.scene ==> r == Done && viewUpdates == old(viewUpdates) + 1
      ensures name in viz.scene ==> currentRepresentation == Some(viz.scene[name].property.representation.Code())
    {
      activeActor := name;
      var rep := viz.GetRepresentation(name);
      if rep.Err? {
        return Fail(rep.error);
      }
      currentRepresentation := Some(rep.value);
      viewUpdates := viewUpdates + 1;
      return Done;
    }

    /** `mesh_color_array_idx` changes (update_mesh_color_by_name). */
    method ChangeColorArray(index: int) returns (r: Outcome<ViewerError>)
      requires Valid()
      modifies this`meshColorArrayIdx, this`viewUpdates, viz`scene
      ensures Valid()
      ensures meshColorArrayIdx == index
      ensures r.Fail? ==> viz.scene == old(viz.scene) && viewUpdates == old(viewUpdates)
      ensures r.Done? <==> activeActor in old(viz.scene) && PyIndex(|viz.datasetArrays|, index).Some?
      ensures r.Done? ==> viewUpdates == old(viewUpdates) + 1
      ensures r.Done? ==>
        var info := viz.datasetArrays[PyIndex(|viz.datasetArrays|, index).value];
        viz.scene == old(viz.scene)[activeActor := old(viz.scene)[activeActor].(mapper :=
          ColorBy(old(viz.scene)[activeActor].mapper, info.title, info.range))]
    {
      meshColorArrayIdx := index;
      r := viz.ColorByArray(activeActor, index);
      if r.Fail? {
        return;
      }
      viewUpdates := viewUpdates + 1;
    }

    /** `mesh_color_preset` changes (update_mesh_color_preset). */
    method ChangeColorPreset(preset: int) returns (r: Outcome<ViewerError>)
      requires Valid()
      modifies this`meshColorPreset, this`viewUpdates, viz`scene, viz`scalarBars
      ensures Valid()
      ensures meshColorPreset == preset
      ensures r.Fail? ==> viz.scene == old(viz.scene) && viz.scalarBars == old(viz.scalarBars)
      ensures r.Fail? ==> viewUpdates == old(viewUpdates)
      ensures r.Fail? <==> (activeActor !in old(viz.scene) ||
        (PresetOf(preset).Some? && WithPreset(old(viz.scene)[activeActor].mapper, PresetOf(preset).value).None?))
      ensures r.Done? ==> viewUpdates == old(viewUpdates) + 1
      ensures r.Done? && PresetOf(preset).None? ==> viz.scene == old(viz.scene) && viz.scalarBars == old(viz.scalarBars)
      ensures r.Done? && PresetOf(preset).Some? ==>
        && activeActor in old(viz.scene)
        && WithPreset(old(viz.scene)[activeActor].mapper, PresetOf(preset).value).Some?
        && var m := WithPreset(old(viz.scene)[activeActor].mapper, PresetOf(preset).value).value;
        && viz.scene == old(viz.scene)[activeActor := old(viz.scene)[activeActor].(mapper := m)]
        && viz.scalarBars == old(viz.scalarBars) + [ScalarBar(activeActor, m.lookupTable)]
    {
      meshColorPreset := preset;
      r := viz.UsePreset(activeActor, preset);
      if r.Fail? {
        return;
      }
      viewUpdates := viewUpdates + 1;
    }

    /** The "Query" button (query_selection): clear the derived items, add
        one extracted item per selected label, then dim the active item. */
    method QuerySelection() returns (r: Outcome<ViewerError>)
      requires Valid()
      modifies this`meshOpacity, this`viewUpdates, viz`scene
      ensures Valid()
      ensures r.Fail? <==> QueryScene(old(viz.scene), activeActor, selectedLabels).Err?
      ensures r.Fail? ==> r.error == QueryScene(old(viz.scene), activeActor, selectedLabels).error
      ensures r.Fail? ==> viz.scene == Protected(old(viz.scene))
      ensures r.Fail? ==> meshOpacity == old(meshOpacity) && viewUpdates == old(viewUpdates)
      ensures r.Done? ==> meshOpacity == DimmedOpacity
      ensures r.Done? ==>
        var queried := QueryScene(old(viz.scene), activeActor, selectedLabels).value;
        viewUpdates == old(viewUpdates) + 1 +
          (if activeActor in queried && queried[activeActor].property.opacity != DimmedOpacity then 1 else 0)
      ensures r.Done? ==>
        viz.scene == OpacityApplied(QueryScene(old(viz.scene), activeActor, selectedLabels).value, activeActor, DimmedOpacity)
    {
      viz.RemoveAll();
      ghost var kept := viz.scene;
      for k := 0 to |selectedLabels|
        invariant viz.Valid() && Filed(kept) && kept == Protected(old(viz.scene))
        invariant meshOpacity == old(meshOpacity) && viewUpdates == old(viewUpdates)
        invariant k > 0 ==> Extractable(kept, activeActor)
        invariant k == 0 ==> viz.scene == kept
        invariant k > 0 ==> viz.scene == AddSelected(kept, kept[activeActor].source.mesh, selectedLabels[..k])
      {
        var query := selectedLabels[k];
        var extracted := viz.ExtractSelection(activeActor, query);
        if extracted.Err? {
          return Fail(extracted.error);
        }
        var _ := viz.Add(query.title, DataSet(extracted.value));
        assert selectedLabels[..k + 1][..k] == selectedLabels[..k];
      }
      assert selectedLabels[..|selectedLabels|] == selectedLabels;
      var _ := ChangeMeshOpacity(DimmedOpacity);
      viewUpdates := viewUpdates + 1;
      return Done;
    }

    /** The "Clear" button (clear_selection): only the root item stays and
        the selection empties; the dimmed opacity is not restored. */
    method ClearSelection()
      requires Valid()
      modifies this`selectedLabels, this`viewUpdates, viz`scene
      ensures Valid()
      ensures viz.scene == Protected(old(viz.scene))
      ensures selectedLabels == []
      ensures viewUpdates == old(viewUpdates) + 1
    {
      viz.RemoveAll();
      selectedLabels := [];
      viewUpdates := viewUpdates + 1;
    }
  }

  /** The start-to-clear walk-through: from the root alone, querying two
      labels leaves the root and two items holding only their labels'
      cells, with the root dimmed to 0.05; clearing then leaves the root
      alone, still at 0.05. */
  lemma QueryThenClear(root: Mesh, first: Label, second: Label)
    requires WellFormed(root) && SelectionArray in root.cellArrays
    requires first.title != second.title && first.title != HeadMesh && second.title != HeadMesh
    ensures var start := map[HeadMesh := NewItem(HeadMesh, Reader(root))];
      var queried := QueryScene(start, HeadMesh, [first, second]);
      && queried.Ok?
      && queried.value.Keys == {HeadMesh, first.title, second.title}
      && SelectionArray in queried.value[first.title].source.mesh.cellArrays
      && (forall c :: 0 <= c < queried.value[first.title].source.mesh.cellCount ==>
            queried.value[first.title].source.mesh.cellArrays[SelectionArray][c] == first.value)
      && var dimmed := OpacityApplied(queried.value, HeadMesh, DimmedOpacity);
      && dimmed[HeadMesh].property.opacity == DimmedOpacity
      && Protected(dimmed).Keys == {HeadMesh}
      && Protected(dimmed)[HeadMesh].property.opacity == DimmedOpacity
  {
    var start := map[HeadMesh := NewItem(HeadMesh, Reader(root))];
    var labels := [first, second];
    assert Filed(start);
    QuerySceneOutcome(start, HeadMesh, labels);
    assert Titles(labels) == {first.title, second.title} by {
      assert labels[0] == first && labels[1] == second;
    }
    QuerySceneItems(start, HeadMesh, labels, 0);
    ExtractExact(root, first.value);
  }
}
