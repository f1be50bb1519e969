/** The appearance state a scene item carries: the actor property written by
    set_representation and set_opacity (oma/app/visualization.py:172-196,
    232-241), and the mapper and lookup table written by color_by_array and
    use_preset (oma/app/visualization.py:544-602). Values are stored and
    compared, never computed. */
module Appearance {
  import opened Results
  import opened Palettes

  /** The representation a vtkProperty stores; GetRepresentation reports it as 0, 1 or 2. */
  datatype VtkRepresentation = VtkPoints | VtkWireframe | VtkSurface {
    function Code(): int {
      match this
      case VtkPoints => 0
      case VtkWireframe => 1
      case VtkSurface => 2
    }
  }

  /** The `Representation` modes of the viewer (oma/app/visualization.py:37-41). */
  datatype Representation = Points | Wireframe | Surface | SurfaceWithEdges

  /** The mode a state value names, if any. */
  function RepresentationOf(mode: int): Option<Representation> {
    if mode == 0 then Some(Points)
    else if mode == 1 then Some(Wireframe)
    else if mode == 2 then Some(Surface)
    else if mode == 3 then Some(SurfaceWithEdges)
    else None
  }

  datatype Property = Property(representation: VtkRepresentation, pointSize: int, edgeVisibility: bool, opacity: real)

  /** A new actor's property: surface, point size 1, no edges, opaque. */
  const DefaultProperty := Property(VtkSurface, 1, false, 1.0)

  /** set_representation on a property: one row of the mode table, or no change. */
  function ApplyRepresentation(p: Property, mode: int): Property {
    match RepresentationOf(mode)
    case None => p
    case Some(Points) => p.(representation := VtkPoints, pointSize := 5, edgeVisibility := false)
    case Some(Wireframe) => p.(representation := VtkWireframe, pointSize := 1, edgeVisibility := false)
    case Some(Surface) => p.(representation := VtkSurface, pointSize := 1, edgeVisibility := false)
    case Some(SurfaceWithEdges) => p.(representation := VtkSurface, pointSize := 1, edgeVisibility := true)
  }

  /** The representation table: points get size 5, every other mode size 1;
      only SurfaceWithEdges shows edges; it reads back as a surface (2),
      every other mode as its own number; opacity is never touched and an
      unknown mode changes nothing. */
  lemma RepresentationTable(p: Property, mode: int)
    ensures ApplyRepresentation(p, mode).opacity == p.opacity
    ensures RepresentationOf(mode).None? ==> ApplyRepresentation(p, mode) == p
    ensures RepresentationOf(mode).Some? ==>
      && ApplyRepresentation(p, mode).representation.Code() == (if mode == 3 then 2 else mode)
      && ApplyRepresentation(p, mode).pointSize == (if mode == 0 then 5 else 1)
      && ApplyRepresentation(p, mode).edgeVisibility == (mode == 3)
  {
  }

  /** Only the last mode set matters: every mode overwrites all three
      fields it writes, so cycling through modes leaves the last one's row. */
  lemma LastRepresentationWins(p: Property, first: int, mode: int)
    requires RepresentationOf(mode).Some?
    ensures ApplyRepresentation(ApplyRepresentation(p, first), mode) == ApplyRepresentation(p, mode)
  {
  }

  /** vtkProperty keeps opacity within [0, 1]. */
  function ClampOpacity(v: real): (r: real)
    ensures 0.0 <= r <= 1.0
    ensures 0.0 <= v <= 1.0 ==> r == v
    ensures v < 0.0 ==> r == 0.0
    ensures v > 1.0 ==> r == 1.0
  {
    if v < 0.0 then 0.0 else if v > 1.0 then 1.0 else v
  }

  /** A pair given to SetHueRange, SetSaturationRange, SetValueRange or SetRange. */
  datatype Range = Range(first: real, second: real)

  /** The table a mapper colours through: a vtkLookupTable ramp, or a
      categorical transfer function in indexed-lookup mode. The range of a
      bound categorical table is not recorded. */
  datatype LookupTable =
    | Ramp(hue: Range, saturation: Range, value: Range, tableRange: Range)
    | Indexed(palette: Palette)

  /** A new vtkLookupTable: hue 0 to 0.66667, full saturation and value, range 0 to 1. */
  const DefaultLookupTable := Ramp(Range(0.0, 0.66667), Range(1.0, 1.0), Range(1.0, 1.0), Range(0.0, 1.0))

  /** Whether scalars come from the cell data's active scalars or a named cell array. */
  datatype ScalarMode = UseCellData | UseCellFieldData

  datatype Mapper = Mapper(
    lookupTable: LookupTable,
    scalarMode: ScalarMode,
    colorArray: Option<string>,
    scalarVisibility: bool,
    useLookupTableScalarRange: bool)

  /** The mapper `add` builds: a fresh lookup table, cell data, scalars mapped. */
  const DefaultMapper := Mapper(DefaultLookupTable, UseCellData, None, true, false)

  /** color_by_array on a mapper: colour by the named array over exactly its range. */
  function ColorBy(m: Mapper, title: string, range: Range): Mapper {
    var table := match m.lookupTable
      case Ramp(h, s, v, _) => Ramp(h, s, v, range)
      case Indexed(_) => m.lookupTable;
    m.(lookupTable := table, colorArray := Some(title), scalarMode := UseCellFieldData,
       scalarVisibility := true, useLookupTableScalarRange := true)
  }

  /** Colouring by an array selects it, shows scalars, and pins a ramp's
      range to the array's range; doing it again with the same array
      changes nothing more. */
  lemma ColorByFacts(m: Mapper, title: string, range: Range)
    ensures ColorBy(m, title, range).colorArray == Some(title)
    ensures ColorBy(m, title, range).scalarMode == UseCellFieldData
    ensures ColorBy(m, title, range).scalarVisibility && ColorBy(m, title, range).useLookupTableScalarRange
    ensures m.lookupTable.Ramp? ==> ColorBy(m, title, range).lookupTable == m.lookupTable.(tableRange := range)
    ensures ColorBy(ColorBy(m, title, range), title, range) == ColorBy(m, title, range)
  {
  }

  /** The `LookupTable` presets (oma/app/visualization.py:43-49). */
  datatype Preset = Rainbow | InvertedRainbow | Greyscale | InvertedGreyscale | Atlas | Material {
    predicate Continuous() {
      !Atlas? && !Material?
    }
  }

  /** The preset a state value names, if any. */
  function PresetOf(code: int): Option<Preset> {
    if code == 0 then Some(Rainbow)
    else if code == 1 then Some(InvertedRainbow)
    else if code == 2 then Some(Greyscale)
    else if code == 3 then Some(InvertedGreyscale)
    else if code == 4 then Some(Atlas)
    else if code == 5 then Some(Material)
    else None
  }

  /** Hue, saturation and value ranges of a continuous preset. */
  datatype HsvRanges = HsvRanges(hue: Range, saturation: Range, value: Range)

  function RampOf(p: Preset): HsvRanges
    requires p.Continuous()
  {
    match p
    case Rainbow => HsvRanges(Range(0.666, 0.0), Range(1.0, 1.0), Range(1.0, 1.0))
    case InvertedRainbow => HsvRanges(Range(0.0, 0.666), Range(1.0, 1.0), Range(1.0, 1.0))
    case Greyscale => HsvRanges(Range(0.0, 0.0), Range(0.0, 0.0), Range(0.0, 1.0))
    case InvertedGreyscale => HsvRanges(Range(0.0, 0.666), Range(0.0, 0.0), Range(1.0, 0.0))
  }

  /** use_preset on a mapper. A continuous preset rewrites the ranges of the
      mapper's ramp and keeps its table range; it fails (None) when the
      mapper holds a categorical transfer function, which has no hue,
      saturation or value range. Atlas binds the atlas table and colours by
      cell data; Material binds the material table and selects the
      "MaterialLabels" array. */
  function WithPreset(m: Mapper, p: Preset): Option<Mapper> {
    if p.Continuous() then
      match m.lookupTable
      case Indexed(_) => None
      case Ramp(_, _, _, range) =>
        var hsv := RampOf(p);
        Some(m.(lookupTable := Ramp(hsv.hue, hsv.saturation, hsv.value, range)))
    else if p == Atlas then
      Some(m.(scalarMode := UseCellData, lookupTable := Indexed(AtlasPalette)))
    else
      Some(m.(lookupTable := Indexed(MaterialPalette), colorArray := Some("MaterialLabels")))
  }

  /** The preset table: each continuous preset leaves a ramp with its row's
      ranges over the unchanged table range; each categorical preset leaves
      its palette bound, and the atlas palette resolves id 1 to the pink of
      its later point. */
  lemma PresetTable(m: Mapper, p: Preset)
    requires m.lookupTable.Ramp? || !p.Continuous()
    ensures WithPreset(m, p).Some?
    ensures p == Rainbow ==> (WithPreset(m, p).value.lookupTable ==
      Ramp(Range(0.666, 0.0), Range(1.0, 1.0), Range(1.0, 1.0), m.lookupTable.tableRange))
    ensures p == InvertedRainbow ==> (WithPreset(m, p).value.lookupTable ==
      Ramp(Range(0.0, 0.666), Range(1.0, 1.0), Range(1.0, 1.0), m.lookupTable.tableRange))
    ensures p == Greyscale ==> (WithPreset(m, p).value.lookupTable ==
      Ramp(Range(0.0, 0.0), Range(0.0, 0.0), Range(0.0, 1.0), m.lookupTable.tableRange))
    ensures p == InvertedGreyscale ==> (WithPreset(m, p).value.lookupTable ==
      Ramp(Range(0.0, 0.666), Range(0.0, 0.0), Range(1.0, 0.0), m.lookupTable.tableRange))
    ensures p == Atlas ==> WithPreset(m, p).value.lookupTable == Indexed(AtlasPalette)
    ensures p == Atlas ==> 1 in Table(WithPreset(m, p).value.lookupTable.palette)
    ensures p == Atlas ==> Table(WithPreset(m, p).value.lookupTable.palette)[1] == Rgb(1.0, 0.752941, 0.796078)
    ensures p == Material ==> WithPreset(m, p).value.lookupTable == Indexed(MaterialPalette)
    ensures p == Material ==> WithPreset(m, p).value.colorArray == Some("MaterialLabels")
  {
    AtlasTableFacts();
  }

  /** Applying the same preset twice leaves what applying it once left. */
  lemma PresetIdempotent(m: Mapper, p: Preset)
    requires WithPreset(m, p).Some?
    ensures WithPreset(WithPreset(m, p).value, p) == WithPreset(m, p)
  {
  }

  /** After a categorical preset, every continuous preset fails. */
  lemma CategoricalBlocksRamps(m: Mapper, p: Preset, q: Preset)
    requires !p.Continuous() && q.Continuous()
    ensures WithPreset(WithPreset(m, p).value, q).None?
  {
  }
}
