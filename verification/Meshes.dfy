/** The mesh as the selection extractor sees it (oma/app/visualization.py:198-230):
    a number of cells and named per-cell arrays, one value per cell. */
module Meshes {

  /** The cell array a selection query is matched against (oma/app/visualization.py:206). */
  const SelectionArray := "AtlasLabels"

  datatype Mesh = Mesh(cellCount: nat, cellArrays: map<string, seq<int>>)

  /** Every cell array has one value per cell. */
  ghost predicate WellFormed(m: Mesh) {
    forall name :: name in m.cellArrays ==> |m.cellArrays[name]| == m.cellCount
  }

  ghost predicate Ascending(s: seq<nat>) {
    forall i, j :: 0 <= i < j < |s| ==> s[i] < s[j]
  }

  /** The indices the extraction scan collects: every position whose value
      equals `v`, in ascending order, and no other. */
  function Matches(values: seq<int>, v: int): (indices: seq<nat>)
    ensures Ascending(indices)
    ensures forall k :: 0 <= k < |indices| ==> indices[k] < |values| && values[indices[k]] == v
    ensures forall i :: 0 <= i < |values| && values[i] == v ==> i in indices
    decreases |values|
  {
    if values == [] then []
    else
      var n := |values| - 1;
      var init := values[..n];
      var before := Matches(init, v);
      assert forall k :: 0 <= k < |before| ==> values[before[k]] == init[before[k]];
      assert forall i :: 0 <= i < n ==> values[i] == init[i];
      before + (if values[n] == v then [n] else [])
  }

  /** As many cells match as the value occurs in the array. */
  lemma {:induction false} MatchCount(values: seq<int>, v: int)
    ensures |Matches(values, v)| == multiset(values)[v]
  {
    if values != [] {
      var n := |values| - 1;
      assert values == values[..n] + [values[n]];
      MatchCount(values[..n], v);
    }
  }

  /** The values of `s` at the given positions, in the order given. */
  function Pick(s: seq<int>, indices: seq<nat>): (r: seq<int>)
    requires forall k :: 0 <= k < |indices| ==> indices[k] < |s|
    ensures |r| == |indices|
  {
    seq(|indices|, k requires 0 <= k < |indices| => s[indices[k]])
  }

  /** The sub-mesh of the given cells: every cell array sliced to them. */
  function ExtractCells(m: Mesh, indices: seq<nat>): Mesh
    requires WellFormed(m)
    requires forall k :: 0 <= k < |indices| ==> indices[k] < m.cellCount
  {
    Mesh(|indices|, map name | name in m.cellArrays :: Pick(m.cellArrays[name], indices))
  }

  /** What a selection of value `v` yields from a mesh holding the selection array. */
  function Extract(m: Mesh, v: int): Mesh
    requires WellFormed(m) && SelectionArray in m.cellArrays
  {
    ExtractCells(m, Matches(m.cellArrays[SelectionArray], v))
  }

  /** The extracted mesh is well formed, keeps every array, holds exactly
      the cells whose label is `v` (as many as the label occurs, none when
      it does not), and each of its cells carries the values of the source
      cell it came from. */
  lemma ExtractExact(m: Mesh, v: int)
    requires WellFormed(m) && SelectionArray in m.cellArrays
    ensures WellFormed(Extract(m, v))
    ensures Extract(m, v).cellArrays.Keys == m.cellArrays.Keys
    ensures Extract(m, v).cellCount == multiset(m.cellArrays[SelectionArray])[v]
    ensures v !in m.cellArrays[SelectionArray] ==> Extract(m, v).cellCount == 0
    ensures forall k :: 0 <= k < Extract(m, v).cellCount ==> Extract(m, v).cellArrays[SelectionArray][k] == v
    ensures forall name, k :: name in m.cellArrays && 0 <= k < Extract(m, v).cellCount ==>
      Extract(m, v).cellArrays[name][k] == m.cellArrays[name][Matches(m.cellArrays[SelectionArray], v)[k]]
  {
    var labels := m.cellArrays[SelectionArray];
    MatchCount(labels, v);
    if v !in labels {
      assert multiset(labels)[v] == 0;
    }
  }
}
