/**
 * The backend's configuration tables: the height of each campus building,
 * the classifier's class-index-to-label table and the per-index height
 * table derived from the two.
 */
module BuildingTables {

  /** Building height in metres, keyed by building name. */
  const BuildingHeights: map<string, real> := map[
    "Library" := 6.0,
    "CS_Building" := 7.5,
    "Civil" := 9.0,
    "EnM" := 7.5,
    "New_Building" := 13.5,
    "Admin_Block" := 6.0
  ]

  /** Number of classes the image classifier distinguishes. */
  const NumClasses: nat := 6

  /** An output of the classifier's argmax: an index into the label table. */
  type ClassIndex = i: int | 0 <= i < NumClasses

  /** Class index to building label, in the classifier's output order. */
  const IdxToLabel: seq<string> :=
    ["Library", "CS_Building", "Civil", "EnM", "New_Building", "Admin_Block"]

  /**
   * The list comprehension `[heights[l] for l in labels]`: the height of
   * every label, in label order. Every label must be a key, as a missing
   * one raises when the table is built.
   */
  function HeightTable(labels: seq<string>, heights: map<string, real>): (hs: seq<real>)
    requires forall i :: 0 <= i < |labels| ==> labels[i] in heights
    ensures |hs| == |labels|
    ensures forall i :: 0 <= i < |labels| ==> hs[i] == heights[labels[i]]
  {
    if labels == [] then []
    else HeightTable(labels[..|labels| - 1], heights) + [heights[labels[|labels| - 1]]]
  }

  /** Class index to building height, built from the two tables above. */
  function IdxToHeight(): seq<real>
  {
    HeightTable(IdxToLabel, BuildingHeights)
  }

  /** The label of a class index. */
  function LabelOf(i: ClassIndex): (name: string)
    ensures name in BuildingHeights
  {
    IdxToLabel[i]
  }

  /**
   * The label table has one entry per class, its labels are pairwise
   * distinct and are exactly the keys of the height table, and the derived
   * height table agrees with the height map at every index.
   */
  lemma TablesAgree()
    ensures |IdxToLabel| == NumClasses
    ensures forall i, j :: 0 <= i < j < |IdxToLabel| ==> IdxToLabel[i] != IdxToLabel[j]
    ensures (set i | 0 <= i < |IdxToLabel| :: IdxToLabel[i]) == BuildingHeights.Keys
    ensures |IdxToHeight()| == NumClasses
    ensures forall i :: 0 <= i < NumClasses ==> IdxToHeight()[i] == BuildingHeights[IdxToLabel[i]]
  {
    var labels := set i | 0 <= i < |IdxToLabel| :: IdxToLabel[i];
    assert IdxToLabel[0] in labels && IdxToLabel[1] in labels && IdxToLabel[2] in labels;
    assert IdxToLabel[3] in labels && IdxToLabel[4] in labels && IdxToLabel[5] in labels;
  }

  /** The derived height table, value by value. */
  lemma HeightValues()
    ensures IdxToHeight() == [6.0, 7.5, 9.0, 7.5, 13.5, 6.0]
  {
  }
}
