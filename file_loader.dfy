/**
 * The part of the file-loader capability implemented in the interface
 * itself: the group structure of grouped data and its per-group counts.
 */
module FileLoaders {
  import opened Wrappers

  /** The errors `get_num_groups` and `get_num_images_per_group` raise. */
  datatype GroupError<G> =
    | NotGrouped            // AssertionError: the data is not grouped
    | StructureNotSet       // TypeError: the group structure is still None
    | NoGroups              // ValueError: min() of an empty list of counts
    | UnknownGroup(id: G)   // KeyError: a group id missing from the sample dictionary
    | EmptyGroups(ids: seq<G>)  // ValueError: the groups that have no sample

  /** The first of `ids` that is not a key of `dict`, if any. */
  function FirstUnknown<G, S>(ids: seq<G>, dict: map<G, seq<S>>): (r: Option<G>)
    ensures r.None? <==> forall i :: 0 <= i < |ids| ==> ids[i] in dict
    ensures r.Some? ==> exists i :: 0 <= i < |ids| && ids[i] == r.value && r.value !in dict &&
                         forall j :: 0 <= j < i ==> ids[j] in dict
  {
    if ids == [] then None
    else if ids[0] !in dict then Some(ids[0])
    else
      var rest := FirstUnknown(ids[1..], dict);
      assert forall i :: 1 <= i < |ids| ==> ids[i] == ids[1..][i - 1];
      if rest.Some? then
        var i :| 0 <= i < |ids[1..]| && ids[1..][i] == rest.value && rest.value !in dict &&
                 forall j :: 0 <= j < i ==> ids[1..][j] in dict;
        assert ids[i + 1] == rest.value;
        rest
      else rest
  }

  /** The ids, in order, whose groups have no sample. */
  function EmptyGroupIds<G, S>(ids: seq<G>, dict: map<G, seq<S>>): (r: seq<G>)
    requires forall i :: 0 <= i < |ids| ==> ids[i] in dict
    ensures forall j :: 0 <= j < |r| ==> r[j] in ids && |dict[r[j]]| == 0
    ensures forall i :: 0 <= i < |ids| && |dict[ids[i]]| == 0 ==> ids[i] in r
    ensures |r| <= |ids|
  {
    if ids == [] then []
    else
      assert forall i :: 1 <= i < |ids| ==> ids[i] == ids[1..][i - 1];
      var rest := EmptyGroupIds(ids[1..], dict);
      if |dict[ids[0]]| == 0 then [ids[0]] + rest else rest
  }

  /**
   * The listing is the in-order filter of the ids: one more id at the end
   * adds itself at the end exactly when its group is empty.
   */
  lemma {:induction false} EmptyGroupIdsAppend<G, S>(ids: seq<G>, id: G, dict: map<G, seq<S>>)
    requires forall i :: 0 <= i < |ids| ==> ids[i] in dict
    requires id in dict
    ensures forall i :: 0 <= i < |ids + [id]| ==> (ids + [id])[i] in dict
    ensures EmptyGroupIds(ids + [id], dict) == EmptyGroupIds(ids, dict) + (if |dict[id]| == 0 then [id] else [])
  {
    assert forall i :: 0 <= i < |ids + [id]| ==> (ids + [id])[i] in dict by {
      forall i | 0 <= i < |ids + [id]| ensures (ids + [id])[i] in dict {
        if i < |ids| { assert (ids + [id])[i] == ids[i]; }
      }
    }
    if ids != [] {
      assert (ids + [id])[1..] == ids[1..] + [id];
      assert forall i :: 0 <= i < |ids[1..]| ==> ids[1..][i] == ids[i + 1];
      EmptyGroupIdsAppend(ids[1..], id, dict);
    } else {
      assert ids + [id] == [id];
    }
  }

  /**
   * A file loader: its directory, its name, whether it is grouped and, once
   * the concrete backend has built it, its group structure.
   */
  class FileLoader<G(==), S> {
    const dirPath: string
    const name: string
    const grouped: bool
    var groupIds: Option<seq<G>>
    var groupSampleDict: Option<map<G, seq<S>>>

    constructor (dirPath: string, name: string, grouped: bool)
      ensures this.dirPath == dirPath && this.name == name && this.grouped == grouped
      ensures groupIds == None && groupSampleDict == None
    {
      this.dirPath := dirPath;
      this.name := name;
      this.grouped := grouped;
      groupIds := None;
      groupSampleDict := None;
    }

    /** `get_num_groups`: the number of group ids of grouped data. */
    function GetNumGroups(): (r: Result<nat, GroupError<G>>)
      reads this
      ensures !grouped ==> r == Err(NotGrouped)
      ensures grouped && groupIds.None? ==> r == Err(StructureNotSet)
      ensures r.Ok? <==> grouped && groupIds.Some?
      ensures r.Ok? ==> r.value == |groupIds.value|
    {
      if !grouped then Err(NotGrouped)
      else if groupIds.None? then Err(StructureNotSet)
      else Ok(|groupIds.value|)
    }

    /**
     * `get_num_images_per_group`: the sample count of every group, in id
     * order; raises, naming exactly the empty groups, when a group is empty.
     */
    function GetNumImagesPerGroup(): (r: Result<seq<nat>, GroupError<G>>)
      reads this
      ensures !grouped ==> r == Err(NotGrouped)
      ensures r.Ok? <==>
        && grouped && groupIds.Some? && |groupIds.value| > 0 && groupSampleDict.Some?
        && forall i :: 0 <= i < |groupIds.value| ==>
             groupIds.value[i] in groupSampleDict.value && |groupSampleDict.value[groupIds.value[i]]| > 0
      ensures r.Ok? ==>
        |r.value| == |groupIds.value| &&
        forall i :: 0 <= i < |r.value| ==> r.value[i] == |groupSampleDict.value[groupIds.value[i]]| && r.value[i] >= 1
      ensures grouped && groupIds.None? ==> r == Err(StructureNotSet)
      ensures grouped && groupIds == Some([]) ==> r == Err(NoGroups)
      ensures grouped && groupIds.Some? && groupIds.value != [] && groupSampleDict.None? ==> r == Err(StructureNotSet)
      ensures grouped && groupIds.Some? && groupIds.value != [] && groupSampleDict.Some? ==>
        var ids, dict := groupIds.value, groupSampleDict.value;
        && (FirstUnknown(ids, dict).Some? ==> r == Err(UnknownGroup(FirstUnknown(ids, dict).value)))
        && (FirstUnknown(ids, dict).None? && (exists i :: 0 <= i < |ids| && |dict[ids[i]]| == 0) ==>
              r == Err(EmptyGroups(EmptyGroupIds(ids, dict))))
      ensures r.Err? && r.error.EmptyGroups? ==>
        && groupIds.Some? && groupSampleDict.Some? && |r.error.ids| > 0
        && (forall j :: 0 <= j < |r.error.ids| ==>
              r.error.ids[j] in groupIds.value && r.error.ids[j] in groupSampleDict.value &&
              |groupSampleDict.value[r.error.ids[j]]| == 0)
        && (forall i :: 0 <= i < |groupIds.value| ==>
              groupIds.value[i] in groupSampleDict.value && |groupSampleDict.value[groupIds.value[i]]| == 0 ==>
              groupIds.value[i] in r.error.ids)
      ensures r.Err? && r.error.UnknownGroup? ==>
        groupIds.Some? && groupSampleDict.Some? && r.error.id in groupIds.value && r.error.id !in groupSampleDict.value
    {
      if !grouped then Err(NotGrouped)
      else if groupIds.None? then Err(StructureNotSet)
      else if groupIds.value == [] then Err(NoGroups)
      else if groupSampleDict.None? then Err(StructureNotSet)
      else
        var ids, dict := groupIds.value, groupSampleDict.value;
        var unknown := FirstUnknown(ids, dict);
        if unknown.Some? then Err(UnknownGroup(unknown.value))
        else
          var counts := seq(|ids|, i requires 0 <= i < |ids| => |dict[ids[i]]|);
          if 0 in counts then
            var i :| 0 <= i < |counts| && counts[i] == 0;
            assert |dict[ids[i]]| == 0;
            assert ids[i] in EmptyGroupIds(ids, dict);
            Err(EmptyGroups(EmptyGroupIds(ids, dict)))
          else
            assert forall i :: 0 <= i < |ids| ==> ids[i] in dict && |dict[ids[i]]| > 0 by {
              forall i | 0 <= i < |ids| ensures ids[i] in dict && |dict[ids[i]]| > 0 {
                assert counts[i] == |dict[ids[i]]| && counts[i] != 0;
              }
            }
            Ok(counts)
    }
  }
}
