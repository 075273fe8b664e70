/**
 * The course outline fragment's milestone map: for every subsection that
 * has a prerequisite, whether the current user has completed it.
 *
 * The milestones service is outside this model: the course's content
 * milestones and the user's unfulfilled ones are inputs.
 */
module CourseOutline {
  import opened Wrappers

  /** A content milestone as the milestones service returns it; only its
      `content_id` is read here. */
  datatype Milestone = Milestone(contentId: string)

  /** The `content_id`s of a list of milestones, as a set. */
  ghost function ContentIds(milestones: seq<Milestone>): set<string> {
    set m | m in milestones :: m.contentId
  }

  /** The `content_id`s of a list of milestones, in order. */
  function ContentIdList(milestones: seq<Milestone>): (ids: seq<string>)
    ensures |ids| == |milestones|
    ensures forall i :: 0 <= i < |milestones| ==> ids[i] == milestones[i].contentId
  {
    if milestones == [] then [] else [milestones[0].contentId] + ContentIdList(milestones[1..])
  }

  /** A `content_id` occurs in the id list exactly when some milestone carries it. */
  lemma ContentIdListMembers(milestones: seq<Milestone>, id: string)
    ensures id in ContentIdList(milestones) <==> id in ContentIds(milestones)
  {
    var ids := ContentIdList(milestones);
    if id in ids {
      var i :| 0 <= i < |ids| && ids[i] == id;
      assert milestones[i] in milestones;
    }
  }

  /** The dictionary built entry by entry over the course's milestones,
      later entries overwriting earlier ones with the same `content_id`. */
  function CompletionMap(allPrereqs: seq<Milestone>, unfulfilledIds: seq<string>): (m: map<string, bool>)
    ensures forall i :: 0 <= i < |allPrereqs| ==> allPrereqs[i].contentId in m
    ensures forall id :: id in m ==> m[id] == (id !in unfulfilledIds)
    decreases |allPrereqs|
  {
    if allPrereqs == [] then map[]
    else
      var last := allPrereqs[|allPrereqs| - 1];
      CompletionMap(allPrereqs[..|allPrereqs| - 1], unfulfilledIds)[last.contentId := last.contentId !in unfulfilledIds]
  }

  /** The completion map has a key per `content_id` of the course's
      milestones, and a key's value is whether it is missing from the
      unfulfilled ids. */
  lemma {:induction false} CompletionMapSpec(allPrereqs: seq<Milestone>, unfulfilledIds: seq<string>)
    ensures CompletionMap(allPrereqs, unfulfilledIds).Keys == ContentIds(allPrereqs)
    ensures forall id :: id in CompletionMap(allPrereqs, unfulfilledIds) ==>
      CompletionMap(allPrereqs, unfulfilledIds)[id] == (id !in unfulfilledIds)
    decreases |allPrereqs|
  {
    if allPrereqs != [] {
      var n := |allPrereqs| - 1;
      CompletionMapSpec(allPrereqs[..n], unfulfilledIds);
      assert allPrereqs == allPrereqs[..n] + [allPrereqs[n]];
      assert ContentIds(allPrereqs) == ContentIds(allPrereqs[..n]) + {allPrereqs[n].contentId} by {
        forall id ensures id in ContentIds(allPrereqs) <==> id in ContentIds(allPrereqs[..n]) + {allPrereqs[n].contentId} {
          if id in ContentIds(allPrereqs) {
            var m :| m in allPrereqs && m.contentId == id;
            var i :| 0 <= i < |allPrereqs| && allPrereqs[i] == m;
            if i < n { assert allPrereqs[..n][i] == m; }
          }
          if id in ContentIds(allPrereqs[..n]) {
            var m :| m in allPrereqs[..n] && m.contentId == id;
            assert m in allPrereqs;
          }
        }
      }
    }
  }

  /**
   * `get_content_milestones`: the subsections with prerequisites, each
   * mapped to whether the user has completed its prerequisite. The source
   * wraps each flag in a one-entry dictionary under `completed_prereqs`;
   * the model stores the flag itself.
   */
  function GetContentMilestones(allPrereqs: seq<Milestone>, unfulfilled: seq<Milestone>): (r: map<string, bool>)
    ensures r.Keys == ContentIds(allPrereqs)
    ensures forall id :: id in r ==> (r[id] <==> id !in ContentIds(unfulfilled))
  {
    var unfulfilledIds := ContentIdList(unfulfilled);
    CompletionMapSpec(allPrereqs, unfulfilledIds);
    var r := CompletionMap(allPrereqs, unfulfilledIds);
    assert forall id :: id in r ==> (id in unfulfilledIds <==> id in ContentIds(unfulfilled)) by {
      forall id | id in r { ContentIdListMembers(unfulfilled, id); }
    }
    r
  }

  /** An id that only the user's unfulfilled list mentions never becomes a key. */
  lemma UnfulfilledOnlyNotKey(allPrereqs: seq<Milestone>, unfulfilled: seq<Milestone>, id: string)
    requires id in ContentIds(unfulfilled) && id !in ContentIds(allPrereqs)
    ensures id !in GetContentMilestones(allPrereqs, unfulfilled)
  {
  }

  /** With nothing unfulfilled, every prerequisite is completed. */
  lemma NothingUnfulfilled(allPrereqs: seq<Milestone>)
    ensures forall id :: id in GetContentMilestones(allPrereqs, []) ==> GetContentMilestones(allPrereqs, [])[id]
  {
  }

  /** With every prerequisite unfulfilled, none is completed. */
  lemma EverythingUnfulfilled(allPrereqs: seq<Milestone>, unfulfilled: seq<Milestone>)
    requires ContentIds(allPrereqs) <= ContentIds(unfulfilled)
    ensures forall id :: id in GetContentMilestones(allPrereqs, unfulfilled) ==> !GetContentMilestones(allPrereqs, unfulfilled)[id]
  {
  }

  /** Only the sets of ids matter: the order and repetition of either list
      do not change the map. */
  lemma OrderAndDuplicatesIrrelevant(all1: seq<Milestone>, unf1: seq<Milestone>, all2: seq<Milestone>, unf2: seq<Milestone>)
    requires ContentIds(all1) == ContentIds(all2)
    requires ContentIds(unf1) == ContentIds(unf2)
    ensures GetContentMilestones(all1, unf1) == GetContentMilestones(all2, unf2)
  {
    var r1, r2 := GetContentMilestones(all1, unf1), GetContentMilestones(all2, unf2);
    assert forall id :: id in r1 ==> r1[id] == r2[id];
  }

  /** A prerequisite listed twice yields the same single key, with the same value. */
  lemma DuplicatePrerequisite(allPrereqs: seq<Milestone>, unfulfilled: seq<Milestone>, i: nat)
    requires i < |allPrereqs|
    ensures GetContentMilestones(allPrereqs + [allPrereqs[i]], unfulfilled) == GetContentMilestones(allPrereqs, unfulfilled)
  {
    var twice := allPrereqs + [allPrereqs[i]];
    assert ContentIds(twice) == ContentIds(allPrereqs) by {
      assert allPrereqs[i] in allPrereqs;
    }
    OrderAndDuplicatesIrrelevant(twice, unfulfilled, allPrereqs, unfulfilled);
  }

  /** The context the outline template is rendered with. */
  datatype OutlineContext<Block> = OutlineContext(blocks: map<string, Block>, milestones: map<string, bool>)

  /**
   * `render_to_fragment` without the rendering: nothing when the course has
   * no outline block tree (absent or empty), and otherwise the block tree
   * with the milestone map.
   */
  function OutlineFragment<Block>(blockTree: Option<map<string, Block>>, allPrereqs: seq<Milestone>, unfulfilled: seq<Milestone>): (r: Option<OutlineContext<Block>>)
    ensures r.None? <==> blockTree.None? || blockTree.value == map[]
    ensures r.Some? ==> r.value.blocks == blockTree.value
    ensures r.Some? ==> r.value.milestones == GetContentMilestones(allPrereqs, unfulfilled)
    ensures r.Some? ==> r.value.milestones.Keys == ContentIds(allPrereqs)
  {
    if blockTree.None? || blockTree.value == map[] then None
    else Some(OutlineContext(blockTree.value, GetContentMilestones(allPrereqs, unfulfilled)))
  }
}
