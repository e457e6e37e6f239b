/** The chart feed: converts a batch of tracker issues into chart records
    (parent story titles, platforms, subtasks, progress flag) and rolls each
    issue's subtasks' story points and progress up into it. */
module Jira {
  import opened Optional
  import opened Tracker

  datatype Issue = Issue(
    storyPoints: int,
    closeDate: Option<int>,
    title: string,
    parents: seq<string>,
    platforms: seq<string>,
    childrenStories: int,
    subtasks: seq<string>,
    isProgress: bool)

  /** The status names that count as work in progress. */
  const ProgressValues: seq<string> :=
    ["Waiting for release", "In Progress", "In test", "In Review", "QA Progress"]

  // ---------------------------------------------------------------------
  // Typed membership search

  /** contains: the first index holding `v`, or not found and the length. */
  method Contains<T(==)>(v: T, s: seq<T>) returns (ok: bool, i: int)
    ensures ok ==> 0 <= i < |s| && s[i] == v && forall j :: 0 <= j < i ==> s[j] != v
    ensures !ok ==> i == |s| && v !in s
  {
    i := 0;
    while i < |s|
      invariant 0 <= i <= |s|
      invariant forall j :: 0 <= j < i ==> s[j] != v
    {
      if s[i] == v {
        return true, i;
      }
      i := i + 1;
    }
    return false, i;
  }

  // ---------------------------------------------------------------------
  // Stories

  /** The story-key-to-title map, filled in input order. */
  function StoriesOf(issues: seq<RawIssue>): map<string, string>
    decreases |issues|
  {
    if issues == [] then
      map[]
    else
      var last := issues[|issues| - 1];
      var stories := StoriesOf(issues[..|issues| - 1]);
      if last.typeName == "Story" then stories[last.key := last.summary] else stories
  }

  /** A key is in the map exactly when some Story-typed input issue has it. */
  lemma {:induction false} StoriesOfKeys(issues: seq<RawIssue>)
    ensures forall k :: k in StoriesOf(issues) <==>
              exists i :: 0 <= i < |issues| && issues[i].key == k && issues[i].typeName == "Story"
    decreases |issues|
  {
    if issues != [] {
      var init := issues[..|issues| - 1];
      assert forall i :: 0 <= i < |init| ==> init[i] == issues[i];
      StoriesOfKeys(init);
    }
  }

  /** For a key shared by several stories, the title of the last one is kept. */
  lemma {:induction false} StoriesOfLastWins(issues: seq<RawIssue>, i: int)
    requires 0 <= i < |issues| && issues[i].typeName == "Story"
    requires forall j :: i < j < |issues| && issues[j].key == issues[i].key ==> issues[j].typeName != "Story"
    ensures issues[i].key in StoriesOf(issues)
    ensures StoriesOf(issues)[issues[i].key] == issues[i].summary
    decreases |issues|
  {
    if i < |issues| - 1 {
      StoriesOfLastWins(issues[..|issues| - 1], i);
    }
  }

  /** collectStories: indexes the Story-typed issues by key. */
  method CollectStories(issues: seq<RawIssue>) returns (stories: map<string, string>)
    ensures stories == StoriesOf(issues)
  {
    stories := map[];
    var i := 0;
    while i < |issues|
      invariant 0 <= i <= |issues|
      invariant stories == StoriesOf(issues[..i])
    {
      assert issues[..i + 1][..i] == issues[..i];
      var issue := issues[i];
      if issue.typeName == "Story" {
        stories := stories[issue.key := issue.summary];
      }
      i := i + 1;
    }
    assert issues[..i] == issues;
  }

  // ---------------------------------------------------------------------
  // Conversion

  /** A Blocks link whose outward target is a known story. */
  predicate IsStoryBlock(stories: map<string, string>, l: Link)
  {
    l.typeName == "Blocks" && l.outward.key in stories
  }

  /** The titles of the stories an issue blocks, in link order. */
  function ParentsOf(stories: map<string, string>, links: seq<Link>): seq<string>
    decreases |links|
  {
    if links == [] then
      []
    else
      var last := links[|links| - 1];
      ParentsOf(stories, links[..|links| - 1])
      + (if IsStoryBlock(stories, last) then [stories[last.outward.key]] else [])
  }

  /** Parents follow link order: the parents of two link lists in a row are
      the parents of the first followed by those of the second. */
  lemma {:induction false} ParentsOfAppend(stories: map<string, string>, a: seq<Link>, b: seq<Link>)
    ensures ParentsOf(stories, a + b) == ParentsOf(stories, a) + ParentsOf(stories, b)
    decreases |b|
  {
    if b != [] {
      var b' := b[..|b| - 1];
      assert (a + b)[..|a + b| - 1] == a + b';
      assert (a + b)[|a + b| - 1] == b[|b| - 1];
      ParentsOfAppend(stories, a, b');
    } else {
      assert a + b == a;
    }
  }

  /** A title is a parent exactly when some Blocks link points at a story
      with that title; links of other kinds or to non-stories add nothing. */
  lemma {:induction false} ParentsOfMembers(stories: map<string, string>, links: seq<Link>)
    ensures forall t :: t in ParentsOf(stories, links) <==>
              exists i :: 0 <= i < |links| && IsStoryBlock(stories, links[i]) && stories[links[i].outward.key] == t
    decreases |links|
  {
    if links != [] {
      var init := links[..|links| - 1];
      assert forall i :: 0 <= i < |init| ==> init[i] == links[i];
      ParentsOfMembers(stories, init);
    }
  }

  /** Story points of a raw issue; a missing value decodes as zero. */
  function Points(raw: RawIssue): int
  {
    match raw.storyPoints
    case None => 0
    case Some(p) => p
  }

  /** The chart record of one raw issue, before roll-up. */
  function Converted(stories: map<string, string>, raw: RawIssue): (r: Issue)
    ensures r.title == raw.summary && r.storyPoints == Points(raw) && r.closeDate == raw.resolutionDate
    ensures r.parents == ParentsOf(stories, raw.links) && r.childrenStories == 0
    ensures |r.platforms| == |raw.components|
    ensures forall i :: 0 <= i < |r.platforms| ==> r.platforms[i] == raw.components[i].name
    ensures |r.subtasks| == |raw.subtasks|
    ensures forall i :: 0 <= i < |r.subtasks| ==> r.subtasks[i] == raw.subtasks[i].key
    ensures r.isProgress <==>
              || raw.statusName == "Waiting for release" || raw.statusName == "In Progress"
              || raw.statusName == "In test" || raw.statusName == "In Review"
              || raw.statusName == "QA Progress"
  {
    Issue(Points(raw), raw.resolutionDate, raw.summary, ParentsOf(stories, raw.links),
          seq(|raw.components|, i requires 0 <= i < |raw.components| => raw.components[i].name),
          0,
          seq(|raw.subtasks|, i requires 0 <= i < |raw.subtasks| => raw.subtasks[i].key),
          raw.statusName in ProgressValues)
  }

  /** convertJiraIssue: builds the parents, platforms and subtasks lists with
      loops and looks the status up among the progress values. */
  method ConvertJiraIssue(stories: map<string, string>, jiraIssue: RawIssue) returns (key: string, issue: Issue)
    ensures key == jiraIssue.key
    ensures issue == Converted(stories, jiraIssue)
  {
    var links := jiraIssue.links;
    var blocks: seq<string> := [];
    var i := 0;
    while i < |links|
      invariant 0 <= i <= |links|
      invariant blocks == ParentsOf(stories, links[..i])
    {
      assert links[..i + 1][..i] == links[..i];
      var element := links[i];
      if element.typeName == "Blocks" {
        if element.outward.key in stories {
          blocks := blocks + [stories[element.outward.key]];
        }
      }
      i := i + 1;
    }
    assert links[..i] == links;

    var components := jiraIssue.components;
    var platforms := new string[|components|];
    var c := 0;
    while c < |components|
      invariant 0 <= c <= |components|
      invariant forall j :: 0 <= j < c ==> platforms[j] == components[j].name
    {
      platforms[c] := components[c].name;
      c := c + 1;
    }
    assert platforms[..] == seq(|components|, j requires 0 <= j < |components| => components[j].name);

    var subtaskRefs := jiraIssue.subtasks;
    var subtasks := new string[|subtaskRefs|];
    var s := 0;
    while s < |subtaskRefs|
      invariant 0 <= s <= |subtaskRefs|
      invariant forall j :: 0 <= j < s ==> subtasks[j] == subtaskRefs[j].key
      invariant platforms[..] == seq(|components|, j requires 0 <= j < |components| => components[j].name)
    {
      subtasks[s] := subtaskRefs[s].key;
      s := s + 1;
    }

    assert subtasks[..] == seq(|subtaskRefs|, j requires 0 <= j < |subtaskRefs| => subtaskRefs[j].key);
    var isProgress, _ := Contains(jiraIssue.statusName, ProgressValues);
    key := jiraIssue.key;
    issue := Issue(Points(jiraIssue), jiraIssue.resolutionDate, jiraIssue.summary, blocks,
                   platforms[..], 0, subtasks[..], isProgress);
  }

  // ---------------------------------------------------------------------
  // Roll-up

  /** The key-to-record map the roll-up reads, filled in input order. */
  function IssuesIndex(stories: map<string, string>, raws: seq<RawIssue>): (index: map<string, Issue>)
    ensures forall i :: 0 <= i < |raws| ==> raws[i].key in index
    ensures forall k :: k in index ==> index[k].childrenStories == 0
    decreases |raws|
  {
    if raws == [] then
      map[]
    else
      var last := raws[|raws| - 1];
      var index := IssuesIndex(stories, raws[..|raws| - 1]);
      assert forall i :: 0 <= i < |raws| - 1 ==> raws[..|raws| - 1][i] == raws[i];
      index[last.key := Converted(stories, last)]
  }

  /** The story points of the subtasks found in the map, once per occurrence. */
  function ChildrenStories(subtasks: seq<string>, index: map<string, Issue>): int
    decreases |subtasks|
  {
    if subtasks == [] then
      0
    else
      var last := subtasks[|subtasks| - 1];
      ChildrenStories(subtasks[..|subtasks| - 1], index)
      + (if last in index then index[last].storyPoints else 0)
  }

  /** The sum splits over concatenation, so each occurrence of a subtask key
      counts once. */
  lemma {:induction false} ChildrenStoriesAppend(a: seq<string>, b: seq<string>, index: map<string, Issue>)
    ensures ChildrenStories(a + b, index) == ChildrenStories(a, index) + ChildrenStories(b, index)
    decreases |b|
  {
    if b != [] {
      var b' := b[..|b| - 1];
      assert (a + b)[..|a + b| - 1] == a + b';
      assert (a + b)[|a + b| - 1] == b[|b| - 1];
      ChildrenStoriesAppend(a, b', index);
    } else {
      assert a + b == a;
    }
  }

  /** Subtasks missing from the map contribute nothing. */
  lemma {:induction false} ChildrenStoriesSkipsAbsent(subtasks: seq<string>, index: map<string, Issue>)
    requires forall j :: 0 <= j < |subtasks| ==> subtasks[j] !in index
    ensures ChildrenStories(subtasks, index) == 0
    decreases |subtasks|
  {
    if subtasks != [] {
      ChildrenStoriesSkipsAbsent(subtasks[..|subtasks| - 1], index);
    }
  }

  /** Every key of the map is the key of some input issue. */
  lemma {:induction false} IssuesIndexKeys(stories: map<string, string>, raws: seq<RawIssue>)
    ensures forall k :: k in IssuesIndex(stories, raws) ==> exists i :: 0 <= i < |raws| && raws[i].key == k
    decreases |raws|
  {
    if raws != [] {
      var init := raws[..|raws| - 1];
      assert forall i :: 0 <= i < |init| ==> init[i] == raws[i];
      IssuesIndexKeys(stories, init);
    }
  }

  /** With duplicate keys the map keeps the converted record of the last
      issue carrying the key. */
  lemma {:induction false} IssuesIndexLastWins(stories: map<string, string>, raws: seq<RawIssue>, i: int)
    requires 0 <= i < |raws|
    requires forall j :: i < j < |raws| ==> raws[j].key != raws[i].key
    ensures raws[i].key in IssuesIndex(stories, raws)
    ensures IssuesIndex(stories, raws)[raws[i].key] == Converted(stories, raws[i])
    decreases |raws|
  {
    if i < |raws| - 1 {
      var init := raws[..|raws| - 1];
      assert init[i] == raws[i];
      IssuesIndexLastWins(stories, init, i);
    }
  }

  /** Over a map holding D-1 with 3 points and no D-2, the subtasks D-1 and
      D-2 add up to 3. */
  lemma SubtaskPointsSum(index: map<string, Issue>)
    requires "D-1" in index && index["D-1"].storyPoints == 3
    requires "D-2" !in index
    ensures ChildrenStories(["D-1", "D-2"], index) == 3
  {
    assert ["D-1", "D-2"][..1] == ["D-1"];
    assert ["D-1"][..0] == [];
  }

  /** The index of such a search holds D-1 with its 3 points and no D-2. */
  lemma SubtaskIndexEntries(stories: map<string, string>, raws: seq<RawIssue>, i: int)
    requires 0 <= i < |raws| && raws[i].key == "D-1" && raws[i].storyPoints == Some(3)
    requires forall j :: i < j < |raws| ==> raws[j].key != "D-1"
    requires forall j :: 0 <= j < |raws| ==> raws[j].key != "D-2"
    ensures "D-1" in IssuesIndex(stories, raws) && IssuesIndex(stories, raws)["D-1"].storyPoints == 3
    ensures "D-2" !in IssuesIndex(stories, raws)
  {
    IssuesIndexLastWins(stories, raws, i);
    IssuesIndexKeys(stories, raws);
  }

  /** An issue with subtasks D-1 and D-2 converts to one with subtask keys
      D-1 and D-2 and no children's points yet. */
  lemma SubtaskKeys(stories: map<string, string>, raw: RawIssue)
    requires raw.subtasks == [SubtaskRef("D-1"), SubtaskRef("D-2")]
    ensures Converted(stories, raw).subtasks == ["D-1", "D-2"]
    ensures Converted(stories, raw).childrenStories == 0
  {
    var r := Converted(stories, raw);
    assert r.subtasks[0] == "D-1" && r.subtasks[1] == "D-2";
  }

  /** In a search holding subtask D-1 with 3 story points and no issue D-2,
      the issue at `p` with subtasks D-1 and D-2 leaves Search with 3
      children story points. */
  lemma PresentSubtaskCounted(raws: seq<RawIssue>, p: int, i: int)
    requires 0 <= p < |raws| && raws[p].subtasks == [SubtaskRef("D-1"), SubtaskRef("D-2")]
    requires 0 <= i < |raws| && raws[i].key == "D-1" && raws[i].storyPoints == Some(3)
    requires forall j :: i < j < |raws| ==> raws[j].key != "D-1"
    requires forall j :: 0 <= j < |raws| ==> raws[j].key != "D-2"
    ensures RollUp(Converted(StoriesOf(raws), raws[p]), IssuesIndex(StoriesOf(raws), raws)).childrenStories == 3
  {
    var stories := StoriesOf(raws);
    SubtaskIndexEntries(stories, raws, i);
    SubtaskPointsSum(IssuesIndex(stories, raws));
    SubtaskKeys(stories, raws[p]);
  }

  /** Whether some subtask found in the map is in progress. */
  function AnyChildInProgress(subtasks: seq<string>, index: map<string, Issue>): (r: bool)
    ensures r <==> exists j :: 0 <= j < |subtasks| && subtasks[j] in index && index[subtasks[j]].isProgress
    decreases |subtasks|
  {
    if subtasks == [] then
      false
    else
      var init := subtasks[..|subtasks| - 1];
      var last := subtasks[|subtasks| - 1];
      assert forall j :: 0 <= j < |init| ==> init[j] == subtasks[j];
      AnyChildInProgress(init, index) || (last in index && index[last].isProgress)
  }

  /** One issue after roll-up: its subtasks' points added, their progress
      flags OR'd in; every other field kept. */
  function RollUp(issue: Issue, index: map<string, Issue>): Issue
  {
    issue.(childrenStories := issue.childrenStories + ChildrenStories(issue.subtasks, index),
           isProgress := issue.isProgress || AnyChildInProgress(issue.subtasks, index))
  }

  /** One step of the children loop of Search: adds the subtasks found in the
      map to the issue at `index`, in place. */
  method RollUpAt(issues: array<Issue>, index: int, issuesMap: map<string, Issue>)
    requires 0 <= index < issues.Length
    modifies issues
    ensures issues[index] == RollUp(old(issues[index]), issuesMap)
    ensures forall j :: 0 <= j < issues.Length && j != index ==> issues[j] == old(issues[j])
  {
    var issue := issues[index];
    var subtasks := issue.subtasks;
    var k := 0;
    while k < |subtasks|
      invariant 0 <= k <= |subtasks|
      invariant issues[index] == issue.(childrenStories := issue.childrenStories + ChildrenStories(subtasks[..k], issuesMap),
                                        isProgress := issue.isProgress || AnyChildInProgress(subtasks[..k], issuesMap))
      invariant forall j :: 0 <= j < issues.Length && j != index ==> issues[j] == old(issues[j])
    {
      assert subtasks[..k + 1][..k] == subtasks[..k];
      var childIssueKey := subtasks[k];
      if childIssueKey in issuesMap {
        var childIssue := issuesMap[childIssueKey];
        issues[index] := issues[index].(childrenStories := issues[index].childrenStories + childIssue.storyPoints);
        issues[index] := issues[index].(isProgress := issues[index].isProgress || childIssue.isProgress);
      }
      k := k + 1;
    }
    assert subtasks[..k] == subtasks;
  }

  /** The children loop of Search: rolls every issue's subtasks up into it,
      in place. */
  method RollUpChildren(issues: array<Issue>, issuesMap: map<string, Issue>)
    modifies issues
    ensures forall j :: 0 <= j < issues.Length ==> issues[j] == RollUp(old(issues[j]), issuesMap)
  {
    var index := 0;
    while index < issues.Length
      invariant 0 <= index <= issues.Length
      invariant forall j :: 0 <= j < index ==> issues[j] == RollUp(old(issues[j]), issuesMap)
      invariant forall j :: index <= j < issues.Length ==> issues[j] == old(issues[j])
    {
      RollUpAt(issues, index, issuesMap);
      index := index + 1;
    }
  }

  /** The part of Search after decoding: convert every issue into a slice and a
      key map, then roll the subtasks up into the slice in place. */
  method Search(jiraIssues: seq<RawIssue>) returns (result: seq<Issue>)
    ensures |result| == |jiraIssues|
    ensures forall i :: 0 <= i < |jiraIssues| ==>
              result[i] == RollUp(Converted(StoriesOf(jiraIssues), jiraIssues[i]),
                                  IssuesIndex(StoriesOf(jiraIssues), jiraIssues))
  {
    var stories := CollectStories(jiraIssues);
    var n := |jiraIssues|;
    var issues := new Issue[n];
    var issuesMap: map<string, Issue> := map[];
    var index := 0;
    while index < n
      invariant 0 <= index <= n
      invariant issuesMap == IssuesIndex(stories, jiraIssues[..index])
      invariant forall j :: 0 <= j < index ==> issues[j] == Converted(stories, jiraIssues[j])
    {
      assert jiraIssues[..index + 1][..index] == jiraIssues[..index];
      var key, issue := ConvertJiraIssue(stories, jiraIssues[index]);
      issues[index] := issue;
      issuesMap := issuesMap[key := issue];
      index := index + 1;
    }
    assert jiraIssues[..index] == jiraIssues;
    RollUpChildren(issues, issuesMap);
    result := issues[..];
  }

  /** Roll-up is one level deep and touches two fields: the children points
      are the sum of the subtasks' own points (the map holds records before
      roll-up), the progress flag is the issue's own OR'd with its present
      subtasks' own flags, and every other field is the converted record's. */
  lemma RollUpSingleLevel(stories: map<string, string>, raws: seq<RawIssue>, i: int)
    requires 0 <= i < |raws|
    ensures var index := IssuesIndex(stories, raws);
            var before := Converted(stories, raws[i]);
            var after := RollUp(before, index);
            && after.childrenStories == ChildrenStories(before.subtasks, index)
            && (after.isProgress <==>
                  || before.isProgress
                  || exists j :: 0 <= j < |before.subtasks| && before.subtasks[j] in index
                                && index[before.subtasks[j]].isProgress)
            && after.(childrenStories := 0, isProgress := before.isProgress) == before
            && forall k :: k in index ==> index[k].childrenStories == 0
  {
  }

  // ---------------------------------------------------------------------
  // Batch order

  /** With unique keys, a story of the map built from one ordering of the
      batch is also in the map built from any other ordering, with the same
      summary. */
  lemma StoriesOfSameEntry(a: seq<RawIssue>, b: seq<RawIssue>, k: string)
    requires UniqueKeys(a) && UniqueKeys(b)
    requires multiset(a) == multiset(b)
    requires k in StoriesOf(a)
    ensures k in StoriesOf(b) && StoriesOf(a)[k] == StoriesOf(b)[k]
  {
    StoriesOfKeys(a);
    var i :| 0 <= i < |a| && a[i].key == k && a[i].typeName == "Story";
    assert a[i] in multiset(b);
    var j :| 0 <= j < |b| && b[j] == a[i];
    StoriesOfLastWins(a, i);
    StoriesOfLastWins(b, j);
  }

  /** When keys are unique, the story map does not depend on the order of
      the batch. */
  lemma StoriesOfOrderIndependent(a: seq<RawIssue>, b: seq<RawIssue>)
    requires UniqueKeys(a) && UniqueKeys(b)
    requires multiset(a) == multiset(b)
    ensures StoriesOf(a) == StoriesOf(b)
  {
    forall k | k in StoriesOf(a)
      ensures k in StoriesOf(b) && StoriesOf(a)[k] == StoriesOf(b)[k]
    {
      StoriesOfSameEntry(a, b, k);
    }
    forall k | k in StoriesOf(b)
      ensures k in StoriesOf(a)
    {
      StoriesOfSameEntry(b, a, k);
    }
  }

  /** With unique keys, an entry of the roll-up index built from one
      ordering of the batch is also the entry built from any other
      ordering. */
  lemma IssuesIndexSameEntry(stories: map<string, string>, a: seq<RawIssue>, b: seq<RawIssue>, k: string)
    requires UniqueKeys(a) && UniqueKeys(b)
    requires multiset(a) == multiset(b)
    requires k in IssuesIndex(stories, a)
    ensures k in IssuesIndex(stories, b)
    ensures IssuesIndex(stories, a)[k] == IssuesIndex(stories, b)[k]
  {
    IssuesIndexKeys(stories, a);
    var i :| 0 <= i < |a| && a[i].key == k;
    assert a[i] in multiset(b);
    var j :| 0 <= j < |b| && b[j] == a[i];
    IssuesIndexLastWins(stories, a, i);
    IssuesIndexLastWins(stories, b, j);
  }

  /** When keys are unique, the roll-up index does not depend on the order
      of the batch. */
  lemma IssuesIndexOrderIndependent(stories: map<string, string>, a: seq<RawIssue>, b: seq<RawIssue>)
    requires UniqueKeys(a) && UniqueKeys(b)
    requires multiset(a) == multiset(b)
    ensures IssuesIndex(stories, a) == IssuesIndex(stories, b)
  {
    forall k | k in IssuesIndex(stories, a)
      ensures k in IssuesIndex(stories, b)
      ensures IssuesIndex(stories, a)[k] == IssuesIndex(stories, b)[k]
    {
      IssuesIndexSameEntry(stories, a, b, k);
    }
    forall k | k in IssuesIndex(stories, b)
      ensures k in IssuesIndex(stories, a)
    {
      IssuesIndexSameEntry(stories, b, a, k);
    }
  }

  /** When keys are unique, an issue leaves Search with the same record,
      children's story points and progress flag included, whatever the
      order of the batch. */
  lemma SearchOrderIndependent(a: seq<RawIssue>, b: seq<RawIssue>, i: int, j: int)
    requires UniqueKeys(a) && UniqueKeys(b) && multiset(a) == multiset(b)
    requires 0 <= i < |a| && 0 <= j < |b| && a[i] == b[j]
    ensures RollUp(Converted(StoriesOf(a), a[i]), IssuesIndex(StoriesOf(a), a))
         == RollUp(Converted(StoriesOf(b), b[j]), IssuesIndex(StoriesOf(b), b))
  {
    StoriesOfOrderIndependent(a, b);
    IssuesIndexOrderIndependent(StoriesOf(a), a, b);
  }
}
