/** The planning report: turns one batch of tracker issues into report
    records whose Development, QA, TestCases and Epic slots point at the
    related issues, and splits the records per team member. */
module Planning {
  import opened Optional
  import opened Tracker
  import Strings

  /** A report record. The four reference slots hold copies of other records
      (Go pointers to copies), so a reference never sees later updates. */
  datatype Issue = Issue(
    key: string,
    name: string,
    development: Option<Issue>,
    qa: Option<Issue>,
    epic: Option<Issue>,
    testCases: Option<Issue>,
    storyPoints: Option<int>,
    typeName: string,
    assignee: string,
    platform: string,
    outSprint: bool,
    isResolved: bool,
    isEasy: bool,
    uri: string)

  datatype User = User(name: string, plannedIssues: seq<Issue>, lostIssues: seq<Issue>)

  const UriPrefix := "https://jr.avito.ru/browse/"

  /** Title fragments that mark a test-case issue, in Russian and English,
      with the misspellings the team uses. */
  const TestCaseTokens: seq<string> :=
    ["тесткейс", "тест-кейс", "test casse", "test-casse", "test case", "test-case"]

  // ---------------------------------------------------------------------
  // Helpers

  /** The browse address of an issue; the key can be read back from it. */
  function CreateUri(key: string): (uri: string)
    ensures |uri| == |UriPrefix| + |key|
    ensures uri[..|UriPrefix|] == UriPrefix && uri[|UriPrefix|..] == key
  {
    UriPrefix + key
  }

  /** Generic membership test: a linear search over `s`. */
  method Contains<T(==)>(v: T, s: seq<T>) returns (ok: bool)
    ensures ok <==> v in s
  {
    var i := 0;
    while i < |s|
      invariant 0 <= i <= |s|
      invariant forall j :: 0 <= j < i ==> s[j] != v
    {
      if s[i] == v {
        return true;
      }
      i := i + 1;
    }
    return false;
  }

  /** Whether a title names a test case: the lower-cased title contains one of
      the six tokens. */
  function HasTestCaseSubstring(title: string): (r: bool)
    ensures r <==> exists k :: 0 <= k < |TestCaseTokens| && Strings.Contains(Strings.ToLower(title), TestCaseTokens[k])
  {
    var lowerTitle := Strings.ToLower(title);
    assert TestCaseTokens[0] == "тесткейс" && TestCaseTokens[1] == "тест-кейс";
    assert TestCaseTokens[2] == "test casse" && TestCaseTokens[3] == "test-casse";
    assert TestCaseTokens[4] == "test case" && TestCaseTokens[5] == "test-case";
    Strings.Contains(lowerTitle, "тесткейс")
    || Strings.Contains(lowerTitle, "тест-кейс")
    || Strings.Contains(lowerTitle, "test casse")
    || Strings.Contains(lowerTitle, "test-casse")
    || Strings.Contains(lowerTitle, "test case")
    || Strings.Contains(lowerTitle, "test-case")
  }

  /** The heuristic does not depend on letter case. */
  lemma TestCaseSubstringIgnoresCase(title: string)
    ensures HasTestCaseSubstring(Strings.ToLower(title)) == HasTestCaseSubstring(title)
  {
    Strings.ToLowerIdempotent(title);
  }

  /** An empty title never names a test case. */
  lemma EmptyTitleIsNotTestCase()
    ensures !HasTestCaseSubstring("")
  {
    forall k | 0 <= k < |TestCaseTokens|
      ensures !Strings.Contains(Strings.ToLower(""), TestCaseTokens[k])
    {
      Strings.NotContainedInEmpty(TestCaseTokens[k]);
    }
  }

  /** A capitalised English title is recognised, and so is every title that
      differs from it only in the case of its letters. */
  lemma CapitalisedTitleIsTestCase()
    ensures HasTestCaseSubstring("Test Case: login flow")
    ensures forall t :: Strings.ToLower(t) == Strings.ToLower("Test Case: login flow") ==> HasTestCaseSubstring(t)
  {
    var lower := Strings.ToLower("Test Case: login flow");
    assert lower[..9] == "test case";
    assert Strings.OccursAt(lower, "test case", 0);
  }

  // ---------------------------------------------------------------------
  // Pass one: shells

  ghost predicate HasComponents(raws: seq<RawIssue>)
  {
    forall i :: 0 <= i < |raws| ==> raws[i].components != []
  }

  /** A record with none of its four reference slots filled. */
  predicate NoRefs(r: Issue)
  {
    r.development.None? && r.qa.None? && r.epic.None? && r.testCases.None?
  }

  /** A record whose filled reference slots all hold records without
      references: the reference depth is at most one. */
  predicate RefsAreLeaves(r: Issue)
  {
    && (r.development.Some? ==> NoRefs(r.development.value))
    && (r.qa.Some? ==> NoRefs(r.qa.value))
    && (r.epic.Some? ==> NoRefs(r.epic.value))
    && (r.testCases.Some? ==> NoRefs(r.testCases.value))
  }

  /** The shell of an issue: identity fields and flags, no references yet.
      The platform is the first component, so an issue needs one. The Easy
      flag is membership of "Easy" in the labels, written with `in`: the
      same membership that the linear search `Contains` decides. */
  function ConvertIssue(raw: RawIssue): (r: Issue)
    requires raw.components != []
    ensures r.key == raw.key && r.name == raw.summary && r.typeName == raw.typeName
    ensures r.uri == CreateUri(raw.key) && r.platform == raw.components[0].name
    ensures r.assignee == raw.assignee && r.storyPoints == raw.storyPoints
    ensures !r.outSprint && NoRefs(r)
    ensures r.isResolved <==> raw.statusCategory == "done"
    ensures r.isEasy <==> "Easy" in raw.labels
  {
    Issue(raw.key, raw.summary, None, None, None, None, raw.storyPoints, raw.typeName,
          raw.assignee, raw.components[0].name, false, raw.statusCategory == "done",
          "Easy" in raw.labels, CreateUri(raw.key))
  }

  /** The map every lookup goes through: each key to a shell, stored under its
      own key, in the sprint and without references. */
  ghost predicate ShellsOnly(index: map<string, Issue>)
  {
    forall k :: k in index ==> index[k].key == k && !index[k].outSprint && NoRefs(index[k])
  }

  /** The key-to-shell map pass one builds, inserting in input order. */
  function ShellIndex(raws: seq<RawIssue>): (index: map<string, Issue>)
    requires HasComponents(raws)
    ensures forall i :: 0 <= i < |raws| ==> raws[i].key in index
    ensures ShellsOnly(index)
    decreases |raws|
  {
    if raws == [] then
      map[]
    else
      var last := raws[|raws| - 1];
      var index := ShellIndex(raws[..|raws| - 1]);
      assert forall i :: 0 <= i < |raws| - 1 ==> raws[..|raws| - 1][i] == raws[i];
      index[last.key := ConvertIssue(last)]
  }

  /** The map holds no key that is not the key of some input issue. */
  lemma {:induction false} ShellIndexKeys(raws: seq<RawIssue>)
    requires HasComponents(raws)
    ensures forall k :: k in ShellIndex(raws) ==> exists i :: 0 <= i < |raws| && raws[i].key == k
    decreases |raws|
  {
    if raws != [] {
      var init := raws[..|raws| - 1];
      assert forall i :: 0 <= i < |init| ==> init[i] == raws[i];
      ShellIndexKeys(init);
    }
  }

  /** With duplicate keys the map keeps the shell of the last duplicate. */
  lemma {:induction false} ShellIndexLastWins(raws: seq<RawIssue>, i: int)
    requires HasComponents(raws)
    requires 0 <= i < |raws|
    requires forall j :: i < j < |raws| ==> raws[j].key != raws[i].key
    ensures raws[i].key in ShellIndex(raws)
    ensures ShellIndex(raws)[raws[i].key] == ConvertIssue(raws[i])
  {
    if i < |raws| - 1 {
      var init := raws[..|raws| - 1];
      ShellIndexLastWins(init, i);
    }
  }

  /** With unique keys, an entry of the map built from one ordering of the
      batch is also the entry of the map built from any other ordering. */
  lemma ShellIndexSameEntry(a: seq<RawIssue>, b: seq<RawIssue>, k: string)
    requires HasComponents(a) && HasComponents(b)
    requires UniqueKeys(a) && UniqueKeys(b)
    requires multiset(a) == multiset(b)
    requires k in ShellIndex(a)
    ensures k in ShellIndex(b) && ShellIndex(a)[k] == ShellIndex(b)[k]
  {
    ShellIndexKeys(a);
    var i :| 0 <= i < |a| && a[i].key == k;
    assert a[i] in multiset(b);
    var j :| 0 <= j < |b| && b[j] == a[i];
    ShellIndexLastWins(a, i);
    ShellIndexLastWins(b, j);
  }

  /** When keys are unique, the map does not depend on the input order. */
  lemma ShellIndexOrderIndependent(a: seq<RawIssue>, b: seq<RawIssue>)
    requires HasComponents(a) && HasComponents(b)
    requires UniqueKeys(a) && UniqueKeys(b)
    requires multiset(a) == multiset(b)
    ensures ShellIndex(a) == ShellIndex(b)
  {
    forall k | k in ShellIndex(a)
      ensures k in ShellIndex(b) && ShellIndex(a)[k] == ShellIndex(b)[k]
    {
      ShellIndexSameEntry(a, b, k);
    }
    forall k | k in ShellIndex(b)
      ensures k in ShellIndex(a)
    {
      ShellIndexSameEntry(b, a, k);
    }
  }

  // ---------------------------------------------------------------------
  // Slot finders

  /** The record that stands in for an issue outside the fetched batch, built
      from the snapshot a link or the epic field carries. */
  function StandIn(key: string, name: string, typeName: string, isResolved: bool): (r: Issue)
    ensures r.key == key && r.outSprint && NoRefs(r) && r.uri == CreateUri(key)
    ensures r.assignee == "" && r.platform == ""
    ensures r.name == name && r.typeName == typeName && r.isResolved == isResolved
    ensures r.storyPoints.None? && !r.isEasy
  {
    Issue(key, name, None, None, None, None, None, typeName, "", "", true, isResolved, false, CreateUri(key))
  }

  /** The epic slot: nothing for an empty epic field, the stored shell when the
      epic is in the batch, otherwise an out-of-sprint stand-in. */
  function FindEpicIssue(index: map<string, Issue>, raw: RawIssue): (r: Option<Issue>)
    ensures raw.epic == "" ==> r.None?
    ensures raw.epic != "" && raw.epic in index ==> r == Some(index[raw.epic])
    ensures raw.epic != "" && raw.epic !in index ==>
              && r.Some? && r.value.key == raw.epic && r.value.outSprint
              && r.value.typeName == "Epic" && !r.value.isResolved
              && r.value.uri == CreateUri(raw.epic)
  {
    if raw.epic == "" then
      None
    else if raw.epic in index then
      Some(index[raw.epic])
    else
      Some(StandIn(raw.epic, "", "Epic", false))
  }

  /** Over a map of shells, the epic slot holds a stand-in exactly when the
      epic key is missing from the map, and its key is always the epic key. */
  lemma EpicStandInIffAbsent(index: map<string, Issue>, raw: RawIssue)
    requires ShellsOnly(index)
    ensures var r := FindEpicIssue(index, raw);
            && (r.Some? <==> raw.epic != "")
            && (r.Some? ==> r.value.key == raw.epic && NoRefs(r.value))
            && (r.Some? && r.value.outSprint <==> raw.epic != "" && raw.epic !in index)
  {
  }

  /** An outward Blocks link to a QA or TestCase issue. */
  predicate IsQaLink(l: Link)
  {
    && l.typeName == "Blocks"
    && l.outward.key != ""
    && (l.outward.typeName == "QA" || l.outward.typeName == "TestCase")
  }

  /** What one link adds to the QA candidates: an in-batch target only when
      its platform is "QA"; a missing target always, as a stand-in. */
  function QaCandidate(index: map<string, Issue>, l: Link): Option<Issue>
  {
    if !IsQaLink(l) then
      None
    else if l.outward.key in index then
      if index[l.outward.key].platform == "QA" then Some(index[l.outward.key]) else None
    else
      Some(StandIn(l.outward.key, l.outward.summary, l.outward.typeName, l.outward.statusCategory == "done"))
  }

  /** The QA candidates of a list of links, in link order. */
  function QaCandidates(index: map<string, Issue>, links: seq<Link>): seq<Issue>
    decreases |links|
  {
    if links == [] then []
    else QaCandidates(index, links[..|links| - 1]) + AsSeq(QaCandidate(index, links[|links| - 1]))
  }

  /** Candidates follow link order: the candidates of two link lists in a row
      are the candidates of the first followed by those of the second. */
  lemma {:induction false} QaCandidatesAppend(index: map<string, Issue>, a: seq<Link>, b: seq<Link>)
    ensures QaCandidates(index, a + b) == QaCandidates(index, a) + QaCandidates(index, b)
    decreases |b|
  {
    if b != [] {
      var b' := b[..|b| - 1];
      assert (a + b)[..|a + b| - 1] == a + b';
      assert (a + b)[|a + b| - 1] == b[|b| - 1];
      QaCandidatesAppend(index, a, b');
    } else {
      assert a + b == a;
    }
  }

  /** Every QA candidate comes from a qualifying link: an in-batch shell whose
      platform is "QA", or a stand-in exactly when the target is missing. */
  lemma {:induction false} QaCandidatesSound(index: map<string, Issue>, links: seq<Link>)
    requires ShellsOnly(index)
    ensures forall c :: c in QaCandidates(index, links) ==>
              && NoRefs(c)
              && (c.outSprint <==> c.key !in index)
              && (!c.outSprint ==> c == index[c.key] && c.platform == "QA")
              && exists l :: l in links && IsQaLink(l) && l.outward.key == c.key
    decreases |links|
  {
    if links != [] {
      var init := links[..|links| - 1];
      QaCandidatesSound(index, init);
      forall l | l in init ensures l in links {
      }
    }
  }

  /** An out-of-sprint candidate is exactly the stand-in built from the
      snapshot of a QA link whose target is outside the map: its name, type
      and resolution come from that link. */
  lemma {:induction false} QaStandInsFromLinks(index: map<string, Issue>, links: seq<Link>)
    requires ShellsOnly(index)
    ensures forall c :: c in QaCandidates(index, links) && c.outSprint ==>
              exists l :: l in links && IsQaLink(l) && l.outward.key !in index
                          && c == StandIn(l.outward.key, l.outward.summary, l.outward.typeName,
                                          l.outward.statusCategory == "done")
    decreases |links|
  {
    if links != [] {
      var init := links[..|links| - 1];
      QaStandInsFromLinks(index, init);
      forall l | l in init ensures l in links {
      }
    }
  }

  /** Every qualifying link yields a candidate with the link's target key. */
  lemma {:induction false} QaCandidatesComplete(index: map<string, Issue>, links: seq<Link>)
    requires ShellsOnly(index)
    ensures forall l :: l in links && IsQaLink(l) && (l.outward.key !in index || index[l.outward.key].platform == "QA") ==>
              exists c :: c in QaCandidates(index, links) && c.key == l.outward.key
    decreases |links|
  {
    if links != [] {
      var init := links[..|links| - 1];
      QaCandidatesComplete(index, init);
      var last := links[|links| - 1];
      assert links == init + [last];
      var cs := QaCandidates(index, links);
      forall l | l in links && IsQaLink(l) && (l.outward.key !in index || index[l.outward.key].platform == "QA")
        ensures exists c :: c in cs && c.key == l.outward.key
      {
        if l in init {
          var c :| c in QaCandidates(index, init) && c.key == l.outward.key;
          assert c in cs;
        } else {
          assert l == last;
          assert QaCandidate(index, l).value in cs;
        }
      }
    }
  }

  /** findQaIssue: collects the QA candidates of an issue's links. */
  method FindQaIssue(index: map<string, Issue>, raw: RawIssue) returns (result: seq<Issue>)
    ensures result == QaCandidates(index, raw.links)
  {
    var links := raw.links;
    result := [];
    var i := 0;
    while i < |links|
      invariant 0 <= i <= |links|
      invariant result == QaCandidates(index, links[..i])
    {
      var link := links[i];
      assert links[..i + 1][..i] == links[..i];
      if link.typeName == "Blocks" && link.outward.key != ""
        && (link.outward.typeName == "QA" || link.outward.typeName == "TestCase")
      {
        if link.outward.key in index {
          var qaIssue := index[link.outward.key];
          if qaIssue.platform == "QA" {
            result := result + [qaIssue];
          }
        } else {
          var qaIssue := StandIn(link.outward.key, link.outward.summary, link.outward.typeName,
                                 link.outward.statusCategory == "done");
          result := result + [qaIssue];
        }
      }
      i := i + 1;
    }
    assert links[..i] == links;
  }

  /** findTestIssue: the first candidate whose name carries no test-case token. */
  function FindTestIssue(candidates: seq<Issue>): (r: Option<Issue>)
    ensures r.None? <==> forall i :: 0 <= i < |candidates| ==> HasTestCaseSubstring(candidates[i].name)
    ensures r.Some? ==> exists i ::
              && 0 <= i < |candidates| && candidates[i] == r.value
              && !HasTestCaseSubstring(candidates[i].name)
              && forall j :: 0 <= j < i ==> HasTestCaseSubstring(candidates[j].name)
  {
    if candidates == [] then
      None
    else if !HasTestCaseSubstring(candidates[0].name) then
      Some(candidates[0])
    else
      var r := FindTestIssue(candidates[1..]);
      assert forall i :: 1 <= i < |candidates| ==> candidates[1..][i - 1] == candidates[i];
      r
  }

  /** A candidate that is a test case by its name or by its type. */
  predicate IsTestCaseCandidate(c: Issue)
  {
    HasTestCaseSubstring(c.name) || c.typeName == "TestCase"
  }

  /** findTestCassesIssue: the first candidate that is a test case by name or type. */
  function FindTestCasesIssue(candidates: seq<Issue>): (r: Option<Issue>)
    ensures r.None? <==> forall i :: 0 <= i < |candidates| ==> !IsTestCaseCandidate(candidates[i])
    ensures r.Some? ==> exists i ::
              && 0 <= i < |candidates| && candidates[i] == r.value
              && IsTestCaseCandidate(candidates[i])
              && forall j :: 0 <= j < i ==> !IsTestCaseCandidate(candidates[j])
  {
    if candidates == [] then
      None
    else if IsTestCaseCandidate(candidates[0]) then
      Some(candidates[0])
    else
      var r := FindTestCasesIssue(candidates[1..]);
      assert forall i :: 1 <= i < |candidates| ==> candidates[1..][i - 1] == candidates[i];
      r
  }

  /** An inward Blocks link from an issue that is not QA, TestCase or Story. */
  predicate IsDevelopmentLink(l: Link)
  {
    && l.typeName == "Blocks"
    && l.inward.key != ""
    && l.inward.typeName != "QA"
    && l.inward.typeName != "TestCase"
    && l.inward.typeName != "Story"
  }

  /** The record for a blocking issue: name, type and resolution always from
      the link's snapshot; assignee and platform from the map when present. */
  function DevelopmentRecord(index: map<string, Issue>, t: LinkTarget): Issue
  {
    var hasIssue := t.key in index;
    Issue(t.key, t.summary, None, None, None, None, None, t.typeName,
          if hasIssue then index[t.key].assignee else "",
          if hasIssue then index[t.key].platform else "",
          !hasIssue, t.statusCategory == "done", false, CreateUri(t.key))
  }

  /** The development candidates of a list of links, in link order. */
  function DevelopmentCandidates(index: map<string, Issue>, links: seq<Link>): seq<Issue>
    decreases |links|
  {
    if links == [] then []
    else
      var last := links[|links| - 1];
      DevelopmentCandidates(index, links[..|links| - 1])
      + (if IsDevelopmentLink(last) then [DevelopmentRecord(index, last.inward)] else [])
  }

  /** findDevelopmentIssues: collects the development candidates of an issue's links. */
  method FindDevelopmentIssues(index: map<string, Issue>, raw: RawIssue) returns (result: seq<Issue>)
    ensures result == DevelopmentCandidates(index, raw.links)
  {
    var links := raw.links;
    result := [];
    var i := 0;
    while i < |links|
      invariant 0 <= i <= |links|
      invariant result == DevelopmentCandidates(index, links[..i])
    {
      var link := links[i];
      assert links[..i + 1][..i] == links[..i];
      if link.typeName == "Blocks" && link.inward.key != "" && link.inward.typeName != "QA"
        && link.inward.typeName != "TestCase" && link.inward.typeName != "Story"
      {
        var hasIssue := link.inward.key in index;
        var assignee := "";
        var platform := "";
        if hasIssue {
          assignee := index[link.inward.key].assignee;
          platform := index[link.inward.key].platform;
        }
        var developmentIssue := Issue(link.inward.key, link.inward.summary, None, None, None, None,
                                      None, link.inward.typeName, assignee, platform, !hasIssue,
                                      link.inward.statusCategory == "done", false, CreateUri(link.inward.key));
        result := result + [developmentIssue];
      }
      i := i + 1;
    }
    assert links[..i] == links;
  }

  /** findDevelopmentIssue: the first development candidate, if any. */
  function FindDevelopmentIssue(candidates: seq<Issue>): (r: Option<Issue>)
    ensures r.None? <==> candidates == []
    ensures r.Some? ==> r.value == candidates[0]
  {
    if |candidates| > 0 then Some(candidates[0]) else None
  }

  /** The development slot is taken from the first development link: its key,
      name, type and resolution come from the link's snapshot even when the
      target is in the map, which supplies only assignee and platform; the
      record is out of sprint exactly when the target is missing. */
  lemma {:induction false} FirstDevelopmentLink(index: map<string, Issue>, links: seq<Link>)
    ensures var r := FindDevelopmentIssue(DevelopmentCandidates(index, links));
      && (r.None? <==> forall i :: 0 <= i < |links| ==> !IsDevelopmentLink(links[i]))
      && (r.Some? ==> exists i ::
            && 0 <= i < |links| && IsDevelopmentLink(links[i])
            && (forall j :: 0 <= j < i ==> !IsDevelopmentLink(links[j]))
            && var t := links[i].inward;
            && r.value.key == t.key && r.value.name == t.summary && r.value.typeName == t.typeName
            && (r.value.isResolved <==> t.statusCategory == "done")
            && (r.value.outSprint <==> t.key !in index)
            && r.value.assignee == (if t.key in index then index[t.key].assignee else "")
            && r.value.platform == (if t.key in index then index[t.key].platform else "")
            && NoRefs(r.value))
    decreases |links|
  {
    if links != [] {
      var init := links[..|links| - 1];
      FirstDevelopmentLink(index, init);
      assert forall i :: 0 <= i < |init| ==> init[i] == links[i];
    }
  }

  // ---------------------------------------------------------------------
  // Pass two: references

  /** The record pass two produces for one input issue. The shell comes from
      the map (for a duplicated key, the last duplicate's shell) and the slots
      from this issue's own links and epic field, chosen by the shell's type. */
  function Resolve(index: map<string, Issue>, raw: RawIssue): (r: Issue)
    requires raw.key in index
    requires ShellsOnly(index)
    ensures r.key == raw.key
  {
    var issue := index[raw.key];
    if issue.typeName == "QA" || issue.typeName == "TestCase" then
      issue.(development := FindDevelopmentIssue(DevelopmentCandidates(index, raw.links)),
             epic := FindEpicIssue(index, raw))
    else if issue.typeName != "Epic" then
      var candidates := QaCandidates(index, raw.links);
      issue.(qa := FindTestIssue(candidates),
             testCases := FindTestCasesIssue(candidates),
             epic := FindEpicIssue(index, raw))
    else
      issue
  }

  /** Pass two changes only the four reference slots of the shell, and which
      slots it may fill depends on the shell's type: QA and TestCase issues
      get no QA or TestCases slot, epics get none at all, and every other
      type gets no Development slot. */
  lemma ResolveKeepsShell(index: map<string, Issue>, raw: RawIssue)
    requires raw.key in index && ShellsOnly(index)
    ensures var r := Resolve(index, raw);
            var t := index[raw.key].typeName;
            && r.(development := None, qa := None, epic := None, testCases := None) == index[raw.key]
            && ((t == "QA" || t == "TestCase") ==> r.qa.None? && r.testCases.None?)
            && (t == "Epic" ==> NoRefs(r))
            && (t != "QA" && t != "TestCase" ==> r.development.None?)
            && ((t == "QA" || t == "TestCase") ==>
                  r.development == FindDevelopmentIssue(DevelopmentCandidates(index, raw.links)))
            && (t != "Epic" ==> r.epic == FindEpicIssue(index, raw))
  {
  }

  /** References are one level deep: every record a slot holds has no
      references of its own. */
  lemma ResolveDepthOne(index: map<string, Issue>, raw: RawIssue)
    requires raw.key in index && ShellsOnly(index)
    ensures RefsAreLeaves(Resolve(index, raw))
  {
    var candidates := QaCandidates(index, raw.links);
    QaCandidatesSound(index, raw.links);
    FirstDevelopmentLink(index, raw.links);
  }

  /** A QA slot never holds an issue whose name carries a test-case token, and
      both the QA and the TestCases slot hold candidates of the issue's links. */
  lemma QaSlotsFromCandidates(index: map<string, Issue>, raw: RawIssue)
    requires raw.key in index && ShellsOnly(index)
    ensures var r := Resolve(index, raw);
            && (r.qa.Some? ==> !HasTestCaseSubstring(r.qa.value.name) && r.qa.value in QaCandidates(index, raw.links))
            && (r.testCases.Some? ==> IsTestCaseCandidate(r.testCases.value) && r.testCases.value in QaCandidates(index, raw.links))
  {
  }

  /** The body of convert's second pass for one input issue: its shell from
      the map, with the slots its type calls for filled in. */
  method FillReferences(issues: map<string, Issue>, jiraIssue: RawIssue) returns (issue: Issue)
    requires jiraIssue.key in issues && ShellsOnly(issues)
    ensures issue == Resolve(issues, jiraIssue)
  {
    issue := issues[jiraIssue.key];
    if issue.typeName == "QA" || issue.typeName == "TestCase" {
      var developmentIssues := FindDevelopmentIssues(issues, jiraIssue);
      issue := issue.(development := FindDevelopmentIssue(developmentIssues),
                      epic := FindEpicIssue(issues, jiraIssue));
    } else if issue.typeName != "Epic" {
      var qaIssues := FindQaIssue(issues, jiraIssue);
      issue := issue.(qa := FindTestIssue(qaIssues));
      var testCaseIssues := FindQaIssue(issues, jiraIssue);
      issue := issue.(testCases := FindTestCasesIssue(testCaseIssues),
                      epic := FindEpicIssue(issues, jiraIssue));
    }
  }

  /** The first pass of convert: the key-to-shell map, filled in input order. */
  method IndexShells(raws: seq<RawIssue>) returns (issues: map<string, Issue>)
    requires HasComponents(raws)
    ensures issues == ShellIndex(raws)
  {
    issues := map[];
    var i := 0;
    while i < |raws|
      invariant 0 <= i <= |raws|
      invariant issues == ShellIndex(raws[..i])
    {
      assert raws[..i + 1][..i] == raws[..i];
      issues := issues[raws[i].key := ConvertIssue(raws[i])];
      i := i + 1;
    }
    assert raws[..i] == raws;
  }

  /** A title without the letter t (Latin or Cyrillic, either case) never
      names a test case: every token starts with one. */
  lemma NoLetterTNoTestCase(title: string)
    requires forall i :: 0 <= i < |title| ==> title[i] !in {'t', 'T', 'т', 'Т'}
    ensures !HasTestCaseSubstring(title)
  {
    var lower := Strings.ToLower(title);
    assert 't' !in lower && 'т' !in lower;
    Strings.FirstCharAbsent(lower, "тесткейс");
    Strings.FirstCharAbsent(lower, "тест-кейс");
    Strings.FirstCharAbsent(lower, "test casse");
    Strings.FirstCharAbsent(lower, "test-casse");
    Strings.FirstCharAbsent(lower, "test case");
    Strings.FirstCharAbsent(lower, "test-case");
  }

  /** The QA candidates of the links in the Task scenario below: only the
      outward Blocks link to the in-batch QA issue C contributes. */
  lemma TaskScenarioCandidates(index: map<string, Issue>, links: seq<Link>)
    requires "C" in index && index["C"].platform == "QA"
    requires links == [
      Link("Blocks", LinkTarget("B", "Login fails", "Bug", "indeterminate"), LinkTarget("", "", "", "")),
      Link("Blocks", LinkTarget("", "", "", ""), LinkTarget("C", "QA: verify login", "QA", "new"))]
    ensures QaCandidates(index, links) == [index["C"]]
  {
    assert links[..1][..0] == [];
    assert links[..|links| - 1] == links[..1];
    assert QaCandidates(index, links[..1]) == [];
  }

  /** The QA issue's title in the scenario below is not a test case. */
  lemma QaTitleIsNotTestCase()
    ensures !HasTestCaseSubstring("QA: verify login")
  {
    var title := "QA: verify login";
    forall i | 0 <= i < |title|
      ensures title[i] !in {'t', 'T', 'т', 'Т'}
    {
      assert title[i] in {'Q', 'A', ':', ' ', 'v', 'e', 'r', 'i', 'f', 'y', 'l', 'o', 'g', 'n'};
    }
    NoLetterTNoTestCase(title);
  }

  /** Pass two for an issue that is neither QA, TestCase nor Epic: the QA
      and TestCases slots come from the QA candidates of its links and the
      Development slot stays empty. */
  lemma ResolveOtherType(index: map<string, Issue>, raw: RawIssue)
    requires raw.key in index && ShellsOnly(index)
    requires index[raw.key].typeName !in {"QA", "TestCase", "Epic"}
    ensures Resolve(index, raw).qa == FindTestIssue(QaCandidates(index, raw.links))
    ensures Resolve(index, raw).testCases == FindTestCasesIssue(QaCandidates(index, raw.links))
    ensures Resolve(index, raw).development.None?
  {
  }

  /** A lone candidate that is a test case neither by name nor by type fills
      the QA slot and leaves the TestCases slot empty. */
  lemma SingleQaCandidate(c: Issue)
    requires !HasTestCaseSubstring(c.name) && c.typeName != "TestCase"
    ensures FindTestIssue([c]) == Some(c)
    ensures FindTestCasesIssue([c]) == None
  {
    assert !IsTestCaseCandidate(c);
  }

  /** A Task blocked by a Bug B and blocking an in-batch QA issue C (platform
      "QA", title "QA: verify login"): C fills the QA slot, no test case is
      found, and the Development slot stays empty because only QA and
      TestCase issues look for one. */
  lemma TaskScenario(index: map<string, Issue>, a: RawIssue)
    requires ShellsOnly(index)
    requires a.key in index && index[a.key].typeName == "Task"
    requires "C" in index && index["C"].typeName == "QA" && index["C"].platform == "QA"
    requires index["C"].name == "QA: verify login"
    requires a.links == [
      Link("Blocks", LinkTarget("B", "Login fails", "Bug", "indeterminate"), LinkTarget("", "", "", "")),
      Link("Blocks", LinkTarget("", "", "", ""), LinkTarget("C", "QA: verify login", "QA", "new"))]
    ensures Resolve(index, a).qa == Some(index["C"])
    ensures Resolve(index, a).testCases.None?
    ensures Resolve(index, a).development.None?
  {
    TaskScenarioCandidates(index, a.links);
    QaTitleIsNotTestCase();
    SingleQaCandidate(index["C"]);
    ResolveOtherType(index, a);
  }

  /** Pass two over a list of input issues: each one resolved against the
      map, in input order. */
  function ResolveAll(index: map<string, Issue>, raws: seq<RawIssue>): seq<Issue>
    requires ShellsOnly(index)
    requires forall i :: 0 <= i < |raws| ==> raws[i].key in index
    decreases |raws|
  {
    if raws == [] then []
    else ResolveAll(index, raws[..|raws| - 1]) + [Resolve(index, raws[|raws| - 1])]
  }

  /** Pass two keeps one record per input issue, at its input's position. */
  lemma {:induction false} ResolveAllElements(index: map<string, Issue>, raws: seq<RawIssue>)
    requires ShellsOnly(index)
    requires forall i :: 0 <= i < |raws| ==> raws[i].key in index
    ensures |ResolveAll(index, raws)| == |raws|
    ensures forall i :: 0 <= i < |raws| ==> ResolveAll(index, raws)[i] == Resolve(index, raws[i])
    decreases |raws|
  {
    if raws != [] {
      var init := raws[..|raws| - 1];
      assert forall i :: 0 <= i < |init| ==> init[i] == raws[i];
      ResolveAllElements(index, init);
    }
  }

  /** convert: pass one fills the key-to-shell map, pass two emits one record
      per input issue, in input order, with its slots resolved. */
  method Convert(raws: seq<RawIssue>) returns (result: seq<Issue>)
    requires HasComponents(raws)
    ensures |result| == |raws|
    ensures forall i :: 0 <= i < |raws| ==> result[i] == Resolve(ShellIndex(raws), raws[i])
  {
    var issues := IndexShells(raws);
    result := [];
    var j := 0;
    while j < |raws|
      invariant 0 <= j <= |raws|
      invariant result == ResolveAll(issues, raws[..j])
    {
      var jiraIssue := raws[j];
      assert raws[..j + 1][..j] == raws[..j];
      if jiraIssue.key in issues {
        var issue := FillReferences(issues, jiraIssue);
        result := result + [issue];
      }
      j := j + 1;
    }
    assert raws[..j] == raws;
    ResolveAllElements(issues, raws);
  }

  /** The output is keyed like the input: one record per input issue, in
      order, each with the key of its input issue and references one deep. */
  lemma ConvertKeysAndDepth(raws: seq<RawIssue>)
    requires HasComponents(raws)
    ensures forall i :: 0 <= i < |raws| ==>
              && raws[i].key in ShellIndex(raws)
              && Resolve(ShellIndex(raws), raws[i]).key == raws[i].key
              && RefsAreLeaves(Resolve(ShellIndex(raws), raws[i]))
  {
    var index := ShellIndex(raws);
    forall i | 0 <= i < |raws|
      ensures raws[i].key in index && RefsAreLeaves(Resolve(index, raws[i]))
    {
      ResolveDepthOne(index, raws[i]);
    }
  }

  /** With unique keys, every issue's resolved record is the same whatever
      order the batch arrives in. */
  lemma ResolveOrderIndependent(a: seq<RawIssue>, b: seq<RawIssue>, i: int, j: int)
    requires HasComponents(a) && HasComponents(b)
    requires UniqueKeys(a) && UniqueKeys(b) && multiset(a) == multiset(b)
    requires 0 <= i < |a| && 0 <= j < |b| && a[i] == b[j]
    ensures Resolve(ShellIndex(a), a[i]) == Resolve(ShellIndex(b), b[j])
  {
    ShellIndexOrderIndependent(a, b);
  }

  // ---------------------------------------------------------------------
  // Per-user view

  /** The issues assigned to `name`, in their original order. */
  function AssignedTo(issues: seq<Issue>, name: string): seq<Issue>
    decreases |issues|
  {
    if issues == [] then []
    else
      var last := issues[|issues| - 1];
      AssignedTo(issues[..|issues| - 1], name) + (if last.assignee == name then [last] else [])
  }

  /** The filter keeps order: filtering two lists in a row is filtering each. */
  lemma {:induction false} AssignedToAppend(a: seq<Issue>, b: seq<Issue>, name: string)
    ensures AssignedTo(a + b, name) == AssignedTo(a, name) + AssignedTo(b, name)
    decreases |b|
  {
    if b != [] {
      var b' := b[..|b| - 1];
      assert (a + b)[..|a + b| - 1] == a + b';
      assert (a + b)[|a + b| - 1] == b[|b| - 1];
      AssignedToAppend(a, b', name);
    } else {
      assert a + b == a;
    }
  }

  /** The filter keeps every occurrence of an issue assigned to `name` and
      nothing else. */
  lemma {:induction false} AssignedToCount(issues: seq<Issue>, name: string, x: Issue)
    ensures multiset(AssignedTo(issues, name))[x] == if x.assignee == name then multiset(issues)[x] else 0
    decreases |issues|
  {
    if issues != [] {
      var init := issues[..|issues| - 1];
      AssignedToCount(init, name, x);
      assert issues == init + [issues[|issues| - 1]];
    }
  }

  /** createUser: the user's planned and lost issues, each filtered by assignee. */
  method CreateUser(name: string, plannedIssues: seq<Issue>, lostIssues: seq<Issue>) returns (user: User)
    ensures user.name == name
    ensures user.plannedIssues == AssignedTo(plannedIssues, name)
    ensures user.lostIssues == AssignedTo(lostIssues, name)
  {
    var userPlannedIssues: seq<Issue> := [];
    var i := 0;
    while i < |plannedIssues|
      invariant 0 <= i <= |plannedIssues|
      invariant userPlannedIssues == AssignedTo(plannedIssues[..i], name)
    {
      assert plannedIssues[..i + 1][..i] == plannedIssues[..i];
      if plannedIssues[i].assignee == name {
        userPlannedIssues := userPlannedIssues + [plannedIssues[i]];
      }
      i := i + 1;
    }
    assert plannedIssues[..i] == plannedIssues;
    var userLostIssues: seq<Issue> := [];
    var j := 0;
    while j < |lostIssues|
      invariant 0 <= j <= |lostIssues|
      invariant userLostIssues == AssignedTo(lostIssues[..j], name)
    {
      assert lostIssues[..j + 1][..j] == lostIssues[..j];
      if lostIssues[j].assignee == name {
        userLostIssues := userLostIssues + [lostIssues[j]];
      }
      j := j + 1;
    }
    assert lostIssues[..j] == lostIssues;
    user := User(name, userPlannedIssues, userLostIssues);
  }
}
