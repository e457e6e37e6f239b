/** The epic chart's data: groups the chart records under each parent story
    title and computes, per group and platform, the open story points and
    whether the bar gets a border (some matching issue is in progress). */
module Chart {
  import opened Optional
  import Jira

  type Issue = Jira.Issue

  /** One bar of a platform's series. */
  datatype Point = Point(borderWidth: int, y: int)

  // ---------------------------------------------------------------------
  // Grouping by parent

  /** The group stored under `p`, or the empty group. */
  function Group(groups: map<string, seq<Issue>>, p: string): seq<Issue>
  {
    if p in groups then groups[p] else []
  }

  /** Pushes `issue` onto the group of each of `parents`, in order. */
  function AddToGroups(groups: map<string, seq<Issue>>, issue: Issue, parents: seq<string>): map<string, seq<Issue>>
    decreases |parents|
  {
    if parents == [] then
      groups
    else
      var last := parents[|parents| - 1];
      var before := AddToGroups(groups, issue, parents[..|parents| - 1]);
      before[last := Group(before, last) + [issue]]
  }

  /** The accumulator after reducing over `issues`. */
  function Categories(issues: seq<Issue>): map<string, seq<Issue>>
    decreases |issues|
  {
    if issues == [] then
      map[]
    else
      var last := issues[|issues| - 1];
      AddToGroups(Categories(issues[..|issues| - 1]), last, last.parents)
  }

  /** calculateCategories: for each issue and each of its parents, creates the
      parent's group if needed and pushes the issue onto it. */
  method CalculateCategories(issues: seq<Issue>) returns (result: map<string, seq<Issue>>)
    ensures result == Categories(issues)
  {
    result := map[];
    var i := 0;
    while i < |issues|
      invariant 0 <= i <= |issues|
      invariant result == Categories(issues[..i])
    {
      assert issues[..i + 1][..i] == issues[..i];
      var issue := issues[i];
      var parents := issue.parents;
      ghost var start := result;
      var k := 0;
      while k < |parents|
        invariant 0 <= k <= |parents|
        invariant result == AddToGroups(start, issue, parents[..k])
      {
        assert parents[..k + 1][..k] == parents[..k];
        var parent := parents[k];
        if parent !in result {
          result := result[parent := []];
        }
        result := result[parent := result[parent] + [issue]];
        k := k + 1;
      }
      assert parents[..k] == parents;
      i := i + 1;
    }
    assert issues[..i] == issues;
  }

  /** How many times `p` occurs in `s`. */
  function Count(p: string, s: seq<string>): nat
    decreases |s|
  {
    if s == [] then 0 else Count(p, s[..|s| - 1]) + (if s[|s| - 1] == p then 1 else 0)
  }

  function Repeat(x: Issue, n: nat): (r: seq<Issue>)
    ensures |r| == n && forall i :: 0 <= i < n ==> r[i] == x
  {
    if n == 0 then [] else Repeat(x, n - 1) + [x]
  }

  /** The reference grouping: the group of `p` lists the issues in input order,
      each once per occurrence of `p` among its parents. */
  function Members(issues: seq<Issue>, p: string): seq<Issue>
    decreases |issues|
  {
    if issues == [] then
      []
    else
      var last := issues[|issues| - 1];
      Members(issues[..|issues| - 1], p) + Repeat(last, Count(p, last.parents))
  }

  lemma {:induction false} AddToGroupsSpec(groups: map<string, seq<Issue>>, issue: Issue, parents: seq<string>, p: string)
    ensures p in AddToGroups(groups, issue, parents) <==> p in groups || p in parents
    ensures Group(AddToGroups(groups, issue, parents), p) == Group(groups, p) + Repeat(issue, Count(p, parents))
    decreases |parents|
  {
    if parents != [] {
      var init := parents[..|parents| - 1];
      AddToGroupsSpec(groups, issue, init, p);
      assert parents == init + [parents[|parents| - 1]];
      if parents[|parents| - 1] == p {
        assert Repeat(issue, Count(p, parents)) == Repeat(issue, Count(p, init)) + [issue];
      }
    }
  }

  /** The groups are exactly the parent titles that occur, and each group is
      the reference grouping of that title. */
  lemma {:induction false} CategoriesSpec(issues: seq<Issue>, p: string)
    ensures p in Categories(issues) <==> exists i :: 0 <= i < |issues| && p in issues[i].parents
    ensures Group(Categories(issues), p) == Members(issues, p)
    decreases |issues|
  {
    if issues != [] {
      var init := issues[..|issues| - 1];
      var last := issues[|issues| - 1];
      CategoriesSpec(init, p);
      AddToGroupsSpec(Categories(init), last, last.parents, p);
      assert forall i :: 0 <= i < |init| ==> init[i] == issues[i];
    }
  }

  // ---------------------------------------------------------------------
  // Per-category story points

  predicate HasPlatform(issue: Issue, category: string)
  {
    category in issue.platforms
  }

  /** Whether an issue is still open at `currentTime`; an issue without a close
      date counts as closing just after it. */
  function IsOpen(issue: Issue, currentTime: int): (r: bool)
    ensures issue.closeDate.None? ==> r
    ensures issue.closeDate.Some? ==> (r <==> issue.closeDate.value > currentTime)
  {
    var closeTime := match issue.closeDate
      case Some(t) => t
      case None => currentTime + 1;
    closeTime > currentTime
  }

  /** The issues on the given platform, in order. */
  function WithPlatform(issues: seq<Issue>, category: string): seq<Issue>
    decreases |issues|
  {
    if issues == [] then []
    else
      var last := issues[|issues| - 1];
      WithPlatform(issues[..|issues| - 1], category) + (if HasPlatform(last, category) then [last] else [])
  }

  /** The issues open at `currentTime`, in order. */
  function OpenAt(issues: seq<Issue>, currentTime: int): seq<Issue>
    decreases |issues|
  {
    if issues == [] then []
    else
      var last := issues[|issues| - 1];
      OpenAt(issues[..|issues| - 1], currentTime) + (if IsOpen(last, currentTime) then [last] else [])
  }

  /** Each issue's own points plus its children's points. */
  function Loads(issues: seq<Issue>): (r: seq<int>)
    ensures |r| == |issues|
    decreases |issues|
  {
    if issues == [] then []
    else
      var last := issues[|issues| - 1];
      Loads(issues[..|issues| - 1]) + [last.storyPoints + last.childrenStories]
  }

  /** The load at each position is that issue's own story points plus its
      children's story points. */
  lemma {:induction false} LoadsElements(issues: seq<Issue>)
    ensures forall i :: 0 <= i < |issues| ==> Loads(issues)[i] == issues[i].storyPoints + issues[i].childrenStories
    decreases |issues|
  {
    if issues != [] {
      var init := issues[..|issues| - 1];
      LoadsElements(init);
      assert forall i :: 0 <= i < |init| ==> init[i] == issues[i];
    }
  }

  /** Left fold with `+` from 0. */
  function Total(xs: seq<int>): int
    decreases |xs|
  {
    if xs == [] then 0 else Total(xs[..|xs| - 1]) + xs[|xs| - 1]
  }

  /** One bar: the open load of the platform's issues, and border width 2 when
      one of the platform's issues is in progress, whatever its close date. */
  function CategoryPoint(issues: seq<Issue>, category: string, currentTime: int): Point
  {
    var filteredIssues := WithPlatform(issues, category);
    var storyPoints := Total(Loads(OpenAt(filteredIssues, currentTime)));
    var borderWidth := if exists i | 0 <= i < |filteredIssues| :: filteredIssues[i].isProgress then 2 else 0;
    Point(borderWidth, storyPoints)
  }

  /** calculateCategoryStories: one bar per group, in the order of the groups. */
  function CalculateCategoryStories(categoriesIssues: seq<seq<Issue>>, category: string, currentTime: int): (r: seq<Point>)
    ensures |r| == |categoriesIssues|
    ensures forall i :: 0 <= i < |r| ==> r[i] == CategoryPoint(categoriesIssues[i], category, currentTime)
  {
    seq(|categoriesIssues|, i requires 0 <= i < |categoriesIssues| => CategoryPoint(categoriesIssues[i], category, currentTime))
  }

  /** The reference sum: points plus children points over the issues that
      are on the platform and open at `currentTime`. */
  function OpenLoad(issues: seq<Issue>, category: string, currentTime: int): int
    decreases |issues|
  {
    if issues == [] then 0
    else
      var last := issues[|issues| - 1];
      OpenLoad(issues[..|issues| - 1], category, currentTime)
      + (if HasPlatform(last, category) && IsOpen(last, currentTime) then last.storyPoints + last.childrenStories else 0)
  }

  lemma {:induction false} OpenAtAppend(a: seq<Issue>, b: seq<Issue>, currentTime: int)
    ensures OpenAt(a + b, currentTime) == OpenAt(a, currentTime) + OpenAt(b, currentTime)
    decreases |b|
  {
    if b != [] {
      var b' := b[..|b| - 1];
      assert (a + b)[..|a + b| - 1] == a + b';
      assert (a + b)[|a + b| - 1] == b[|b| - 1];
      OpenAtAppend(a, b', currentTime);
    } else {
      assert a + b == a;
    }
  }

  lemma {:induction false} LoadsAppend(a: seq<Issue>, b: seq<Issue>)
    ensures Loads(a + b) == Loads(a) + Loads(b)
    decreases |b|
  {
    if b != [] {
      var b' := b[..|b| - 1];
      assert (a + b)[..|a + b| - 1] == a + b';
      assert (a + b)[|a + b| - 1] == b[|b| - 1];
      LoadsAppend(a, b');
    } else {
      assert a + b == a;
    }
  }

  lemma {:induction false} TotalAppend(a: seq<int>, b: seq<int>)
    ensures Total(a + b) == Total(a) + Total(b)
    decreases |b|
  {
    if b != [] {
      var b' := b[..|b| - 1];
      assert (a + b)[..|a + b| - 1] == a + b';
      assert (a + b)[|a + b| - 1] == b[|b| - 1];
      TotalAppend(a, b');
    } else {
      assert a + b == a;
    }
  }

  lemma {:induction false} WithPlatformAppend(a: seq<Issue>, b: seq<Issue>, category: string)
    ensures WithPlatform(a + b, category) == WithPlatform(a, category) + WithPlatform(b, category)
    decreases |b|
  {
    if b != [] {
      var b' := b[..|b| - 1];
      assert (a + b)[..|a + b| - 1] == a + b';
      assert (a + b)[|a + b| - 1] == b[|b| - 1];
      WithPlatformAppend(a, b', category);
    } else {
      assert a + b == a;
    }
  }

  /** The filter-map-reduce pipeline computes the reference sum. */
  lemma {:induction false} CategoryPointLoad(issues: seq<Issue>, category: string, currentTime: int)
    ensures CategoryPoint(issues, category, currentTime).y == OpenLoad(issues, category, currentTime)
    decreases |issues|
  {
    if issues != [] {
      var init := issues[..|issues| - 1];
      var last := issues[|issues| - 1];
      CategoryPointLoad(init, category, currentTime);
      var f := WithPlatform(init, category);
      var g := if HasPlatform(last, category) then [last] else [];
      assert WithPlatform(issues, category) == f + g;
      OpenAtAppend(f, g, currentTime);
      var o := OpenAt(f, currentTime);
      var o' := OpenAt(g, currentTime);
      LoadsAppend(o, o');
      TotalAppend(Loads(o), Loads(o'));
      if HasPlatform(last, category) {
        assert g[..0] == [];
        assert OpenAt(g, currentTime) == if IsOpen(last, currentTime) then [last] else [];
        if IsOpen(last, currentTime) {
          assert o'[..0] == [];
          assert Loads(o') == [last.storyPoints + last.childrenStories];
          assert Loads(o')[..0] == [];
        }
      }
    }
  }

  /** Membership in the platform filter. */
  lemma {:induction false} WithPlatformMembers(issues: seq<Issue>, category: string)
    ensures forall x :: x in WithPlatform(issues, category) <==> x in issues && HasPlatform(x, category)
    decreases |issues|
  {
    if issues != [] {
      var init := issues[..|issues| - 1];
      WithPlatformMembers(init, category);
      assert issues == init + [issues[|issues| - 1]];
    }
  }

  /** The border is 2 exactly when some issue on the platform is in progress,
      open or not, and 0 otherwise. */
  lemma CategoryPointBorder(issues: seq<Issue>, category: string, currentTime: int)
    ensures var p := CategoryPoint(issues, category, currentTime);
            && (p.borderWidth == 2 <==> exists i :: 0 <= i < |issues| && HasPlatform(issues[i], category) && issues[i].isProgress)
            && (p.borderWidth == 0 || p.borderWidth == 2)
  {
    WithPlatformMembers(issues, category);
    var f := WithPlatform(issues, category);
    if exists i :: 0 <= i < |issues| && HasPlatform(issues[i], category) && issues[i].isProgress {
      var i :| 0 <= i < |issues| && HasPlatform(issues[i], category) && issues[i].isProgress;
      assert issues[i] in f;
      var j :| 0 <= j < |f| && f[j] == issues[i];
    }
    if exists j :: 0 <= j < |f| && f[j].isProgress {
      var j :| 0 <= j < |f| && f[j].isProgress;
      assert f[j] in issues;
      var i :| 0 <= i < |issues| && issues[i] == f[j];
    }
  }

  /** An issue not on the platform contributes nothing to the bar, wherever
      it stands in the group. */
  lemma OtherPlatformIgnored(a: seq<Issue>, x: Issue, b: seq<Issue>, category: string, currentTime: int)
    requires !HasPlatform(x, category)
    ensures CategoryPoint(a + [x] + b, category, currentTime) == CategoryPoint(a + b, category, currentTime)
  {
    WithPlatformAppend(a + [x], b, category);
    WithPlatformAppend(a, [x], category);
    WithPlatformAppend(a, b, category);
    assert [x][..0] == [];
    assert WithPlatform([x], category) == [];
    assert WithPlatform(a + [x], category) == WithPlatform(a, category);
    assert WithPlatform(a + [x] + b, category) == WithPlatform(a + b, category);
  }
}
