# scrum-charts core, modelled in Dafny

scrum-charts reads a sprint's issues from a Jira search and draws sprint
charts from them. This project models three parts of it:

- **Planning.** This is the planning/planning.go conversion. Each raw
  tracker issue becomes a planning `Issue`. Its QA, TestCases, Development
  and Epic slots are filled from the issue's links and from the other
  issues of the same search. The result is then split per user into
  planned and lost issues.
- **Jira.** This is the jira/jira.go conversion behind `Search`. It
  collects the search's stories. Each raw issue becomes a chart `Issue`
  with parents (the stories it blocks), platforms, subtasks and an
  in-progress flag. The subtasks' story points and progress are then
  rolled up into their parent, in place, over an array.
- **Chart.** This is the data side of assets/js/epic.js. Issues are grouped
  by parent story. For each story and platform, the chart gets the story
  points still open at a given time, and a border when some issue is in
  progress.

Files:

- optional.dfy holds `Option`.
- tracker.dfy holds the raw tracker issue that both Go packages decode.
- strings.dfy holds lower-casing and substring search.
- planning.dfy, jira.dfy and chart.dfy hold the three parts above.

Most loops in the source are methods with loops in the model. These are
the two passes of `convert`, the link scans of `findQaIssue` and
`findDevelopmentIssues`, `createUser`, `collectStories`, the array loops of
`Search`, and the nested loops of `calculateCategories`. Each is proved
equal to a recursive specification function, and the properties are lemmas
about those functions. Some other loops are proved in a different way:

- The two `contains` methods are proved against a direct postcondition:
  membership, and the first matching index.
- The platform and subtask loops of `convertJiraIssue` are proved equal to
  sequence comprehensions.
- The first-match loops of `findTestIssue` and `findTestCassesIssue`, and
  the map/filter/reduce chain of `calculateCategoryStories`, are recursive
  functions in the model. Postconditions and lemmas state which candidate
  each search picks, and what sum and border the chart chain yields.

Two consequences of the code are worth stating, because a reader might
expect otherwise:

- Only issues of type QA or TestCase look for a Development issue
  (planning/planning.go:95-102). A Task blocked by a Bug keeps an empty
  Development slot; `Planning.TaskScenario` proves this.
- A linked QA or TestCase issue that is part of the same search becomes a QA
  candidate only when its platform (first component) is "QA"
  (planning/planning.go:179). Such an issue on any other platform is
  dropped, even when its title names a test case.

## Model

| member | source | states |
|---|---|---|
| Strings.LowerChar | planning/planning.go:243 | Latin A–Z and Cyrillic А–Я map to the letter 32 code points higher, their lower-case form. Ё maps to ё. Every other character is unchanged. |
| Strings.ToLower | planning/planning.go:243 | Lower-casing keeps the length and maps each character on its own. |
| Strings.LowerCharIdempotent | planning/planning.go:243 | Lower-casing a character twice is the same as once. |
| Strings.ToLowerIdempotent | planning/planning.go:243 | Lower-casing a title twice is the same as once. |
| Strings.Contains | planning/planning.go:245-250 | True exactly when the token occurs at some position of the title. |
| Strings.FirstCharAbsent | planning/planning.go:245-250 | A token whose first character is missing from the title does not occur in it. |
| Strings.NotContainedInEmpty | planning/planning.go:245-250 | No non-empty token occurs in the empty title. |
| Planning.CreateUri | planning/planning.go:224-226 | The URI is the browse prefix followed by exactly the key. |
| Planning.Contains | planning/planning.go:228-240 | The loop answers true exactly when the value is in the list. |
| Planning.HasTestCaseSubstring | planning/planning.go:242-252 | True exactly when the lower-cased title contains one of the six test-case tokens. |
| Planning.TestCaseSubstringIgnoresCase | planning/planning.go:242-252 | The test-case check gives the same answer for a title and its lower-cased form. |
| Planning.EmptyTitleIsNotTestCase | planning/planning.go:242-252 | An empty title is not a test case. |
| Planning.CapitalisedTitleIsTestCase | planning/planning.go:242-252 | "Test Case: login flow" is a test case. So is every title that differs from it only in the case of its letters. |
| Planning.NoLetterTNoTestCase | planning/planning.go:242-252 | A title without a Latin or Cyrillic t is never a test case. |
| Planning.ConvertIssue | planning/planning.go:113-125 | The shell copies key, summary, type, assignee, story points and first component. Its URI comes from the key. It is resolved iff the status category is "done" and easy iff "Easy" is a label. It is in the sprint and has no references. |
| Planning.IndexShells | planning/planning.go:89-92 | The first pass's loop builds exactly `ShellIndex`. |
| Planning.ShellIndex | planning/planning.go:89-92 | Every input key is in the map. Every entry is a reference-free, in-sprint shell stored under its own key. |
| Planning.ShellIndexKeys | planning/planning.go:89-92 | Every key of the map is the key of some input issue. |
| Planning.ShellIndexLastWins | planning/planning.go:89-92 | With duplicate keys, the last issue carrying the key decides the entry. |
| Planning.ShellIndexOrderIndependent | planning/planning.go:89-92 | With distinct keys, the map does not depend on the order of the input. |
| Planning.StandIn | planning/planning.go:156-162 | A stand-in for an issue outside the search is out of sprint. It carries the given key, name, type and resolution, and has no references, no assignee, no platform and no story points. Its URI comes from its key. |
| Planning.FindEpicIssue | planning/planning.go:149-164 | No epic link gives no epic. An epic in the search is returned as is. Any other epic becomes an out-of-sprint Epic stand-in with that key. |
| Planning.EpicStandInIffAbsent | planning/planning.go:149-164 | The epic slot holds an out-of-sprint record exactly when the epic is linked but not in the search. |
| Planning.FindQaIssue | planning/planning.go:175-196 | The loop returns exactly `QaCandidates` of the issue's links. |
| Planning.QaCandidatesAppend | planning/planning.go:176-194 | Candidates follow link order: the candidates of two link lists in a row are the first list's followed by the second's. |
| Planning.QaCandidatesSound | planning/planning.go:177-191 | Every candidate comes from an outward Blocks link to a QA or TestCase issue. It is either that issue from the search, on platform "QA", or an out-of-sprint record whose key is absent from the search. |
| Planning.QaStandInsFromLinks | planning/planning.go:182-191 | Every out-of-sprint candidate is the stand-in built from a QA link whose target is outside the search: key, name, type and resolution ("done" category) come from that link's snapshot. |
| Planning.QaCandidatesComplete | planning/planning.go:177-191 | Every such link whose target is outside the search, or inside it on platform "QA", yields a candidate with the target's key. |
| Planning.FindTestIssue | planning/planning.go:127-136 | None iff every candidate's name is a test case. Otherwise the result is the first candidate whose name is not one. |
| Planning.FindTestCasesIssue | planning/planning.go:138-147 | None iff no candidate is a test case by name or by type. Otherwise the result is the first candidate that is. |
| Planning.FindDevelopmentIssues | planning/planning.go:198-222 | The loop returns exactly `DevelopmentCandidates` of the issue's links. |
| Planning.FindDevelopmentIssue | planning/planning.go:166-173 | None iff there is no candidate. Otherwise the result is the first candidate. |
| Planning.FirstDevelopmentLink | planning/planning.go:166-173 | The Development slot is empty iff no link is an inward Blocks link from a development issue. Otherwise it describes the first such link's target. It is out of sprint iff the target is not in the search, and takes assignee and platform from the search when the target is in it. |
| Planning.Resolve | planning/planning.go:93-102 | The resolved issue keeps the key of its input issue. |
| Planning.ResolveKeepsShell | planning/planning.go:94-102 | Resolution changes only the four reference slots of the shell. QA and TestCase issues get no QA or TestCases slot, and their Development slot is the first development candidate. Epics get no references. All other types get no Development slot. Every type but Epic gets the epic the epic finder returns. |
| Planning.ResolveDepthOne | planning/planning.go:93-102 | References are one level deep: a record held in a slot has no references of its own. |
| Planning.QaSlotsFromCandidates | planning/planning.go:99-100 | The QA slot holds a candidate whose name is not a test case. The TestCases slot holds a candidate that is a test case by name or type. |
| Planning.ResolveOtherType | planning/planning.go:98-101 | An issue that is not QA, TestCase or Epic gets the first non-test-case candidate as QA, and the first test-case candidate as TestCases. Its Development slot is empty. |
| Planning.SingleQaCandidate | planning/planning.go:127-147 | A lone candidate that is a test case neither by name nor by type becomes the QA issue and gives no TestCases issue. |
| Planning.QaTitleIsNotTestCase | planning/planning.go:242-252 | "QA: verify login" is not a test-case title. |
| Planning.TaskScenarioCandidates | planning/planning.go:175-196 | For a Task with an inward Blocks link from a Bug and an outward Blocks link to an in-search QA issue, the only candidate is the QA issue. |
| Planning.TaskScenario | planning/planning.go:93-102 | For that Task, the QA issue fills the QA slot, TestCases stays empty, and Development stays empty. |
| Planning.ResolveAllElements | planning/planning.go:93-105 | The second pass yields one record per input issue, at the input issue's position, each its resolution against the map. |
| Planning.FillReferences | planning/planning.go:94-102 | The second pass's body for one issue computes exactly `Resolve`. |
| Planning.Convert | planning/planning.go:86-111 | The output has one issue per input, in input order. Each is its resolution against the map of shells. |
| Planning.ConvertKeysAndDepth | planning/planning.go:86-111 | Every output issue keeps its input's key and holds only one-level references. |
| Planning.ResolveOrderIndependent | planning/planning.go:86-111 | With distinct keys, an issue's resolution does not depend on the order of the search. |
| Planning.AssignedToAppend | planning/planning.go:66-84 | Filtering by assignee keeps order: the filter of two lists in a row is the two filters in a row. |
| Planning.AssignedToCount | planning/planning.go:66-84 | The filter keeps every occurrence of an issue assigned to the user and drops every other one. |
| Planning.CreateUser | planning/planning.go:66-84 | The user keeps the name. Planned and lost issues are the input lists filtered to the user's issues, in order. |
| Jira.Contains | jira/jira.go:140-151 | Found: the index is the first position of the value. Not found: the index is the list's length and the value is absent. |
| Jira.CollectStories | jira/jira.go:90-98 | The loop builds exactly `StoriesOf`. |
| Jira.StoriesOfKeys | jira/jira.go:90-98 | A key is in the story map iff some input issue of type Story has it. |
| Jira.StoriesOfLastWins | jira/jira.go:90-98 | With duplicate keys, the last Story carrying the key gives the title. |
| Jira.ParentsOfAppend | jira/jira.go:105-111 | Parents follow link order: the parents of two link lists in a row are the first list's followed by the second's. |
| Jira.ParentsOfMembers | jira/jira.go:105-111 | A title is a parent iff some Blocks link points outward to a story with that title. |
| Jira.Converted | jira/jira.go:100-138 | The chart issue has the summary as title, story points (0 when missing), the close date and the blocked stories as parents. It has no children's points yet. Platforms are the component names and subtasks the subtask keys, in order. It is in progress iff the status is one of the five progress statuses. |
| Jira.ConvertJiraIssue | jira/jira.go:100-138 | The conversion's loops return the input key and exactly `Converted`. |
| Jira.IssuesIndex | jira/jira.go:67-73 | Every input key is in the map. Every entry has no children's points. |
| Jira.IssuesIndexKeys | jira/jira.go:69-73 | Every key of the map is the key of some input issue. |
| Jira.IssuesIndexLastWins | jira/jira.go:69-73 | With duplicate keys, the map holds the converted record of the last issue carrying the key. |
| Jira.ChildrenStoriesAppend | jira/jira.go:76-82 | Children's points add up over a split subtask list. |
| Jira.ChildrenStoriesSkipsAbsent | jira/jira.go:78 | Subtasks outside the search add nothing. |
| Jira.SubtaskPointsSum | jira/jira.go:76-82 | Over a map holding D-1 with 3 points and no D-2, the subtasks D-1 and D-2 add up to 3. |
| Jira.SubtaskIndexEntries | jira/jira.go:69-73 | If D-1 (3 points) is in the search and D-2 is not, the index holds D-1 with 3 points and no D-2. |
| Jira.SubtaskKeys | jira/jira.go:117-120 | An issue with subtasks D-1 and D-2 converts to subtask keys D-1 and D-2, with no children's points yet. |
| Jira.PresentSubtaskCounted | jira/jira.go:66-84 | Take a search that holds subtask D-1 with 3 story points and no issue D-2. An issue of it with subtasks D-1 and D-2 leaves `Search` with 3 children's story points. |
| Jira.AnyChildInProgress | jira/jira.go:80 | The roll-up flag is true iff some subtask in the search is in progress. |
| Jira.RollUpAt | jira/jira.go:76-82 | One issue's inner loop adds its subtasks' points and progress, and leaves every other array cell unchanged. |
| Jira.RollUpChildren | jira/jira.go:75-84 | After the outer loop, every cell is its old value rolled up against the index. |
| Jira.Search | jira/jira.go:66-87 | The result has one issue per input, in order. Each is the converted issue rolled up against the index of converted issues. |
| Jira.RollUpSingleLevel | jira/jira.go:72-79 | Roll-up reads the converted values of the children, not rolled-up ones, so only one level of points is added. |
| Jira.StoriesOfOrderIndependent | jira/jira.go:90-98 | With distinct keys, the story map does not depend on the order of the search results. |
| Jira.IssuesIndexOrderIndependent | jira/jira.go:67-73 | With distinct keys, the map of converted issues does not depend on the order of the search results. |
| Jira.SearchOrderIndependent | jira/jira.go:66-87 | With distinct keys, the record `Search` returns for an issue does not depend on the order of the search results. This covers the title, parents, children's story points and progress flag. |
| Chart.CalculateCategories | assets/js/epic.js:73-81 | The nested loops build exactly `Categories`. |
| Chart.Repeat | assets/js/epic.js:75-78 | The result is n copies of the issue. |
| Chart.AddToGroupsSpec | assets/js/epic.js:75-78 | Adding an issue creates the groups of its parents. Each group gets the issue once per occurrence of the parent. |
| Chart.CategoriesSpec | assets/js/epic.js:73-81 | A story is a category iff some issue names it as a parent. Its group is every such issue, in input order, once per naming. |
| Chart.IsOpen | assets/js/epic.js:89-97 | An issue without a close date is open. One with a close date is open iff it closes after the current time. |
| Chart.Loads | assets/js/epic.js:98 | One load per issue. |
| Chart.LoadsElements | assets/js/epic.js:98 | The load at each position is that issue's story points plus its children's story points. |
| Chart.CalculateCategoryStories | assets/js/epic.js:83-114 | One point per category, in category order, each the category's `CategoryPoint`. |
| Chart.OpenAtAppend | assets/js/epic.js:89-97 | The open filter keeps order over a split list. |
| Chart.LoadsAppend | assets/js/epic.js:98 | Loads keep order over a split list. |
| Chart.TotalAppend | assets/js/epic.js:99-101 | The sum adds up over a split list. |
| Chart.WithPlatformAppend | assets/js/epic.js:87 | The platform filter keeps order over a split list. |
| Chart.CategoryPointLoad | assets/js/epic.js:86-101 | The point's height equals an independent recursive sum. That sum adds story points plus children's points over the issues on the platform that are open at the current time. |
| Chart.WithPlatformMembers | assets/js/epic.js:87 | An issue passes the platform filter iff it is in the category and lists the platform. |
| Chart.CategoryPointBorder | assets/js/epic.js:103-106 | The border is 2 iff some issue on the platform is in progress, and 0 otherwise. |
| Chart.OtherPlatformIgnored | assets/js/epic.js:86-106 | Adding an issue of another platform anywhere in a category changes neither its height nor its border. |

## Left out

- HTTP, URL and JQL building, JSON decoding and logging are left out (`GetIssues`, the request part of `Search`, `findLostAndPlannedIssues`). The model starts from decoded search results.
- Goroutines and channels are left out (`GetPlanningInfo`, `find`). `CreateUser` and `Convert` are the per-user and per-search steps they run.
- `calculateDatesDelta`, `MaxStoryPoints` and `convertDate` are date parsing and floating-point arithmetic. They are not modelled. Close dates are `Option<int>` timestamps, and an empty or unparsable date is `None`.
- The Highcharts drawing and the series list in epic.js are left out. The current time (`new Date()`) is a parameter.
- Chart.CalculateCategories: categories are a map, so the order of `Object.keys` (integer-like keys first, then insertion order) is not modelled.
- Strings.LowerChar: covers ASCII and basic Cyrillic (А–Я, Ё) only, not all of Unicode's case mapping.
- Planning.ConvertIssue: requires at least one component. The source panics when there is none, and the model does not represent a panic.
- Story points are integers in the model; the source's `float64` rounding is not modelled.
- Planning.CreateUser: takes the user's name rather than the whole team-member record, the only field it reads.
- Planning.FindTestIssue and Planning.FindTestCasesIssue: take the candidate list. The source recomputes it with `findQaIssue` inside each, which gives the same value.
- Planning.Convert: keeps only the issues. The request date it passes along is left out.
- The JSON hand-off from jira.go to epic.js is not modelled: chart.dfy reads `Jira.Issue` values directly. The model assumes that an issue blocking no story arrives with an empty parent list, although Go encodes the nil `blocks` slice as `null` (jira/jira.go:103) and epic.js:75 calls `forEach` on it. It also assumes that the close date arrives as a timestamp or as none, although Go sends a day-truncated date string, or `""` when unparsable (jira/jira.go:153-160), and epic.js:92 calls `getTime` on it.
- The two reflective `contains` helpers (planning/planning.go:228-240, jira/jira.go:140-151) become typed linear searches over a sequence: `Planning.Contains` and `Jira.Contains`. Their branch for an argument that is neither a slice nor an array is not modelled. That branch returns `false` in planning.go and `(false, 0)` in jira.go.
- Go pointers in the reference slots are modelled as `Option` values. Sharing between slots is not represented.
