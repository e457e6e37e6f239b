/** One issue as the tracker's search API reports it, abstracted over the two
    versions of the client package the report code was written against. */
module Tracker {
  import opened Optional

  /** The partial snapshot of a linked issue embedded in a link. A missing
      side of a link is the zero value: every field empty. */
  datatype LinkTarget = LinkTarget(key: string, summary: string, typeName: string, statusCategory: string)

  /** A typed link. `inward` is the issue that blocks this one, `outward`
      the issue this one blocks; the side that does not apply has an empty key. */
  datatype Link = Link(typeName: string, inward: LinkTarget, outward: LinkTarget)

  datatype Component = Component(name: string)

  datatype SubtaskRef = SubtaskRef(key: string)

  datatype RawIssue = RawIssue(
    key: string,
    summary: string,
    typeName: string,
    statusName: string,
    statusCategory: string,
    assignee: string,
    components: seq<Component>,
    labels: seq<string>,
    epic: string,
    links: seq<Link>,
    subtasks: seq<SubtaskRef>,
    storyPoints: Option<int>,
    resolutionDate: Option<int>)

  /** No two issues of a batch share a key. */
  ghost predicate UniqueKeys(raws: seq<RawIssue>)
  {
    forall i, j :: 0 <= i < j < |raws| ==> raws[i].key != raws[j].key
  }
}
