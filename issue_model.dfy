/**
 * The Issue schema and its collection. A document is checked by the schema
 * validator when it is created; only a document that passes is stored.
 */
module IssueModel {
  import opened Wrappers
  import opened Session

  const Categories: seq<string> := ["hostel", "wifi", "classroom", "other"]
  const Statuses: seq<string> := ["pending", "in-progress", "resolved"]
  const DefaultStatus: string := "pending"

  /** A stored issue; `createdAt`/`updatedAt` come from `{ timestamps: true }`. */
  datatype Issue = Issue(title: string, description: string, category: string,
                         status: string, createdBy: Option<string>,
                         createdAt: nat, updatedAt: nat)

  /** The schema's rules on a stored issue. `createdBy` is an optional user reference. */
  predicate ValidIssue(i: Issue) {
    i.title != "" && i.description != "" &&
    i.category in Categories && i.status in Statuses
  }

  /** The fields handed to `Issue.create`; `None` is a field that is absent. */
  datatype IssueInput = IssueInput(title: Option<string>, description: Option<string>,
                                   category: Option<string>, status: Option<string>,
                                   createdBy: Option<string>)

  /** The stored issue carries the input's fields, the default status and the creation time. */
  ghost predicate Carries(d: IssueInput, i: Issue, now: nat) {
    d.title == Some(i.title) && d.description == Some(i.description) &&
    d.category == Some(i.category) && i.status == d.status.GetOr(DefaultStatus) &&
    i.createdBy == d.createdBy && i.createdAt == now && i.updatedAt == now
  }

  /**
   * The paths the validator rejects, all reported together: a required string
   * that is absent or empty, or a value outside its enumeration.
   */
  function Violations(d: IssueInput): set<string> {
    (if !Truthy(d.title) then {"title"} else {}) +
    (if !Truthy(d.description) then {"description"} else {}) +
    (if d.category.None? || d.category.value !in Categories then {"category"} else {}) +
    (if d.status.Some? && d.status.value !in Statuses then {"status"} else {})
  }

  /**
   * `Issue.create(doc)` without the write: apply the default status and the
   * timestamps, then validate. It succeeds exactly when some valid issue carries
   * the input, and then yields that issue.
   */
  function Build(d: IssueInput, now: nat): (r: Result<Issue, set<string>>)
    ensures r.Success? ==> ValidIssue(r.value) && Carries(d, r.value, now)
    ensures r.Failure? ==> r.error != {} && forall i :: Carries(d, i, now) ==> !ValidIssue(i)
    ensures d.status.None? && r.Success? ==> r.value.status == DefaultStatus
  {
    var errors := Violations(d);
    if errors != {} then Failure(errors)
    else Success(Issue(d.title.value, d.description.value, d.category.value,
                       d.status.GetOr(DefaultStatus), d.createdBy, now, now))
  }

  /** Each rule is reported by its own path and only when it is broken. */
  lemma ViolationPaths(d: IssueInput)
    ensures "title" in Violations(d) <==> !Truthy(d.title)
    ensures "description" in Violations(d) <==> !Truthy(d.description)
    ensures "category" in Violations(d) <==> !(d.category.Some? && d.category.value in Categories)
    ensures "status" in Violations(d) <==> d.status.Some? && d.status.value !in Statuses
    ensures Violations(d) <= {"title", "description", "category", "status"}
  {
  }

  /** The input a stored issue would be re-created from. */
  function InputOf(i: Issue): IssueInput {
    IssueInput(Some(i.title), Some(i.description), Some(i.category), Some(i.status), i.createdBy)
  }

  /** Every valid issue is accepted as its own input, unchanged. */
  lemma BuildAcceptsValid(i: Issue)
    requires ValidIssue(i) && i.createdAt == i.updatedAt
    ensures Build(InputOf(i), i.createdAt) == Success(i)
  {
  }

  /** The Issue collection: the stored documents, oldest first. */
  class IssueCollection {
    var issues: seq<Issue>

    /** Every stored issue satisfies the schema. */
    ghost predicate Valid()
      reads this
    {
      forall k :: 0 <= k < |issues| ==> ValidIssue(issues[k])
    }

    constructor ()
      ensures Valid() && issues == []
    {
      issues := [];
    }

    /** `Issue.create(doc)`: store the built issue, or reject and store nothing. */
    method Create(d: IssueInput, now: nat) returns (r: Result<Issue, set<string>>)
      requires Valid()
      modifies this
      ensures Valid()
      ensures r == Build(d, now)
      ensures issues == old(issues) + (if r.Success? then [r.value] else [])
    {
      r := Build(d, now);
      if r.Success? {
        issues := issues + [r.value];
      }
    }
  }
}
