/**
 * The LostFound schema and its collection. A document is checked by the
 * schema validator when it is created; only a document that passes is stored.
 */
module LostFoundModel {
  import opened Wrappers
  import opened Session

  const Types: seq<string> := ["lost", "found"]
  const Statuses: seq<string> := ["open", "returned"]
  const DefaultStatus: string := "open"

  /** A stored lost-and-found item; timestamps from `{ timestamps: true }`. */
  datatype Item = Item(title: string, description: string, kind: string,
                       location: Option<string>, status: string,
                       createdBy: Option<string>, createdAt: nat, updatedAt: nat)

  /** The schema's rules on a stored item; `location` and `createdBy` are optional. */
  predicate ValidItem(i: Item) {
    i.title != "" && i.description != "" && i.kind in Types && i.status in Statuses
  }

  /** The fields handed to `LostFound.create`; `kind` is the schema's `type` path. */
  datatype ItemInput = ItemInput(title: Option<string>, description: Option<string>,
                                 kind: Option<string>, location: Option<string>,
                                 status: Option<string>, createdBy: Option<string>)

  /** The stored item carries the input's fields, the default status and the creation time. */
  ghost predicate Carries(d: ItemInput, i: Item, now: nat) {
    d.title == Some(i.title) && d.description == Some(i.description) &&
    d.kind == Some(i.kind) && i.location == d.location &&
    i.status == d.status.GetOr(DefaultStatus) &&
    i.createdBy == d.createdBy && i.createdAt == now && i.updatedAt == now
  }

  /** The paths the validator rejects, all reported together. */
  function Violations(d: ItemInput): set<string> {
    (if !Truthy(d.title) then {"title"} else {}) +
    (if !Truthy(d.description) then {"description"} else {}) +
    (if d.kind.None? || d.kind.value !in Types then {"type"} else {}) +
    (if d.status.Some? && d.status.value !in Statuses then {"status"} else {})
  }

  /**
   * `LostFound.create(doc)` without the write. It succeeds exactly when some
   * valid item carries the input, and then yields that item.
   */
  function Build(d: ItemInput, now: nat): (r: Result<Item, set<string>>)
    ensures r.Success? ==> ValidItem(r.value) && Carries(d, r.value, now)
    ensures r.Failure? ==> r.error != {} && forall i :: Carries(d, i, now) ==> !ValidItem(i)
    ensures d.status.None? && r.Success? ==> r.value.status == DefaultStatus
  {
    var errors := Violations(d);
    if errors != {} then Failure(errors)
    else Success(Item(d.title.value, d.description.value, d.kind.value, d.location,
                      d.status.GetOr(DefaultStatus), d.createdBy, now, now))
  }

  /** Each rule is reported by its own path and only when it is broken. */
  lemma ViolationPaths(d: ItemInput)
    ensures "title" in Violations(d) <==> !Truthy(d.title)
    ensures "description" in Violations(d) <==> !Truthy(d.description)
    ensures "type" in Violations(d) <==> !(d.kind.Some? && d.kind.value in Types)
    ensures "status" in Violations(d) <==> d.status.Some? && d.status.value !in Statuses
    ensures Violations(d) <= {"title", "description", "type", "status"}
  {
  }

  /** The input a stored item would be re-created from. */
  function InputOf(i: Item): ItemInput {
    ItemInput(Some(i.title), Some(i.description), Some(i.kind), i.location, Some(i.status), i.createdBy)
  }

  /** Every valid item is accepted as its own input, unchanged. */
  lemma BuildAcceptsValid(i: Item)
    requires ValidItem(i) && i.createdAt == i.updatedAt
    ensures Build(InputOf(i), i.createdAt) == Success(i)
  {
  }

  /** The LostFound collection: the stored documents, oldest first. */
  class ItemCollection {
    var items: seq<Item>

    /** Every stored item satisfies the schema. */
    ghost predicate Valid()
      reads this
    {
      forall k :: 0 <= k < |items| ==> ValidItem(items[k])
    }

    constructor ()
      ensures Valid() && items == []
    {
      items := [];
    }

    /** `LostFound.create(doc)`: store the built item, or reject and store nothing. */
    method Create(d: ItemInput, now: nat) returns (r: Result<Item, set<string>>)
      requires Valid()
      modifies this
      ensures Valid()
      ensures r == Build(d, now)
      ensures items == old(items) + (if r.Success? then [r.value] else [])
    {
      r := Build(d, now);
      if r.Success? {
        items := items + [r.value];
      }
    }
  }
}
