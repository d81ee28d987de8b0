/**
 * The Post collection as the posts route uses it. The route creates a post
 * from exactly four fields and lists posts by `type` and `createdAt`; the
 * schema's own rules are not part of this model, so creation always succeeds.
 */
module PostModel {
  import opened Wrappers

  /** A stored post; `kind` is the `type` field. */
  datatype Post = Post(title: string, description: string, kind: string,
                       createdBy: Option<string>, createdAt: nat, updatedAt: nat)

  /** The Post collection: the stored documents, oldest first. */
  class PostCollection {
    var posts: seq<Post>

    constructor ()
      ensures posts == []
    {
      posts := [];
    }

    /** `Post.create({ title, description, type, createdBy })`, stamped with the creation time. */
    method Create(title: string, description: string, kind: string,
                  createdBy: Option<string>, now: nat) returns (p: Post)
      modifies this
      ensures p == Post(title, description, kind, createdBy, now, now)
      ensures posts == old(posts) + [p]
    {
      p := Post(title, description, kind, createdBy, now, now);
      posts := posts + [p];
    }
  }
}
