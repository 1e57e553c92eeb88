/** `useForumById` of src/lib/useForums.ts: a lookup by id over the snapshot of the cached
    forum list, with no fetch and no write. `None` for the list is a cache that was never
    filled. The query configuration and `useForums`/`useRefreshForums` are library behaviour
    and not part of this model. */
module ForumQuery {
  import opened Types
  import Seqs

  /** `forums?.find(forum => forum.id === forumId)`. */
  function ForumById(forums: Option<seq<Forum>>, forumId: int): (r: Option<Forum>)
    ensures r.Some? ==> forums.Some? && r.value in forums.value && r.value.id == forumId
    ensures r.Some? ==> exists i :: (0 <= i < |forums.value| && forums.value[i] == r.value &&
      forall j :: 0 <= j < i ==> forums.value[j].id != forumId)
    ensures r.None? <==> forums.None? || forall f :: f in forums.value ==> f.id != forumId
  {
    match forums
    case None => None
    case Some(list) =>
      match Seqs.FindIndex(list, (f: Forum) => f.id == forumId)
      case None => None
      case Some(i) => Some(list[i])
  }

  /** The lookup cannot tell an unfilled cache from a filled one without the forum: both give
      `None`, and only the cache itself (`None` against `Some(list)`) tells them apart. */
  lemma UnloadedAndMissingLookAlike(forums: seq<Forum>, forumId: int)
    requires forall f :: f in forums ==> f.id != forumId
    ensures ForumById(None, forumId) == ForumById(Some(forums), forumId) == None
  {
  }
}
