/** `forumService` of src/services/forumService.ts. Toasts are not part of this model. */
module ForumService {
  import opened Types
  import opened Api
  import opened ForumStore

  /** `loadForums()`: success replaces the store's list; failure leaves it. A throw escapes
      before any write. */
  method LoadForums(store: ForumState, outcome: Outcome<seq<Forum>>) returns (settled: Settled<()>)
    modifies store
    ensures outcome.Returned? && outcome.result.Ok? ==> store.forums == outcome.result.value
    ensures !(outcome.Returned? && outcome.result.Ok?) ==> store.forums == old(store.forums)
    ensures settled.Rejected? <==> outcome.Threw?
  {
    match outcome {
      case Returned(result) =>
        if result.Ok? {
          store.SetForums(result.value);
        }
        settled := Fulfilled(());
      case Threw =>
        settled := Rejected;
    }
  }

  /** `getForumPosts(forumId)`: the posts on success, `[]` on an error result; never an error
      value. Only a throw from the API call rejects. */
  function GetForumPosts(forumId: int, getForumPosts: int -> Outcome<seq<Post>>): (r: Settled<seq<Post>>)
    ensures r.Rejected? <==> getForumPosts(forumId).Threw?
    ensures getForumPosts(forumId).Returned? && getForumPosts(forumId).result.Ok? ==>
      r == Fulfilled(getForumPosts(forumId).result.value)
    ensures getForumPosts(forumId).Returned? && getForumPosts(forumId).result.Err? ==>
      r == Fulfilled([])
  {
    match getForumPosts(forumId)
    case Returned(Ok(posts)) => Fulfilled(posts)
    case Returned(Err(_)) => Fulfilled([])
    case Threw => Rejected
  }
}
