/** The forum directory cache of src/stores/forumStore.ts. */
module ForumStore {
  import opened Types

  class ForumState {
    var forums: seq<Forum>

    /** The store as created: no forums. */
    constructor ()
      ensures forums == []
    {
      forums := [];
    }

    /** Replaces the list wholesale (no merge); calling it twice with the same list is the
        same as calling it once. */
    method SetForums(forums: seq<Forum>)
      modifies this
      ensures this.forums == forums
    {
      this.forums := forums;
    }
  }
}
