/** The `useForums` hook of src/hooks/useForums.ts: local `loading`/`error` next to the shared
    forum store, a `loadForums` that writes the store on success, and an effect that loads
    automatically while the store is empty and nothing is loading or failed. The hook has no
    try/catch: if the call throws, the state it set before awaiting stays. */
module UseForums {
  import opened Types
  import opened Api
  import opened ForumStore

  /** The auto-load condition: `forums.length === 0 && !loading && !error`. */
  predicate AutoLoadGuard(forumsLength: nat, loading: bool, error: Option<ApiError>) {
    forumsLength == 0 && !loading && error.None?
  }

  class ForumsHook {
    const store: ForumState
    var loading: bool
    var error: Option<ApiError>

    constructor (store: ForumState)
      ensures this.store == store && !loading && error.None?
    {
      this.store := store;
      loading, error := false, None;
    }

    predicate ShouldAutoLoad()
      reads this, store
    {
      AutoLoadGuard(|store.forums|, loading, error)
    }

    /** `loadForums()` with the outcome of `api.forum.getForums()`: success replaces the store's
        list and keeps `error` cleared; failure sets `error` and leaves the list as it was. */
    method LoadForums(outcome: Outcome<seq<Forum>>)
      modifies this, store
      ensures outcome.Returned? && outcome.result.Ok? ==>
        store.forums == outcome.result.value && error.None? && !loading
      ensures outcome.Returned? && outcome.result.Err? ==>
        store.forums == old(store.forums) && error == Some(outcome.result.error) && !loading
      ensures outcome.Threw? ==> store.forums == old(store.forums) && error.None? && loading
    {
      loading := true;
      error := None;
      match outcome {
        case Returned(result) =>
          if result.Ok? {
            store.SetForums(result.value);
          } else {
            error := Some(result.error);
          }
          loading := false;
        case Threw =>
      }
    }

    /** The effect: loads exactly when the guard holds, with the outcome of that load;
        otherwise nothing changes. */
    method AutoLoad(outcome: Outcome<seq<Forum>>) returns (fired: bool)
      modifies this, store
      ensures fired == old(ShouldAutoLoad())
      ensures !fired ==> store.forums == old(store.forums) && loading == old(loading) && error == old(error)
      ensures fired && outcome.Returned? && outcome.result.Ok? ==>
        store.forums == outcome.result.value && error.None? && !loading
      ensures fired && outcome.Returned? && outcome.result.Err? ==>
        store.forums == old(store.forums) && error == Some(outcome.result.error) && !loading
      ensures fired && outcome.Threw? ==> store.forums == old(store.forums) && error.None? && loading
      ensures fired && outcome.Returned? && outcome.result.Err? ==> !ShouldAutoLoad()
    {
      fired := ShouldAutoLoad();
      if fired {
        LoadForums(outcome);
      }
    }
  }

  /** Once a load has failed, from whatever state the hook was in, the effect does not load
      again: the next auto-load does not fire and changes nothing, whatever its call would have
      done. */
  method FailedLoadStopsAutoLoad(hook: ForumsHook, e: ApiError, next: Outcome<seq<Forum>>) returns (fired: bool)
    modifies hook, hook.store
    ensures !fired
    ensures hook.error == Some(e) && !hook.loading && hook.store.forums == old(hook.store.forums)
  {
    hook.LoadForums(Returned(Err(e)));
    fired := hook.AutoLoad(next);
  }

  /** A successful load of an empty list leaves the guard open again (the list is still empty,
      nothing loads, no error), so the effect loads once more each time `loading` falls back
      to false. */
  method EmptyLoadReopensGuard(store: ForumState) returns (again: bool)
    modifies store
    ensures again
  {
    var hook := new ForumsHook(store);
    hook.LoadForums(Returned(Ok([])));
    again := hook.ShouldAutoLoad();
  }
}
