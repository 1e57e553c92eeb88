/** `data1Service.loadAll` of src/services/data1Service.ts. Toasts are not part of this model. */
module Data1Service {
  import opened Types
  import opened Api
  import opened Data1Store

  /** On success the store becomes exactly the list (an empty list included: loaded, not
      null); on an error result, or a throw, the store is left. At most one write. */
  method LoadAll(store: Data1State, outcome: Outcome<seq<Data1>>)
    modifies store
    ensures outcome.Returned? && outcome.result.Ok? ==>
      store.store == Some(outcome.result.value) && store.writes == old(store.writes) + 1
    ensures !(outcome.Returned? && outcome.result.Ok?) ==>
      store.store == old(store.store) && store.writes == old(store.writes)
    ensures outcome.Returned? && outcome.result.Ok? ==> store.store.Some?
  {
    if outcome.Threw? || outcome.result.Err? {
      return;
    }
    store.Set(Some(outcome.result.value));
  }
}
