/** The data1 cache of src/stores/data1Store.ts. `None` (null) means "not loaded yet" and is
    kept apart from `Some([])` (loaded, empty). The persistence and devtools middleware are not
    part of this model. */
module Data1Store {
  import opened Types

  class Data1State {
    var store: Option<seq<Data1>>
    /** How many times `set` has been called: lets callers state how many writes they make. */
    ghost var writes: nat

    /** The store as created: not loaded. */
    constructor ()
      ensures store.None? && writes == 0
    {
      store := None;
      writes := 0;
    }

    /** `set(data)`: the store becomes exactly `data`, null and empty lists included. */
    method Set(data: Option<seq<Data1>>)
      modifies this
      ensures store == data
      ensures writes == old(writes) + 1
    {
      store := data;
      writes := writes + 1;
    }
  }
}
