/** Value types shared by the client: the entities of src/types.ts and an Option for the
    source's `T | null` and `T | undefined`. */
module Types {

  /** `None` stands for the source's `null` or `undefined`. */
  datatype Option<T> = None | Some(value: T) {
    /** The value, or `default` when absent (a destructuring default such as `= true`). */
    function GetOr(default: T): T {
      if Some? then value else default
    }
  }

  /** A JavaScript `Date`, kept as its millisecond timestamp and never interpreted. */
  datatype Date = Date(epochMillis: int)

  datatype Forum = Forum(id: int, title: string, description: string, members: seq<int>)

  datatype Post = Post(id: int, title: string, content: string, authorId: int, createdAt: Date)

  datatype Comment = Comment(id: int, content: string, authorId: int, createdAt: Date)

  /** The generic list resource served at `/api/data1`. */
  datatype Data1 = Data1(id: int, name: string, tags: seq<string>)
}
