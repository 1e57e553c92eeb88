/** The forum resource client of src/lib/api/forum.ts: each operation is the HTTP method, the
    path (below the API prefix) and the JSON body it hands to the API client. `Decode` reads a
    call back the way a route table matching `forums/:id/posts` and friends does; every
    operation's contract is that its call decodes to that operation with its arguments, so
    distinct operations never produce the same call. */
module ForumApi {
  import opened Types
  import opened Js
  import Seqs

  datatype CreatePostRequest = CreatePostRequest(title: string, content: string, forumId: int)

  datatype CreateCommentRequest = CreateCommentRequest(content: string, postId: int)

  datatype Method = GET | POST

  datatype Body = NoBody | PostBody(post: CreatePostRequest) | CommentBody(comment: CreateCommentRequest)

  datatype Call = Call(httpMethod: Method, path: string, body: Body)

  /** The operations of `forumApi`, each with its arguments. */
  datatype Operation =
    | GetForumsOp
    | GetForumOp(forumId: int)
    | GetForumPostsOp(forumId: int)
    | GetPostOp(postId: int)
    | GetPostCommentsOp(postId: int)
    | CreatePostOp(post: CreatePostRequest)
    | CreateCommentOp(comment: CreateCommentRequest)

  /** A path segment read as an id: its canonical decimal form only. */
  function ParseId(segment: string): Option<int> {
    match ParseInt10(segment)
    case None => None
    case Some(n) => if NumberToString(n) == segment then Some(n) else None
  }

  /** The operation a call stands for, if any: the path is cut at '/', and a middle segment
      must be an id. */
  function Decode(c: Call): Option<Operation> {
    var segments := Seqs.Split(c.path, '/');
    if |segments| == 1 then DecodeCollection(c, segments[0])
    else if |segments| == 2 && ParseId(segments[1]).Some? then
      DecodeItem(c, segments[0], ParseId(segments[1]).value)
    else if |segments| == 3 && ParseId(segments[1]).Some? then
      DecodeChild(c, segments[0], ParseId(segments[1]).value, segments[2])
    else None
  }

  /** Calls on `forums` and `posts`. */
  function DecodeCollection(c: Call, root: string): Option<Operation> {
    if c.httpMethod == GET && c.body == NoBody && root == "forums" then Some(GetForumsOp)
    else if c.httpMethod == POST && c.body.PostBody? && root == "posts" then Some(CreatePostOp(c.body.post))
    else None
  }

  /** Calls on `forums/<id>` and `posts/<id>`. */
  function DecodeItem(c: Call, root: string, id: int): Option<Operation> {
    if c.httpMethod == GET && c.body == NoBody && root == "forums" then Some(GetForumOp(id))
    else if c.httpMethod == GET && c.body == NoBody && root == "posts" then Some(GetPostOp(id))
    else None
  }

  /** Calls on `forums/<id>/posts` and `posts/<id>/comments`; a comment's body must name the
      post of the path. */
  function DecodeChild(c: Call, root: string, id: int, leaf: string): Option<Operation> {
    if c.httpMethod == GET && c.body == NoBody && root == "forums" && leaf == "posts" then
      Some(GetForumPostsOp(id))
    else if c.httpMethod == GET && c.body == NoBody && root == "posts" && leaf == "comments" then
      Some(GetPostCommentsOp(id))
    else if && c.httpMethod == POST && c.body.CommentBody? && root == "posts" && leaf == "comments"
            && c.body.comment.postId == id then
      Some(CreateCommentOp(c.body.comment))
    else None
  }

  lemma IdSegment(n: int)
    ensures '/' !in NumberToString(n)
    ensures ParseId(NumberToString(n)) == Some(n)
  {
    NumberToStringShape(n);
    ParseInt10RoundTrip(n);
  }

  /** A call on `root/<id>` is decoded by `DecodeItem`. */
  lemma ItemDecodes(c: Call, root: string, n: int)
    requires '/' !in root && c.path == root + ['/'] + NumberToString(n)
    ensures Decode(c) == DecodeItem(c, root, n)
  {
    IdSegment(n);
    Seqs.SplitTwoPieces(root, NumberToString(n), '/');
  }

  /** A call on `root/<id>/leaf` is decoded by `DecodeChild`. */
  lemma ChildDecodes(c: Call, root: string, n: int, leaf: string)
    requires '/' !in root && '/' !in leaf
    requires c.path == root + ['/'] + NumberToString(n) + ['/'] + leaf
    ensures Decode(c) == DecodeChild(c, root, n, leaf)
  {
    IdSegment(n);
    Seqs.SplitThreePieces(root, NumberToString(n), leaf, '/');
  }

  /** `getForums()`: GET `forums`. */
  function GetForums(): (c: Call)
    ensures c.httpMethod == GET && c.body == NoBody
    ensures Decode(c) == Some(GetForumsOp)
  {
    Seqs.SplitWithoutSeparator("forums", '/');
    Call(GET, "forums", NoBody)
  }

  /** `getForum(forumId)`: GET `forums/<forumId>`. */
  function GetForum(forumId: int): (c: Call)
    ensures c.httpMethod == GET && c.body == NoBody
    ensures Decode(c) == Some(GetForumOp(forumId))
  {
    var c := Call(GET, "forums/" + NumberToString(forumId), NoBody);
    assert c.path == "forums" + ['/'] + NumberToString(forumId);
    ItemDecodes(c, "forums", forumId);
    c
  }

  /** `getForumPosts(forumId)`: GET `forums/<forumId>/posts`. */
  function GetForumPosts(forumId: int): (c: Call)
    ensures c.httpMethod == GET && c.body == NoBody
    ensures Decode(c) == Some(GetForumPostsOp(forumId))
  {
    var c := Call(GET, "forums/" + NumberToString(forumId) + "/posts", NoBody);
    assert c.path == "forums" + ['/'] + NumberToString(forumId) + ['/'] + "posts";
    ChildDecodes(c, "forums", forumId, "posts");
    c
  }

  /** `getPost(postId)`: GET `posts/<postId>`. */
  function GetPost(postId: int): (c: Call)
    ensures c.httpMethod == GET && c.body == NoBody
    ensures Decode(c) == Some(GetPostOp(postId))
  {
    var c := Call(GET, "posts/" + NumberToString(postId), NoBody);
    assert c.path == "posts" + ['/'] + NumberToString(postId);
    ItemDecodes(c, "posts", postId);
    c
  }

  /** `getPostComments(postId)`: GET `posts/<postId>/comments`. */
  function GetPostComments(postId: int): (c: Call)
    ensures c.httpMethod == GET && c.body == NoBody
    ensures Decode(c) == Some(GetPostCommentsOp(postId))
  {
    var c := Call(GET, "posts/" + NumberToString(postId) + "/comments", NoBody);
    assert c.path == "posts" + ['/'] + NumberToString(postId) + ['/'] + "comments";
    ChildDecodes(c, "posts", postId, "comments");
    c
  }

  /** `createPost(request)`: POST `posts` with the request, unchanged, as the body. */
  function CreatePost(request: CreatePostRequest): (c: Call)
    ensures c.httpMethod == POST && c.body == PostBody(request)
    ensures Decode(c) == Some(CreatePostOp(request))
  {
    Seqs.SplitWithoutSeparator("posts", '/');
    Call(POST, "posts", PostBody(request))
  }

  /** `createComment(request)`: POST `posts/<request.postId>/comments` with the same request
      as the body; the target post comes from the argument and nowhere else. */
  function CreateComment(request: CreateCommentRequest): (c: Call)
    ensures c.httpMethod == POST && c.body == CommentBody(request)
    ensures Decode(c) == Some(CreateCommentOp(request))
  {
    var c := Call(POST, "posts/" + NumberToString(request.postId) + "/comments", CommentBody(request));
    assert c.path == "posts" + ['/'] + NumberToString(request.postId) + ['/'] + "comments";
    ChildDecodes(c, "posts", request.postId, "comments");
    c
  }

  /** The call `forumApi` makes for an operation. */
  function Encode(op: Operation): (c: Call)
    ensures Decode(c) == Some(op)
  {
    match op
    case GetForumsOp => GetForums()
    case GetForumOp(id) => GetForum(id)
    case GetForumPostsOp(id) => GetForumPosts(id)
    case GetPostOp(id) => GetPost(id)
    case GetPostCommentsOp(id) => GetPostComments(id)
    case CreatePostOp(request) => CreatePost(request)
    case CreateCommentOp(request) => CreateComment(request)
  }

  /** Two operations (arguments included) that produce the same call are the same. */
  lemma CallsIdentifyOperations(a: Operation, b: Operation)
    requires Encode(a) == Encode(b)
    ensures a == b
  {
    assert Decode(Encode(a)) == Some(a);
  }
}
