/** The state logic of src/pages/ForumPostDetailPage.tsx: the local hooks `usePostDetail` and
    `useComments`, the check that rejects an invalid post id, and how the page hands its
    loading and error state to `LoadingErrorWrapper`. The hooks have no try/catch: if a call
    throws, the state they set before awaiting stays. */
module ForumPostDetailPage {
  import opened Types
  import opened Api
  import opened Js
  import Seqs
  import opened LoadingErrorWrapper

  class PostDetailHook {
    const postId: int
    var post: Option<Post>
    var loading: bool
    var error: Option<ApiError>

    /** Never a post next to an error. */
    predicate Exclusive()
      reads this
    {
      !(post.Some? && error.Some?)
    }

    constructor (postId: int)
      ensures this.postId == postId && post.None? && !loading && error.None?
    {
      this.postId := postId;
      post, loading, error := None, false, None;
    }

    /** `loadPost()`: fetches the hook's own post id; success stores the post, an error result
        stores the error and clears the post; both end with `loading` false. */
    method LoadPost(getPost: int -> Outcome<Post>)
      modifies this
      ensures getPost(postId).Returned? && getPost(postId).result.Ok? ==>
        post == Some(getPost(postId).result.value) && error.None? && !loading
      ensures getPost(postId).Returned? && getPost(postId).result.Err? ==>
        post.None? && error == Some(getPost(postId).result.error) && !loading
      ensures getPost(postId).Threw? ==> post == old(post) && error.None? && loading
      ensures Exclusive()
    {
      loading := true;
      error := None;
      var result := getPost(postId);
      match result {
        case Returned(r) =>
          if r.Ok? {
            post := Some(r.value);
          } else {
            error := Some(r.error);
            post := None;
          }
          loading := false;
        case Threw =>
      }
    }
  }

  class CommentsHook {
    const postId: int
    var comments: seq<Comment>
    var loading: bool
    var error: Option<ApiError>

    constructor (postId: int)
      ensures this.postId == postId && comments == [] && !loading && error.None?
    {
      this.postId := postId;
      comments, loading, error := [], false, None;
    }

    /** `loadComments()`: success stores the list; an error result stores the error and resets
        the list to `[]` (not null); both end with `loading` false. */
    method LoadComments(getPostComments: int -> Outcome<seq<Comment>>)
      modifies this
      ensures getPostComments(postId).Returned? && getPostComments(postId).result.Ok? ==>
        comments == getPostComments(postId).result.value && error.None? && !loading
      ensures getPostComments(postId).Returned? && getPostComments(postId).result.Err? ==>
        comments == [] && error == Some(getPostComments(postId).result.error) && !loading
      ensures getPostComments(postId).Threw? ==> comments == old(comments) && error.None? && loading
      ensures error.Some? ==> comments == []
    {
      loading := true;
      error := None;
      var result := getPostComments(postId);
      match result {
        case Returned(r) =>
          if r.Ok? {
            comments := r.value;
          } else {
            error := Some(r.error);
            comments := [];
          }
          loading := false;
        case Threw =>
      }
    }
  }

  /** `!postId || isNaN(Number(postId))`: the route parameter is missing or empty, or it does
      not read as a number. */
  predicate PostIdRejected(postId: Option<string>) {
    postId.None? || postId.value == "" || NumberIsNaN(postId.value)
  }

  /** Every id the client formats into a URL passes the check. */
  lemma FormattedIdAccepted(n: int)
    ensures !PostIdRejected(Some(NumberToString(n)))
  {
    NumberToStringIsNumber(n);
    NumberToStringShape(n);
  }

  /** A missing or empty parameter is rejected. */
  lemma MissingIdRejected()
    ensures PostIdRejected(None)
    ensures PostIdRejected(Some(""))
  {
  }

  /** Text that is not a number is rejected. */
  lemma TextIdRejected()
    ensures PostIdRejected(Some("abc"))
  {
    var s := "abc";
    PrintableNotWhiteSpace('a');
    PrintableNotWhiteSpace('c');
    TrimmedAlready(s);
    assert Seqs.FindIndex(s, (c: char) => c == 'e' || c == 'E').None?;
    assert Seqs.FindIndex(s, (c: char) => c == '.').None?;
    assert !IsDigit(s[0]) && !IsDigit(s[1]);
    assert !IsUnsignedDecimalLiteral(s);
  }

  /** Unlike `parseInt`, `Number` needs the whole text: digits followed by letters are rejected. */
  lemma TrailingTextRejected()
    ensures PostIdRejected(Some("12abc"))
  {
    var s := "12abc";
    PrintableNotWhiteSpace('1');
    PrintableNotWhiteSpace('c');
    TrimmedAlready(s);
    assert Seqs.FindIndex(s, (c: char) => c == 'e' || c == 'E').None?;
    assert Seqs.FindIndex(s, (c: char) => c == '.').None?;
    assert !IsDigit(s[2]);
    assert !AllDigits(s);
    assert !IsUnsignedDecimalLiteral(s);
  }

  /** A parameter of white space only is not NaN (`Number` reads it as 0), so it passes. */
  lemma BlankIdAccepted()
    ensures !PostIdRejected(Some(" "))
  {
    assert TrimStart(" ") == [];
    assert Trim(" ") == [];
  }

  /** `Number` reads exponents, so `1e3` passes the check. */
  lemma ExponentIdAccepted()
    ensures !PostIdRejected(Some("1e3"))
  {
    var s := "1e3";
    PrintableNotWhiteSpace('1');
    PrintableNotWhiteSpace('3');
    TrimmedAlready(s);
    assert Seqs.FindIndex(s, (c: char) => c == 'e' || c == 'E') == Some(1);
    assert s[..1] == "1" && s[2..] == "3";
    assert Seqs.FindIndex("1", (c: char) => c == '.').None?;
    assert IsMantissa("1") && IsSignedInteger("3");
    assert IsUnsignedDecimalLiteral(s);
  }

  /** `Number` reads hexadecimal, so `0x1F` passes the check. */
  lemma HexIdAccepted()
    ensures !PostIdRejected(Some("0x1F"))
  {
    var s := "0x1F";
    PrintableNotWhiteSpace('0');
    PrintableNotWhiteSpace('F');
    TrimmedAlready(s);
    assert s[2..] == "1F";
    assert IsNonDecimalIntegerLiteral(s);
  }

  /** `Number("Infinity")` is not NaN, so `Infinity` passes the check. */
  lemma InfinityIdAccepted()
    ensures !PostIdRejected(Some("Infinity"))
  {
    var s := "Infinity";
    PrintableNotWhiteSpace('I');
    PrintableNotWhiteSpace('y');
    TrimmedAlready(s);
    assert IsUnsignedDecimalLiteral(s);
  }

  // ---- The wrapper's error prop ----

  /** As written, the page passes its `ApiError` to the wrapper's `error` prop unchanged. An
      `ApiError` carries `error` and `code` but no `message`, so the wrapper reads an
      undefined message. */
  function WrapperErrorAsWritten(error: Option<ApiError>): (r: Option<ErrorValue>)
    ensures r.Some? <==> error.Some?
    ensures r.Some? ==> r.value.message.None?
  {
    match error
    case None => None
    case Some(_) => Some(ErrorValue(None))
  }

  /** As written, a failed post load shows the prefix alone: the server's message is lost. */
  lemma PostErrorLosesMessage<C>(e: ApiError, children: C)
    ensures Render(false, WrapperErrorAsWritten(Some(e)), Some("Loading post..."),
                   Some("Error loading post"), children) == ErrorView("Error loading post: ")
  {
  }

  /** The error prop with the `ApiError`'s text as its message. */
  function WrapperError(error: Option<ApiError>): (r: Option<ErrorValue>)
    ensures r.Some? <==> error.Some?
    ensures r.Some? ==> r.value.message == Some(error.value.error)
  {
    match error
    case None => None
    case Some(e) => Some(ErrorValue(Some(e.error)))
  }

  /** The two wrapped parts of the page. */
  datatype Section = PostDetails | CommentList

  /** The texts the page passes to the wrapper for each part. */
  function SectionLoadingMessage(section: Section): string {
    match section
    case PostDetails => "Loading post..."
    case CommentList => "Loading comments..."
  }

  function SectionErrorPrefix(section: Section): string {
    match section
    case PostDetails => "Error loading post"
    case CommentList => "Error loading comments"
  }

  /** A wrapped part of the page: its loading text while loading, else its error prefix and
      the server's message on an error, else its content. */
  function SectionView<C>(section: Section, loading: bool, error: Option<ApiError>, children: C): (v: View<C>)
    ensures loading ==> v == LoadingView(SectionLoadingMessage(section))
    ensures !loading && error.Some? ==> v == ErrorView(SectionErrorPrefix(section) + ": " + error.value.error)
    ensures !loading && error.None? ==> v == Children(children)
  {
    Render(loading, WrapperError(error), Some(SectionLoadingMessage(section)),
           Some(SectionErrorPrefix(section)), children)
  }
}
