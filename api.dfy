/** The request layer of src/lib/api/index.ts: the error value every API call reports, the
    result and outcome of an awaited call, and the `beforeRequest` hook that attaches the
    session header. */
module Api {
  import opened Types
  import opened AuthStore

  /** An API failure: always a message and a numeric code. */
  datatype ApiError = ApiError(error: string, code: int)

  /** neverthrow's `Result<T, ApiError>`. */
  datatype Result<T> = Ok(value: T) | Err(error: ApiError)

  /** What an awaited API call does: it returns a result, or it throws. */
  datatype Outcome<T> = Returned(result: Result<T>) | Threw

  /** How the promise of an `async` function settles: with a value, or rejected because an
      exception escaped. */
  datatype Settled<T> = Fulfilled(value: T) | Rejected

  /** Body of `POST auth/login` and of its success response (src/lib/api/auth.ts). */
  datatype LoginRequest = LoginRequest(username: string, password: string)
  datatype LoginResponse = LoginResponse(sessionId: string, userId: int)

  /** Success body of `POST auth/logout`. */
  datatype LogoutResponse = LogoutResponse(message: string)

  const SessionHeader: string := "X-Session-ID"

  /** JavaScript truthiness of a `string | null`: neither null nor the empty string. */
  predicate Truthy(s: Option<string>) {
    s.Some? && s.value != ""
  }

  /** An outgoing request; only its headers are modelled. */
  class Request {
    var headers: map<string, string>

    constructor (headers: map<string, string>)
      ensures this.headers == headers
    {
      this.headers := headers;
    }
  }

  /** HTTP white space: tab, line feed, carriage return and space. */
  predicate IsHttpWhiteSpace(c: char) {
    c == '\t' || c == '\n' || c == '\r' || c == ' '
  }

  /** A value with its leading HTTP white space removed. */
  function StripLeading(v: string): (r: string)
    ensures |r| <= |v| && r == v[|v| - |r|..]
    ensures r == [] || !IsHttpWhiteSpace(r[0])
    ensures forall i :: 0 <= i < |v| - |r| ==> IsHttpWhiteSpace(v[i])
  {
    if v != [] && IsHttpWhiteSpace(v[0]) then StripLeading(v[1..]) else v
  }

  /** A value with its trailing HTTP white space removed. */
  function StripTrailing(v: string): (r: string)
    ensures |r| <= |v| && r == v[..|r|]
    ensures r == [] || !IsHttpWhiteSpace(r[|r| - 1])
    ensures forall i :: |r| <= i < |v| ==> IsHttpWhiteSpace(v[i])
  {
    if v != [] && IsHttpWhiteSpace(v[|v| - 1]) then StripTrailing(v[..|v| - 1]) else v
  }

  /** How `Headers.set` normalizes a value (the Fetch standard): HTTP white space stripped at
      both ends. */
  function NormalizeHeaderValue(v: string): string {
    StripTrailing(StripLeading(v))
  }

  /** `Headers.set` takes a ByteString: a code unit above U+00FF is a TypeError. */
  predicate IsByteString(v: string) {
    forall i :: 0 <= i < |v| ==> v[i] <= '\U{FF}'
  }

  /** A normalized value is a valid header value unless it holds NUL, LF or CR. */
  predicate IsHeaderValue(v: string) {
    forall i :: 0 <= i < |v| ==> v[i] != '\0' && v[i] != '\n' && v[i] != '\r'
  }

  /** `Headers.set(name, v)` succeeds, rather than throwing a TypeError. */
  predicate HeaderSetAccepts(v: string) {
    IsByteString(v) && IsHeaderValue(NormalizeHeaderValue(v))
  }

  /** The `beforeRequest` hook: reads the session id from the store at the time of the
      request. When the id is truthy it sets `X-Session-ID` to the id as `Headers.set` stores
      it: normalized, or a TypeError (which fails the request) with the headers left as they
      were. When the id is not truthy the headers are left as they are. No other header is
      touched, and the store is only read. */
  method BeforeRequest(request: Request, auth: AuthState) returns (threw: bool)
    modifies request
    ensures threw <==> Truthy(auth.sessionId) && !HeaderSetAccepts(auth.sessionId.value)
    ensures Truthy(auth.sessionId) && !threw ==> SessionHeader in request.headers
    ensures Truthy(auth.sessionId) && !threw ==>
      request.headers[SessionHeader] == NormalizeHeaderValue(auth.sessionId.value)
    ensures !Truthy(auth.sessionId) || threw ==> request.headers == old(request.headers)
    ensures forall name :: name != SessionHeader ==>
      (name in request.headers <==> name in old(request.headers))
    ensures forall name :: name != SessionHeader && name in request.headers ==>
      request.headers[name] == old(request.headers)[name]
  {
    var sessionId := auth.sessionId;
    threw := false;
    if Truthy(sessionId) {
      if !IsByteString(sessionId.value) {
        threw := true;
        return;
      }
      var value := NormalizeHeaderValue(sessionId.value);
      if !IsHeaderValue(value) {
        threw := true;
        return;
      }
      request.headers := request.headers[SessionHeader := value];
    }
  }

  /** A session id of printable ASCII without spaces (such as the mock backend's) is sent
      exactly as stored. */
  lemma PlainSessionIdSentVerbatim(v: string)
    requires forall i :: 0 <= i < |v| ==> '!' <= v[i] <= '~'
    ensures HeaderSetAccepts(v) && NormalizeHeaderValue(v) == v
  {
    if v != [] {
      assert !IsHttpWhiteSpace(v[0]) && !IsHttpWhiteSpace(v[|v| - 1]);
    }
  }

  lemma {:induction false} StripLeadingSkips(w: string, x: string)
    requires forall i :: 0 <= i < |w| ==> IsHttpWhiteSpace(w[i])
    ensures StripLeading(w + x) == StripLeading(x)
  {
    if w == [] {
      assert w + x == x;
    } else {
      assert (w + x)[0] == w[0];
      assert (w + x)[1..] == w[1..] + x;
      StripLeadingSkips(w[1..], x);
    }
  }

  lemma {:induction false} StripTrailingSkips(x: string, w: string)
    requires forall i :: 0 <= i < |w| ==> IsHttpWhiteSpace(w[i])
    ensures StripTrailing(x + w) == StripTrailing(x)
  {
    if w == [] {
      assert x + w == x;
    } else {
      var n := |w|;
      assert (x + w)[|x + w| - 1] == w[n - 1];
      assert (x + w)[..|x + w| - 1] == x + w[..n - 1];
      StripTrailingSkips(x, w[..n - 1]);
    }
  }

  lemma PaddedNormalizes(before: string, v: string, after: string)
    requires forall i :: 0 <= i < |before| ==> IsHttpWhiteSpace(before[i])
    requires forall i :: 0 <= i < |after| ==> IsHttpWhiteSpace(after[i])
    requires v != [] && !IsHttpWhiteSpace(v[0]) && !IsHttpWhiteSpace(v[|v| - 1])
    ensures NormalizeHeaderValue(before + v + after) == v
  {
    assert before + v + after == before + (v + after);
    StripLeadingSkips(before, v + after);
    assert (v + after)[0] == v[0];
    assert StripLeading(v + after) == v + after;
    StripTrailingSkips(v, after);
  }

  lemma PaddedIsByteString(before: string, v: string, after: string)
    requires forall i :: 0 <= i < |before| ==> IsHttpWhiteSpace(before[i])
    requires forall i :: 0 <= i < |after| ==> IsHttpWhiteSpace(after[i])
    requires IsByteString(v)
    ensures IsByteString(before + v + after)
  {
    var padded := before + v + after;
    forall i | 0 <= i < |padded|
      ensures padded[i] <= '\U{FF}'
    {
      if i < |before| {
        assert padded[i] == before[i];
      } else if i < |before| + |v| {
        assert padded[i] == v[i - |before|];
      } else {
        assert padded[i] == after[i - |before| - |v|];
      }
    }
  }

  /** White space around a plain session id is dropped from the header value, and the call
      is accepted. */
  lemma PaddedSessionIdTrimmed(before: string, v: string, after: string)
    requires forall i :: 0 <= i < |before| ==> IsHttpWhiteSpace(before[i])
    requires forall i :: 0 <= i < |after| ==> IsHttpWhiteSpace(after[i])
    requires v != [] && forall i :: 0 <= i < |v| ==> '!' <= v[i] <= '~'
    ensures HeaderSetAccepts(before + v + after)
    ensures NormalizeHeaderValue(before + v + after) == v
  {
    PlainSessionIdSentVerbatim(v);
    assert !IsHttpWhiteSpace(v[0]) && !IsHttpWhiteSpace(v[|v| - 1]);
    PaddedNormalizes(before, v, after);
    PaddedIsByteString(before, v, after);
  }

  /** A line break inside the session id makes `Headers.set` throw. */
  lemma BrokenSessionIdThrows()
    ensures !HeaderSetAccepts("session\n1")
  {
    var broken := "session\n1";
    assert !IsHttpWhiteSpace(broken[0]) && !IsHttpWhiteSpace(broken[|broken| - 1]);
    assert NormalizeHeaderValue(broken) == broken;
    assert broken[7] == '\n';
  }
}
