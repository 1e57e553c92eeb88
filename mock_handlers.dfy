/** The mock backend of src/lib/api/mock/handlers.ts: each handler is a search over a fixed
    table, answered with a JSON body or an error status. The simulated delays are not part of
    this model. */
module MockHandlers {
  import opened Types
  import opened Api
  import opened Js
  import Seqs

  /** A handler's reply: a 200 JSON body, or an error status with `{ error }`. */
  datatype Response<T> = Json(body: T) | ErrorJson(status: int, error: string)

  datatype User = User(userId: int, username: string, password: string, sessionId: string)

  const Users: seq<User> := [
    User(1, "user1", "password1", "session1"),
    User(2, "user2", "password2", "session2")
  ]

  const Data1List: seq<Data1> := [
    Data1(1, "Data 1", ["tag1", "tag2"]),
    Data1(2, "Data 2", ["tag2", "tag3"]),
    Data1(3, "Data 3", ["tag1", "tag3"])
  ]

  predicate Matches(u: User, request: LoginRequest) {
    u.username == request.username && u.password == request.password
  }

  /** `POST /api/auth/login`: succeeds exactly when some user matches both the user name and
      the password, and then answers with that user's session id and user id; otherwise 401. */
  function Login(request: LoginRequest): (r: Response<LoginResponse>)
    ensures r.Json? <==> exists u :: u in Users && Matches(u, request)
    ensures r.Json? ==> exists u :: (u in Users && Matches(u, request) &&
      r.body == LoginResponse(u.sessionId, u.userId))
    ensures r.ErrorJson? ==> r.status == 401 && r.error == "Invalid credentials"
  {
    match Seqs.FindIndex(Users, (u: User) => Matches(u, request))
    case Some(i) => Json(LoginResponse(Users[i].sessionId, Users[i].userId))
    case None => ErrorJson(401, "Invalid credentials")
  }

  /** `POST /api/auth/logout`: always the same message. */
  function Logout(): (r: Response<LogoutResponse>)
    ensures r.Json? && r.body.message == "Logged out successfully"
  {
    Json(LogoutResponse("Logged out successfully"))
  }

  /** `GET /api/data1`: the whole table, in order. */
  function ListData1(): (r: Response<seq<Data1>>)
    ensures r.Json? && r.body == Data1List
  {
    Json(Data1List)
  }

  /** `GET /api/data1/:id`: the entry whose id equals `parseInt(id, 10)`; 404 otherwise,
      including when the id does not parse. */
  function Data1ById(id: string): (r: Response<Data1>)
    ensures r.Json? <==> exists d :: d in Data1List && ParseInt10(id) == Some(d.id)
    ensures r.Json? ==> r.body in Data1List && ParseInt10(id) == Some(r.body.id)
    ensures r.ErrorJson? ==> r.status == 404 && r.error == "Data not found"
  {
    Data1WithId(ParseInt10(id))
  }

  /** The search itself, on the parsed id (`None` is NaN, equal to no id). */
  function Data1WithId(wanted: Option<int>): (r: Response<Data1>)
    ensures r.Json? <==> exists d :: d in Data1List && wanted == Some(d.id)
    ensures r.Json? ==> r.body in Data1List && wanted == Some(r.body.id)
    ensures r.ErrorJson? ==> r.status == 404 && r.error == "Data not found"
  {
    match Seqs.FindIndex(Data1List, (d: Data1) => wanted == Some(d.id))
    case Some(i) => Json(Data1List[i])
    case None => ErrorJson(404, "Data not found")
  }

  /** The fixed credentials: the right pair logs in, a right name with a wrong password does not. */
  lemma LoginExamples()
    ensures Login(LoginRequest("user1", "password1")) == Json(LoginResponse("session1", 1))
    ensures Login(LoginRequest("user2", "password2")) == Json(LoginResponse("session2", 2))
    ensures Login(LoginRequest("user1", "password2")) == ErrorJson(401, "Invalid credentials")
  {
    assert Matches(Users[0], LoginRequest("user1", "password1"));
    assert !Matches(Users[0], LoginRequest("user2", "password2"));
    assert Matches(Users[1], LoginRequest("user2", "password2"));
    assert !Matches(Users[0], LoginRequest("user1", "password2"));
    assert !Matches(Users[1], LoginRequest("user1", "password2"));
  }

  /** The table's ids are 1, 2 and 3, in order: id `k` finds entry `k` exactly when `k` is
      one of them. */
  lemma Data1WithIdTable(k: int)
    ensures 1 <= k <= 3 ==> Data1WithId(Some(k)) == Json(Data1List[k - 1])
    ensures !(1 <= k <= 3) ==> Data1WithId(Some(k)) == ErrorJson(404, "Data not found")
  {
    assert Data1List[0].id == 1 && Data1List[1].id == 2 && Data1List[2].id == 3;
    assert forall d :: d in Data1List ==> d == Data1List[0] || d == Data1List[1] || d == Data1List[2];
    if 1 <= k <= 3 {
      assert Data1List[k - 1] in Data1List;
    }
  }

  lemma Data1ByParsedId(id: string, k: int)
    requires ParseInt10(id) == Some(k)
    ensures 1 <= k <= 3 ==> Data1ById(id) == Json(Data1List[k - 1])
    ensures !(1 <= k <= 3) ==> Data1ById(id) == ErrorJson(404, "Data not found")
  {
    Data1WithIdTable(k);
  }

  /** A plain id finds its entry. */
  lemma Data1ByIdFinds()
    ensures Data1ById("2") == Json(Data1List[1])
  {
    assert NumberToString(2) == "2";
    ParseInt10RoundTrip(2);
    Data1ByParsedId("2", 2);
  }

  /** White space before the id is skipped. */
  lemma Data1ByIdSkipsWhiteSpace()
    ensures Data1ById(" 3") == Json(Data1List[2])
  {
    assert NumberToString(3) == "3";
    assert " 3" == " " + "3";
    ParseInt10RoundTrip(3);
    ParseInt10SkipsWhiteSpace(" ", "3");
    Data1ByParsedId(" 3", 3);
  }

  /** `parseInt` ignores what follows the digits, so `2abc` still finds entry 2. */
  lemma Data1ByIdIgnoresTrailingText()
    ensures Data1ById("2abc") == Json(Data1List[1])
  {
    assert NumberToString(2) + "abc" == "2abc";
    ParseInt10ReadsPrefix(2, "abc");
    Data1ByParsedId("2abc", 2);
  }

  /** No leading digits gives 404. */
  lemma Data1ByIdRejectsText()
    ensures Data1ById("abc") == ErrorJson(404, "Data not found")
  {
    PrintableNotWhiteSpace('a');
    assert TrimStart("abc") == "abc";
    assert DigitPrefix("abc") == [];
    assert ParseInt10("abc") == None;
  }

  /** An id outside the table gives 404. */
  lemma Data1ByIdMissing()
    ensures Data1ById("4") == ErrorJson(404, "Data not found")
  {
    assert NumberToString(4) == "4";
    ParseInt10RoundTrip(4);
    Data1ByParsedId("4", 4);
  }
}
