/**
 * The mock HTTP API of server.js: `requestHandler` as a decision table from
 * (verb, url) to a route, the response each route gives, and the request
 * body that the body-reading routes build chunk by chunk.
 */
module Server {
  import opened Wrappers

  /** The values the handler hands to `JSON.stringify`. */
  datatype Json =
    | Null
    | Bool(b: bool)
    | Number(n: int)
    | Str(s: string)
    | Arr(items: seq<Json>)
    | Obj(fields: seq<(string, Json)>)

  /** `j` is an object with a field `key` whose value is `value`. */
  predicate Has(j: Json, key: string, value: Json)
  {
    j.Obj? && (key, value) in j.fields
  }

  /** What `res.end` is given: serialised JSON, or plain text. */
  datatype Body = JsonBody(value: Json) | Text(text: string)

  /** The status code, the `Content-Type` header and the body of a response. */
  datatype Response = Response(status: int, contentType: string, body: Body)

  /** An incoming request: its verb, its url and the data chunks of its body, in order. */
  datatype Request = Request(verb: string, url: string, chunks: seq<string>)

  /** The branches of `requestHandler`, in the order they are tried. */
  datatype Route =
    | AccountLogin
    | GetAccount
    | GetCharacters
    | CreateCharacter
    | CharacterLogin
    | GatewayEndpoint
    | NotFound

  const JsonType := "application/json"
  const TextType := "text/plain"

  // AuthorizeErrorCode, AccountErrorCode and CharacterErrorCode: the members used.
  const AuthorizeErrorNone := 0
  const AccountErrorNone := 0
  const CharacterErrorNone := 0
  const CharacterErrorInvalidCharacterId := 2

  /** A character record of the mock account. */
  datatype Character = Character(
    name: string, itemIds: seq<int>, characterId: int, displayName: string, mapId: int, channelId: int)

  function CharacterJson(c: Character): (j: Json)
  {
    Obj([("Name", Str(c.name)), ("ItemIds", Arr(Numbers(c.itemIds))), ("CharacterId", Number(c.characterId)),
         ("DisplayName", Str(c.displayName)), ("MapId", Number(c.mapId)), ("ChannelId", Number(c.channelId))])
  }

  /** A list of numbers as a JSON array. */
  function Numbers(ns: seq<int>): seq<Json>
  {
    seq(|ns|, i requires 0 <= i < |ns| => Number(ns[i]))
  }

  /** `mockAccount`. */
  const MockAccount: Json :=
    Obj([("AccountId", Number(12345)), ("Email", Str("mocked_email@example.com")), ("IsAdmin", Bool(false)),
         ("CreatedAt", Str("2023-01-01T00:00:00Z")), ("LastLogin", Str("2023-01-15T00:00:00Z")),
         ("DisabledAt", Null), ("BannedUntil", Null)])

  /** `mockGetAccountCharactersResponse.Characters`. */
  const MockCharacters: seq<Character> :=
    [Character("test", [790, 673, 1390, 1047, 1318, 1528], 1, "Crop", 0, 1)]

  /** `mockGetAccountCharactersResponse`. */
  const MockCharactersResponse: Json :=
    Obj([("Error", Number(CharacterErrorNone)), ("Characters", Arr(seq(|MockCharacters|, i requires 0 <= i < |MockCharacters| => CharacterJson(MockCharacters[i]))))])

  const NotFoundResponse := Response(404, TextType, Text("Not Found\n"))

  /** Which branch of `requestHandler` a request takes. */
  function MatchRoute(verb: string, url: string): (r: Route)
  {
    if verb == "POST" && url == "/auth/account/login" then AccountLogin
    else if verb == "GET" && (url == "/account" || url == "/account/") then GetAccount
    else if verb == "GET" && (url == "/character" || url == "/character/") then GetCharacters
    else if verb == "POST" && (url == "/character" || url == "/character/") then CreateCharacter
    else if verb == "POST" && url == "/auth/character/login" then CharacterLogin
    else if verb == "GET" && url == "/gateway/endpoint" then GatewayEndpoint
    else NotFound
  }

  /** The branches that wait for the request body before responding. */
  predicate ReadsBody(route: Route)
  {
    route == AccountLogin || route == CreateCharacter || route == CharacterLogin
  }

  /** `{ Error, AccessToken, RefreshToken }` of the account login. */
  const AccountLoginResponse: Json :=
    Obj([("Error", Number(AuthorizeErrorNone)), ("AccessToken", Str("mocked_access_token")),
         ("RefreshToken", Str("mocked_refresh_token"))])

  /** The character login response for the first mock character, or the error response when there is none. */
  function CharacterLoginResponse(): (r: Response)
  {
    if |MockCharacters| > 0 then
      var character := MockCharacters[0];
      Response(200, JsonType, JsonBody(Obj([
        ("Error", Number(CharacterErrorNone)),
        ("AccessToken", Str("mocked_access_token_for_character")),
        ("RefreshToken", Str("mocked_refresh_token_for_character")),
        ("CharacterId", Number(character.characterId)),
        ("DisplayName", Str(character.displayName)),
        ("Name", Str(character.name)),
        ("AccountId", Number(1)),
        ("MapId", Number(0)),
        ("ChannelId", Number(0)),
        ("ItemIds", Arr(Numbers(character.itemIds)))])))
    else
      Response(400, JsonType, JsonBody(Obj([
        ("Error", Number(CharacterErrorInvalidCharacterId)), ("AccessToken", Null), ("RefreshToken", Null)])))
  }

  /**
   * The response of a route to a received body. `destructures(body)` says
   * whether `const { ... } = JSON.parse(body)` completes: the body is JSON and
   * not `null`. When it does not, the `end` callback throws and no response is
   * sent.
   */
  function Respond(route: Route, body: string, destructures: string -> bool): (r: Option<Response>)
  {
    match route
    case AccountLogin =>
      if destructures(body) then Some(Response(200, JsonType, JsonBody(AccountLoginResponse))) else None
    case GetAccount =>
      Some(Response(200, JsonType, JsonBody(Obj([("Error", Number(AccountErrorNone)), ("Account", MockAccount)]))))
    case GetCharacters =>
      Some(Response(200, JsonType, JsonBody(MockCharactersResponse)))
    case CreateCharacter =>
      Some(Response(200, JsonType, JsonBody(Obj([("message", Str("Character creation received"))]))))
    case CharacterLogin =>
      if destructures(body) then Some(CharacterLoginResponse()) else None
    case GatewayEndpoint =>
      Some(Response(200, JsonType, JsonBody(Arr([Str("ws://localhost:8080/")]))))
    case NotFound =>
      Some(NotFoundResponse)
  }

  /** The string `body += chunk.toString()` has built after the given chunks. */
  function Concat(chunks: seq<string>): (body: string)
  {
    if |chunks| == 0 then "" else Concat(chunks[..|chunks| - 1]) + chunks[|chunks| - 1]
  }

  /** `requestHandler`: route the request, wait for its body where the route needs it, respond. */
  function HandleRequest(request: Request, destructures: string -> bool): (response: Option<Response>)
  {
    var route := MatchRoute(request.verb, request.url);
    Respond(route, if ReadsBody(route) then Concat(request.chunks) else "", destructures)
  }

  /** The `data` callbacks of one request: append every chunk to `body`, in order. */
  method ReceiveBody(chunks: seq<string>) returns (body: string)
    ensures body == Concat(chunks)
    ensures |body| == Length(chunks)
  {
    body := "";
    var i := 0;
    while i < |chunks|
      invariant 0 <= i <= |chunks|
      invariant body == Concat(chunks[..i])
      invariant |body| == Length(chunks[..i])
    {
      assert chunks[..i + 1][..i] == chunks[..i];
      body := body + chunks[i];
      i := i + 1;
    }
    assert chunks[..|chunks|] == chunks;
  }

  /** `requestHandler` on one request, the body read through its `data` callbacks. */
  method RequestHandler(request: Request, destructures: string -> bool) returns (response: Option<Response>)
    ensures response == HandleRequest(request, destructures)
  {
    var route := MatchRoute(request.verb, request.url);
    var body := "";
    if ReadsBody(route) {
      body := ReceiveBody(request.chunks);
    }
    response := Respond(route, body, destructures);
  }

  /** The total length of the chunks. */
  function Length(chunks: seq<string>): (n: nat)
  {
    if |chunks| == 0 then 0 else Length(chunks[..|chunks| - 1]) + |chunks[|chunks| - 1]|
  }

  /** The body of chunks received in two runs is the body of the first run followed by that of the second. */
  lemma {:induction false} ConcatAppend(a: seq<string>, b: seq<string>)
    ensures Concat(a + b) == Concat(a) + Concat(b)
  {
    if |b| == 0 {
      assert a + b == a;
    } else {
      var b' := b[..|b| - 1];
      assert (a + b)[..|a + b| - 1] == a + b';
      ConcatAppend(a, b');
    }
  }

  /** Every chunk appears in the body at the offset of the chunks before it. */
  lemma {:induction false} ChunkInBody(chunks: seq<string>, k: int)
    requires 0 <= k < |chunks|
    ensures |Concat(chunks)| == Length(chunks)
    ensures Length(chunks[..k]) + |chunks[k]| <= |Concat(chunks)|
    ensures Concat(chunks)[Length(chunks[..k])..Length(chunks[..k]) + |chunks[k]|] == chunks[k]
  {
    assert chunks == chunks[..k] + [chunks[k]] + chunks[k + 1..];
    ConcatAppend(chunks[..k] + [chunks[k]], chunks[k + 1..]);
    ConcatAppend(chunks[..k], [chunks[k]]);
    assert Concat([chunks[k]]) == chunks[k] by {
      assert [chunks[k]][..0] == [];
    }
    ConcatLength(chunks);
    ConcatLength(chunks[..k]);
  }

  /** The body is as long as all its chunks together. */
  lemma {:induction false} ConcatLength(chunks: seq<string>)
    ensures |Concat(chunks)| == Length(chunks)
  {
    if |chunks| > 0 {
      ConcatLength(chunks[..|chunks| - 1]);
    }
  }

  /** Each branch is taken exactly for its method and its urls; everything else is not found. */
  lemma RouteTable(verb: string, url: string)
    ensures MatchRoute(verb, url) == AccountLogin <==> verb == "POST" && url == "/auth/account/login"
    ensures MatchRoute(verb, url) == GetAccount <==> verb == "GET" && url in ["/account", "/account/"]
    ensures MatchRoute(verb, url) == GetCharacters <==> verb == "GET" && url in ["/character", "/character/"]
    ensures MatchRoute(verb, url) == CreateCharacter <==> verb == "POST" && url in ["/character", "/character/"]
    ensures MatchRoute(verb, url) == CharacterLogin <==> verb == "POST" && url == "/auth/character/login"
    ensures MatchRoute(verb, url) == GatewayEndpoint <==> verb == "GET" && url == "/gateway/endpoint"
  {
  }

  /** Any request no branch matches gets 404, `text/plain`, "Not Found\n". */
  lemma UnmatchedIsNotFound(request: Request, destructures: string -> bool)
    requires MatchRoute(request.verb, request.url) == NotFound
    ensures HandleRequest(request, destructures) == Some(Response(404, "text/plain", Text("Not Found\n")))
  {
  }

  /** Only GET and POST are routed, and the method is part of every match. */
  lemma MethodMatters(verb: string, url: string, chunks: seq<string>, destructures: string -> bool)
    ensures verb != "GET" && verb != "POST" ==> MatchRoute(verb, url) == NotFound
    ensures HandleRequest(Request("GET", "/auth/account/login", chunks), destructures) == Some(NotFoundResponse)
    ensures HandleRequest(Request("GET", "/auth/character/login", chunks), destructures) == Some(NotFoundResponse)
    ensures HandleRequest(Request("POST", "/account", chunks), destructures) == Some(NotFoundResponse)
    ensures HandleRequest(Request("POST", "/gateway/endpoint", chunks), destructures) == Some(NotFoundResponse)
  {
  }

  /** A trailing slash is accepted on `/account` and `/character` only. */
  lemma TrailingSlash(verb: string)
    ensures MatchRoute(verb, "/account/") == MatchRoute(verb, "/account")
    ensures MatchRoute(verb, "/character/") == MatchRoute(verb, "/character")
    ensures MatchRoute(verb, "/auth/account/login/") == NotFound
    ensures MatchRoute(verb, "/auth/character/login/") == NotFound
    ensures MatchRoute(verb, "/gateway/endpoint/") == NotFound
  {
  }

  /**
   * The account login ignores the credentials: whatever JSON body arrives, the
   * response is 200 with error code 0 and the fixed tokens.
   */
  lemma AccountLoginIgnoresCredentials(chunks: seq<string>, destructures: string -> bool)
    requires destructures(Concat(chunks))
    ensures var r := HandleRequest(Request("POST", "/auth/account/login", chunks), destructures);
      && r.Some? && r.value.status == 200 && r.value.contentType == JsonType
      && Has(r.value.body.value, "Error", Number(0))
      && Has(r.value.body.value, "AccessToken", Str("mocked_access_token"))
      && Has(r.value.body.value, "RefreshToken", Str("mocked_refresh_token"))
  {
  }

  /** A body-reading route whose body does not destructure sends nothing. */
  lemma UnparsableLoginBody(request: Request, destructures: string -> bool)
    requires MatchRoute(request.verb, request.url) in {AccountLogin, CharacterLogin}
    requires !destructures(Concat(request.chunks))
    ensures HandleRequest(request, destructures) == None
  {
  }

  /**
   * Character login always succeeds, for the first mock character: the 400
   * branch cannot be taken because the mock list is never empty.
   */
  lemma CharacterLoginSucceeds(chunks: seq<string>, destructures: string -> bool)
    requires destructures(Concat(chunks))
    ensures HandleRequest(Request("POST", "/auth/character/login", chunks), destructures) == Some(CharacterLoginResponse())
    ensures CharacterLoginResponse().status == 200 && CharacterLoginResponse().contentType == JsonType
    ensures CharacterLoginResponse().body.JsonBody?
  {
  }

  /** The character login names character 1, "Crop", of the mock character "test", with error code 0. */
  lemma CharacterLoginIdentity()
    ensures CharacterLoginResponse().body.JsonBody?
    ensures var j := CharacterLoginResponse().body.value;
      && Has(j, "Error", Number(0))
      && Has(j, "CharacterId", Number(1))
      && Has(j, "DisplayName", Str("Crop"))
      && Has(j, "Name", Str("test"))
  {
  }

  /**
   * The character login places the character with account 1 on map 0 and
   * channel 0 (the mock character record says channel 1), wearing its items.
   */
  lemma CharacterLoginPlacement()
    ensures CharacterLoginResponse().body.JsonBody?
    ensures var j := CharacterLoginResponse().body.value;
      && Has(j, "AccountId", Number(1))
      && Has(j, "MapId", Number(0))
      && Has(j, "ChannelId", Number(0)) && MockCharacters[0].channelId == 1
      && Has(j, "ItemIds", Arr(Numbers([790, 673, 1390, 1047, 1318, 1528])))
  {
  }

  /** Character creation always answers, whatever its body. */
  lemma CreateCharacterAlwaysAnswers(request: Request, destructures: string -> bool)
    requires MatchRoute(request.verb, request.url) == CreateCharacter
    ensures HandleRequest(request, destructures)
      == Some(Response(200, JsonType, JsonBody(Obj([("message", Str("Character creation received"))]))))
  {
  }

  /** The routes that do not read a body answer the same whatever the chunks. */
  lemma BodyIgnoredWithoutReading(request: Request, chunks: seq<string>, destructures: string -> bool)
    requires !ReadsBody(MatchRoute(request.verb, request.url))
    ensures HandleRequest(request, destructures) == HandleRequest(request.(chunks := chunks), destructures)
    ensures HandleRequest(request, destructures).Some?
  {
  }

  /** Every matched route answers with `application/json`; only the fallback is plain text. */
  lemma MatchedRoutesAreJson(request: Request, destructures: string -> bool)
    requires HandleRequest(request, destructures).Some?
    ensures var r := HandleRequest(request, destructures).value;
      (r.contentType == JsonType <==> MatchRoute(request.verb, request.url) != NotFound)
      && (r.contentType == JsonType <==> r.body.JsonBody?)
  {
  }

  /** The gateway endpoint returns the list of one WebSocket address. */
  lemma GatewayList(chunks: seq<string>, destructures: string -> bool)
    ensures var r := HandleRequest(Request("GET", "/gateway/endpoint", chunks), destructures);
      r == Some(Response(200, JsonType, JsonBody(Arr([Str("ws://localhost:8080/")]))))
  {
  }
}
