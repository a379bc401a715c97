/** The HTTP client (src/clients/httpclient.ts): credentials, the per-request
    agent, user and chat, and the two request interceptors that turn them into
    headers. The axios instance itself is not modelled. */
module HttpClients {
  import opened Js
  import opened Uris

  /** The configuration an interceptor receives; `headers` is absent until someone creates it. */
  class RequestConfig {
    var headers: Option<Entries>

    constructor (headers: Option<Entries>)
      ensures this.headers == headers
    {
      this.headers := headers;
    }
  }

  /** `headers.set(name, value)` when `value` is truthy: `name` then reads as the value, and every
      other header, like `name` itself when the value is falsy, reads as before. */
  function SetIfTruthy(h: Entries, name: string, value: NullableString): (r: Entries)
    ensures forall k :: Get(r, k) == HeaderAt(k, name, value, Get(h, k))
  {
    if Truthy(value) then
      PutGetAll(h, name, Str(value.s));
      Put(h, name, Str(value.s))
    else h
  }

  function Bearer(credential: NullableString): NullableString
  {
    if Truthy(credential) then Str("Bearer " + credential.s) else credential
  }

  /** What a header reads as once a field has been copied into it when truthy. */
  function Header(before: Option<Value>, value: NullableString): Option<Value>
  {
    if Truthy(value) then Some(Str(value.s)) else before
  }

  /** What header `k` reads as after a conditional set of `name`, given what it read before. */
  function HeaderAt(k: string, name: string, value: NullableString, before: Option<Value>): Option<Value>
  {
    if k == name then Header(before, value) else before
  }

  /** The headers `beforeSecureRequest` leaves behind: any header reads as the last of the four
      conditional sets (Authorization, X-Agent-ID, X-User-ID, X-Chat-ID) that applies to it. */
  function SecureHeaders(h: Entries, apikey: NullableString, agentId: NullableString, userId: NullableString,
                         chatId: NullableString): (r: Entries)
    ensures forall k :: (Get(r, k) ==
      HeaderAt(k, "X-Chat-ID", chatId, HeaderAt(k, "X-User-ID", userId, HeaderAt(k, "X-Agent-ID", agentId,
        HeaderAt(k, "Authorization", Bearer(apikey), Get(h, k))))))
  {
    var h1 := SetIfTruthy(h, "Authorization", Bearer(apikey));
    var h2 := SetIfTruthy(h1, "X-Agent-ID", agentId);
    var h3 := SetIfTruthy(h2, "X-User-ID", userId);
    SetIfTruthy(h3, "X-Chat-ID", chatId)
  }

  /** The headers `beforeJwtRequest` leaves behind: any header reads as the last of the three
      conditional sets (Authorization, X-Agent-ID, X-Chat-ID) that applies to it. */
  function JwtHeaders(h: Entries, token: NullableString, agentId: NullableString, chatId: NullableString): (r: Entries)
    ensures forall k :: (Get(r, k) ==
      HeaderAt(k, "X-Chat-ID", chatId, HeaderAt(k, "X-Agent-ID", agentId, HeaderAt(k, "Authorization", Bearer(token), Get(h, k)))))
  {
    var h1 := SetIfTruthy(h, "Authorization", Bearer(token));
    var h2 := SetIfTruthy(h1, "X-Agent-ID", agentId);
    SetIfTruthy(h2, "X-Chat-ID", chatId)
  }

  /** The four header names the interceptors write differ pairwise. */
  lemma HeaderNamesDistinct()
    ensures "Authorization" != "X-Agent-ID" && "Authorization" != "X-User-ID" && "Authorization" != "X-Chat-ID"
    ensures "X-Agent-ID" != "X-User-ID" && "X-Agent-ID" != "X-Chat-ID" && "X-User-ID" != "X-Chat-ID"
  {
    assert "Authorization"[0] != "X-Agent-ID"[0];
    assert "X-Agent-ID"[2] != "X-User-ID"[2] && "X-Agent-ID"[2] != "X-Chat-ID"[2] && "X-User-ID"[2] != "X-Chat-ID"[2];
  }

  /** Three conditional sets of three different headers: each of them reads as its own set, and
      any other header as before. */
  lemma ThreeSetsGet(h: Entries, n1: string, v1: NullableString, n2: string, v2: NullableString, n3: string,
                     v3: NullableString, k: string)
    requires n1 != n2 && n1 != n3 && n2 != n3
    ensures var r := SetIfTruthy(SetIfTruthy(SetIfTruthy(h, n1, v1), n2, v2), n3, v3);
      Get(r, n1) == Header(Get(h, n1), v1) && Get(r, n2) == Header(Get(h, n2), v2) &&
      Get(r, n3) == Header(Get(h, n3), v3) && (k != n1 && k != n2 && k != n3 ==> Get(r, k) == Get(h, k))
  {
  }

  /** Four conditional sets of four different headers: each of them reads as its own set, and any
      other header as before. */
  lemma FourSetsGet(h: Entries, n1: string, v1: NullableString, n2: string, v2: NullableString, n3: string,
                    v3: NullableString, n4: string, v4: NullableString, k: string)
    requires n1 != n2 && n1 != n3 && n1 != n4 && n2 != n3 && n2 != n4 && n3 != n4
    ensures var r := SetIfTruthy(SetIfTruthy(SetIfTruthy(SetIfTruthy(h, n1, v1), n2, v2), n3, v3), n4, v4);
      Get(r, n1) == Header(Get(h, n1), v1) && Get(r, n2) == Header(Get(h, n2), v2) &&
      Get(r, n3) == Header(Get(h, n3), v3) && Get(r, n4) == Header(Get(h, n4), v4) &&
      (k != n1 && k != n2 && k != n3 && k != n4 ==> Get(r, k) == Get(h, k))
  {
  }

  /** Authorization is "Bearer <apikey>" exactly when the apikey is set; each of X-Agent-ID,
      X-User-ID and X-Chat-ID is its field exactly when that field is truthy; every other
      header keeps its value. */
  lemma SecureHeadersSpec(h: Entries, apikey: NullableString, agentId: NullableString, userId: NullableString,
                          chatId: NullableString, k: string)
    ensures Get(SecureHeaders(h, apikey, agentId, userId, chatId), "Authorization") ==
      if Truthy(apikey) then Some(Str("Bearer " + apikey.s)) else Get(h, "Authorization")
    ensures Get(SecureHeaders(h, apikey, agentId, userId, chatId), "X-Agent-ID") == Header(Get(h, "X-Agent-ID"), agentId)
    ensures Get(SecureHeaders(h, apikey, agentId, userId, chatId), "X-User-ID") == Header(Get(h, "X-User-ID"), userId)
    ensures Get(SecureHeaders(h, apikey, agentId, userId, chatId), "X-Chat-ID") == Header(Get(h, "X-Chat-ID"), chatId)
    ensures k != "Authorization" && k != "X-Agent-ID" && k != "X-User-ID" && k != "X-Chat-ID" ==>
      Get(SecureHeaders(h, apikey, agentId, userId, chatId), k) == Get(h, k)
  {
    HeaderNamesDistinct();
    FourSetsGet(h, "Authorization", Bearer(apikey), "X-Agent-ID", agentId, "X-User-ID", userId, "X-Chat-ID", chatId, k);
  }

  /** Authorization is "Bearer <token>" exactly when a token is set; X-Agent-ID and X-Chat-ID
      are copied when truthy; X-User-ID, like every other header, is never touched. */
  lemma JwtHeadersSpec(h: Entries, token: NullableString, agentId: NullableString, chatId: NullableString, k: string)
    ensures Get(JwtHeaders(h, token, agentId, chatId), "Authorization") ==
      if Truthy(token) then Some(Str("Bearer " + token.s)) else Get(h, "Authorization")
    ensures Get(JwtHeaders(h, token, agentId, chatId), "X-Agent-ID") == Header(Get(h, "X-Agent-ID"), agentId)
    ensures Get(JwtHeaders(h, token, agentId, chatId), "X-Chat-ID") == Header(Get(h, "X-Chat-ID"), chatId)
    ensures k != "Authorization" && k != "X-Agent-ID" && k != "X-Chat-ID" ==>
      Get(JwtHeaders(h, token, agentId, chatId), k) == Get(h, k)
  {
    HeaderNamesDistinct();
    ThreeSetsGet(h, "Authorization", Bearer(token), "X-Agent-ID", agentId, "X-Chat-ID", chatId, k);
  }

  /** The headers after both interceptors, in an order the HTTP library decides. X-Agent-ID,
      X-User-ID and X-Chat-ID come out as the fields make them whatever the order; Authorization
      carries the only credential set, the later interceptor's when both are set, and is left
      alone when neither is. */
  function Intercepted(h: Entries, secureFirst: bool, apikey: NullableString, token: NullableString,
                       agentId: NullableString, userId: NullableString, chatId: NullableString): (r: Entries)
    ensures Get(r, "X-Agent-ID") == Header(Get(h, "X-Agent-ID"), agentId)
    ensures Get(r, "X-User-ID") == Header(Get(h, "X-User-ID"), userId)
    ensures Get(r, "X-Chat-ID") == Header(Get(h, "X-Chat-ID"), chatId)
    ensures Truthy(apikey) && !Truthy(token) ==> Get(r, "Authorization") == Some(Str("Bearer " + apikey.s))
    ensures Truthy(token) && !Truthy(apikey) ==> Get(r, "Authorization") == Some(Str("Bearer " + token.s))
    ensures Truthy(apikey) && Truthy(token) ==>
      Get(r, "Authorization") == Some(Str("Bearer " + (if secureFirst then token.s else apikey.s)))
    ensures !Truthy(apikey) && !Truthy(token) ==> Get(r, "Authorization") == Get(h, "Authorization")
  {
    if secureFirst then
      var s := SecureHeaders(h, apikey, agentId, userId, chatId);
      SecureHeadersSpec(h, apikey, agentId, userId, chatId, "");
      JwtHeadersSpec(s, token, agentId, chatId, "X-User-ID");
      JwtHeaders(s, token, agentId, chatId)
    else
      var j := JwtHeaders(h, token, agentId, chatId);
      JwtHeadersSpec(h, token, agentId, chatId, "X-User-ID");
      SecureHeadersSpec(j, apikey, agentId, userId, chatId, "");
      SecureHeaders(j, apikey, agentId, userId, chatId)
  }

  /** Whatever the order, X-Agent-ID, X-User-ID and X-Chat-ID come out the same, and with only
      one credential set Authorization carries that one. Which credential wins when both are set
      is left to the order. */
  lemma InterceptedOrderIndependent(h: Entries, apikey: NullableString, token: NullableString,
                                    agentId: NullableString, userId: NullableString, chatId: NullableString)
    ensures Get(Intercepted(h, true, apikey, token, agentId, userId, chatId), "X-Agent-ID") ==
      Get(Intercepted(h, false, apikey, token, agentId, userId, chatId), "X-Agent-ID")
    ensures Get(Intercepted(h, true, apikey, token, agentId, userId, chatId), "X-User-ID") ==
      Get(Intercepted(h, false, apikey, token, agentId, userId, chatId), "X-User-ID")
    ensures Get(Intercepted(h, true, apikey, token, agentId, userId, chatId), "X-Chat-ID") ==
      Get(Intercepted(h, false, apikey, token, agentId, userId, chatId), "X-Chat-ID")
    ensures Truthy(apikey) && !Truthy(token) ==>
      forall b :: Get(Intercepted(h, b, apikey, token, agentId, userId, chatId), "Authorization") == Some(Str("Bearer " + apikey.s))
    ensures Truthy(token) && !Truthy(apikey) ==>
      forall b :: Get(Intercepted(h, b, apikey, token, agentId, userId, chatId), "Authorization") == Some(Str("Bearer " + token.s))
  {
  }

  class HttpClient {
    const httpUri: Uri
    var apikey: NullableString
    var token: NullableString
    var agentId: NullableString
    var userId: NullableString
    var chatId: NullableString

    /** The base URI is built from the host, the port and the scheme; no token yet, no agent,
        user or chat. */
    constructor (host: string, port: NullablePort, apikey: NullableString, isHTTPs: bool)
      ensures this.apikey == apikey && token == Undefined
      ensures agentId == Null && userId == Null && chatId == Null
      ensures fresh(httpUri) && httpUri.host == host && httpUri.port == port && httpUri.path == ""
      ensures httpUri.scheme == (if isHTTPs then "https" else "http") && httpUri.queryParams == []
    {
      var uri := new Uri();
      uri := uri.WithHost(host);
      uri := uri.WithPort(port);
      uri := uri.WithScheme(if isHTTPs then "https" else "http");
      httpUri := uri;
      this.apikey := apikey;
      token := Undefined;
      agentId := Null;
      userId := Null;
      chatId := Null;
    }

    /** `setToken`: stores the token, changes nothing else and returns the same client. */
    method SetToken(token: string) returns (r: HttpClient)
      modifies this
      ensures r == this && this.token == Str(token)
      ensures apikey == old(apikey) && agentId == old(agentId) && userId == old(userId) && chatId == old(chatId)
    {
      this.token := Str(token);
      r := this;
    }

    /** `getClient`: throws when neither an apikey nor a token is set; otherwise records the
        agent, user and chat of the coming request, null and undefined included. */
    method GetClient(agentId: NullableString, userId: NullableString, chatId: NullableString) returns (r: Result<()>)
      modifies this
      ensures r.Err? <==> !Truthy(apikey) && !Truthy(token)
      ensures r.Err? ==> r.message == "You must provide an apikey or a token"
      ensures r.Err? ==> this.agentId == old(this.agentId) && this.userId == old(this.userId) && this.chatId == old(this.chatId)
      ensures r.Ok? ==> this.agentId == agentId && this.userId == userId && this.chatId == chatId
      ensures apikey == old(apikey) && token == old(token)
    {
      if !Truthy(apikey) && !Truthy(token) {
        return Err("You must provide an apikey or a token");
      }
      this.agentId := agentId;
      this.userId := userId;
      this.chatId := chatId;
      r := Ok(());
    }

    /** `beforeSecureRequest`: creates the headers when absent and adds the apikey credential
        and the agent, user and chat; SecureHeadersSpec says what each header then reads as. */
    method BeforeSecureRequest(config: RequestConfig) returns (r: RequestConfig)
      modifies config
      ensures r == config
      ensures config.headers == Some(SecureHeaders(if old(config.headers).Some? then old(config.headers).value else [],
                                                   apikey, agentId, userId, chatId))
    {
      if config.headers.None? {
        config.headers := Some([]);
      }
      var h := config.headers.value;
      ghost var h0 := h;
      if Truthy(apikey) {
        h := Put(h, "Authorization", Str("Bearer " + apikey.s));
      }
      ghost var h1 := h;
      assert h1 == SetIfTruthy(h0, "Authorization", Bearer(apikey));
      if Truthy(agentId) {
        h := Put(h, "X-Agent-ID", Str(agentId.s));
      }
      ghost var h2 := h;
      assert h2 == SetIfTruthy(h1, "X-Agent-ID", agentId);
      if Truthy(userId) {
        h := Put(h, "X-User-ID", Str(userId.s));
      }
      assert h == SetIfTruthy(h2, "X-User-ID", userId);
      if Truthy(chatId) {
        h := Put(h, "X-Chat-ID", Str(chatId.s));
      }
      config.headers := Some(h);
      r := config;
    }

    /** `beforeJwtRequest`: creates the headers when absent and adds the token credential and
        the agent and chat, never the user; JwtHeadersSpec says what each header then reads as. */
    method BeforeJwtRequest(config: RequestConfig) returns (r: RequestConfig)
      modifies config
      ensures r == config
      ensures config.headers == Some(JwtHeaders(if old(config.headers).Some? then old(config.headers).value else [],
                                                token, agentId, chatId))
    {
      if config.headers.None? {
        config.headers := Some([]);
      }
      var h := config.headers.value;
      ghost var h0 := h;
      if Truthy(token) {
        h := Put(h, "Authorization", Str("Bearer " + token.s));
      }
      ghost var h1 := h;
      assert h1 == SetIfTruthy(h0, "Authorization", Bearer(token));
      if Truthy(agentId) {
        h := Put(h, "X-Agent-ID", Str(agentId.s));
      }
      assert h == SetIfTruthy(h1, "X-Agent-ID", agentId);
      if Truthy(chatId) {
        h := Put(h, "X-Chat-ID", Str(chatId.s));
      }
      config.headers := Some(h);
      r := config;
    }
  }
}
