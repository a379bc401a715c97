/** The shared request logic of every REST endpoint (src/endpoints/abstract.ts):
    URL formatting and the `get`/`post`/`put`/`delete` helpers, with the
    HTTP transport abstracted as a function parameter. */
module Endpoints {
  import opened Js
  import opened Helpers
  import opened Uris
  import opened Serializers

  /** `s.replace(/\/+/g, "/")`: each maximal run of slashes becomes a single slash. */
  function CollapseSlashes(s: string): (r: string)
    ensures r == "" <==> s == ""
    ensures s != "" ==> (r[0] == '/' <==> s[0] == '/')
    ensures NoDoubleSlash(r)
    decreases |s|
  {
    if s == "" then ""
    else if s[0] == '/' then
      var rest := StripLeadingSlashes(s);
      assert |rest| < |s|;
      var t := CollapseSlashes(rest);
      assert t == "" || t[0] != '/';
      "/" + t
    else
      [s[0]] + CollapseSlashes(s[1..])
  }

  /** No "/" is directly followed by another "/". */
  ghost predicate NoDoubleSlash(s: string)
  {
    forall i, j :: 0 <= i < j < |s| && j == i + 1 ==> s[i] != '/' || s[j] != '/'
  }

  /** Reference definition, one character at a time: a slash that another slash follows is
      dropped, every other character is kept. */
  function DropDoubledSlashes(s: string): string
  {
    if s == "" then ""
    else if |s| >= 2 && s[0] == '/' && s[1] == '/' then DropDoubledSlashes(s[1..])
    else [s[0]] + DropDoubledSlashes(s[1..])
  }

  /** Collapsing runs is the same as dropping each slash that precedes a slash. */
  lemma {:induction false} CollapseIsDrop(s: string)
    ensures CollapseSlashes(s) == DropDoubledSlashes(s)
    decreases |s|
  {
    if s == "" {
    } else if s[0] != '/' {
      CollapseIsDrop(s[1..]);
    } else if |s| >= 2 && s[1] == '/' {
      assert StripLeadingSlashes(s) == StripLeadingSlashes(s[1..]);
      CollapseIsDrop(s[1..]);
    } else {
      assert StripLeadingSlashes(s) == s[1..];
      CollapseIsDrop(s[1..]);
    }
  }

  /** A string without "//" is left as it is. */
  lemma {:induction false} DropNoDouble(s: string)
    requires NoDoubleSlash(s)
    ensures DropDoubledSlashes(s) == s
  {
    if s != "" {
      assert NoDoubleSlash(s[1..]) by {
        forall i, j | 0 <= i < j < |s[1..]| && j == i + 1 ensures s[1..][i] != '/' || s[1..][j] != '/' {
          assert s[1..][i] == s[i + 1] && s[1..][j] == s[j + 1];
        }
      }
      DropNoDouble(s[1..]);
      if |s| >= 2 {
        assert s[0] != '/' || s[1] != '/';
      }
    }
  }

  /** Every character other than "/" survives, in order. */
  lemma {:induction false} DropKeepsOthers(s: string)
    ensures Without('/', DropDoubledSlashes(s)) == Without('/', s)
  {
    if s != "" {
      DropKeepsOthers(s[1..]);
      if |s| >= 2 && s[0] == '/' && s[1] == '/' {
      } else {
        WithoutAppend('/', [s[0]], DropDoubledSlashes(s[1..]));
        assert Without('/', [s[0]]) == (if s[0] == '/' then "" else [s[0]]);
      }
    }
  }

  /** Collapsing is idempotent, keeps the non-slash characters in order, and changes nothing
      in a string that has no "//". */
  lemma CollapseSlashesSpec(s: string)
    ensures CollapseSlashes(CollapseSlashes(s)) == CollapseSlashes(s)
    ensures Without('/', CollapseSlashes(s)) == Without('/', s)
    ensures NoDoubleSlash(s) ==> CollapseSlashes(s) == s
  {
    CollapseIsDrop(s);
    CollapseIsDrop(CollapseSlashes(s));
    DropNoDouble(CollapseSlashes(s));
    DropKeepsOthers(s);
    if NoDoubleSlash(s) {
      DropNoDouble(s);
    }
  }

  /** `formatUrl` of an endpoint whose prefix is `prefix`: the endpoint under the prefix, slash
      runs collapsed. */
  function FormatUrl(prefix: string, endpoint: string): (r: string)
    ensures |r| > 0 && r[0] == '/'
    ensures NoDoubleSlash(r)
  {
    var url := "/" + prefix + "/" + endpoint;
    assert url[0] == '/';
    CollapseSlashes(url)
  }

  /** The URL keeps the characters other than "/" of the prefix followed by those of the endpoint. */
  lemma FormatUrlShape(prefix: string, endpoint: string)
    ensures Without('/', FormatUrl(prefix, endpoint)) == Without('/', prefix) + Without('/', endpoint)
  {
    CollapseSlashesSpec("/" + prefix + "/" + endpoint);
    WithoutSeparators(prefix, endpoint);
  }

  /** The two slashes `formatUrl` adds are the only characters it adds. */
  lemma WithoutSeparators(prefix: string, endpoint: string)
    ensures Without('/', "/" + prefix + "/" + endpoint) == Without('/', prefix) + Without('/', endpoint)
  {
    var head := "/" + prefix;
    WithoutAppend('/', head + "/", endpoint);
    WithoutAppend('/', head, "/");
    WithoutAppend('/', "/", prefix);
    WithoutSlash();
  }

  lemma WithoutSlash()
    ensures Without('/', "/") == ""
  {
    assert "/"[1..] == "";
  }

  datatype Verb = GET | POST | PUT | DELETE

  /** What the transport hands back: the HTTP status, its text and the response body. */
  datatype Response = Response(status: int, statusText: string, data: Value)

  /** The request options: the argument under `query` for `get` and under `json` for the
      others, attached only when it is truthy. */
  function RequestOptions(verb: Verb, arg: Value): (options: Entries)
    ensures |options| <= 1
    ensures options != [] <==> Truthy(arg)
    ensures forall i :: 0 <= i < |options| ==> options[i] == (OptionName(verb), arg)
  {
    if Truthy(arg) then [(OptionName(verb), arg)] else []
  }

  function OptionName(verb: Verb): string
  {
    if verb.GET? then "query" else "json"
  }

  /** The argument reads back from its option exactly when it is truthy, no other option is
      ever set, and the option name depends only on the verb. */
  lemma RequestOptionsSpec(verb: Verb, arg: Value, k: string)
    ensures Get(RequestOptions(verb, arg), OptionName(verb)) == (if Truthy(arg) then Some(arg) else None)
    ensures k != OptionName(verb) ==> Get(RequestOptions(verb, arg), k) == None
    ensures OptionName(verb) == "query" <==> verb.GET?
    ensures OptionName(verb) == "json" <==> !verb.GET?
  {
    GetAbsent([], k);
    if Truthy(arg) {
      GetByFirst(RequestOptions(verb, arg), OptionName(verb), 0);
      if k != OptionName(verb) {
        GetAbsent(RequestOptions(verb, arg), k);
      }
    }
  }

  /** The message of the error raised on a status that axios accepts but that is not 200. */
  function FailureMessage(verb: Verb, endpoint: string, statusText: string): (m: string)
    ensures |m| > 10 && m[..10] == "Failed to "
    ensures |m| >= |statusText| + 2 && m[|m| - |statusText| - 2..] == ": " + statusText
  {
    var action := match verb
      case GET => "fetch data from "
      case POST => "post data to "
      case PUT => "put data to "
      case DELETE => "delete data from ";
    var m := "Failed to " + action + endpoint + ": " + statusText;
    assert m[..10] == "Failed to ";
    assert m[|m| - |statusText| - 2..] == ": " + statusText;
    m
  }

  /** Axios's default `validateStatus`, which the client's instance keeps: only a 2xx response
      resolves the request. */
  predicate Accepted(status: int)
  {
    200 <= status < 300
  }

  /** The message axios rejects with when the status is not accepted. */
  function RejectionMessage(status: int): string
  {
    "Request failed with status code " + IntToString(status)
  }

  /** The outcome of a request given what the transport produced: its rejection passed on, a
      status outside 2xx rejected by axios before the handler sees it, a 2xx other than 200
      failing with the verb's message, and a 200 giving the deserialized body. */
  function Outcome(verb: Verb, endpoint: string, exchange: Result<Response>, parse: string -> Option<Value>): (r: Result<Value>)
    ensures r.Ok? ==> exchange.Ok? && exchange.value.status == 200 && r.value.Obj?
  {
    match exchange
    case Err(e) => Err(e)
    case Ok(response) =>
      if !Accepted(response.status) then Err(RejectionMessage(response.status))
      else if response.status != 200 then Err(FailureMessage(verb, endpoint, response.statusText))
      else Deserialized(response.data, parse)
  }

  /** A rejected call fails with its own error; a status outside 2xx fails with axios's message;
      a 2xx other than 200 fails with the verb's message; a 200 succeeds exactly when the body
      deserializes, and then returns the denormalized body. */
  lemma OutcomeSpec(verb: Verb, endpoint: string, exchange: Result<Response>, parse: string -> Option<Value>)
    ensures exchange.Err? ==> Outcome(verb, endpoint, exchange, parse) == Err(exchange.message)
    ensures exchange.Ok? && !Accepted(exchange.value.status) ==>
      Outcome(verb, endpoint, exchange, parse) == Err(RejectionMessage(exchange.value.status))
    ensures exchange.Ok? && Accepted(exchange.value.status) && exchange.value.status != 200 ==>
      Outcome(verb, endpoint, exchange, parse) == Err(FailureMessage(verb, endpoint, exchange.value.statusText))
    ensures exchange.Ok? && exchange.value.status == 200 && !exchange.value.data.Str? ==>
      (Outcome(verb, endpoint, exchange, parse).Ok? <==> !exchange.value.data.Undefined? && !exchange.value.data.Null?)
    ensures exchange.Ok? && exchange.value.status == 200 && exchange.value.data.Str? ==>
      var parsed := parse(exchange.value.data.s);
      (Outcome(verb, endpoint, exchange, parse).Ok? <==> parsed.Some? && !parsed.value.Undefined? && !parsed.value.Null?)
  {
  }

  /** The transport: `getHttpClient(agentId, userId)` followed by the axios call for the verb, the
      endpoint and the options. `Err` is a call that never produced a response: the credential
      check of `getClient` throwing, or a network failure. */
  type Transport = (Verb, NullableString, NullableString, string, Entries) -> Result<Response>

  class AbstractEndpoint {
    const prefix: string
    const systemId: string

    constructor (prefix: string)
      ensures this.prefix == prefix && systemId == "system"
    {
      this.prefix := prefix;
      systemId := "system";
    }

    /** `get`, `post`, `put` and `delete`: build the options, call the transport once, let axios
        settle the status, check it against 200 and deserialize the body. */
    method Request(verb: Verb, endpoint: string, agentId: NullableString, userId: NullableString, arg: Value,
                   transport: Transport, serializer: Serializer, parse: string -> Option<Value>)
      returns (r: Result<Value>)
      ensures r == Outcome(verb, endpoint, transport(verb, agentId, userId, endpoint, RequestOptions(verb, arg)), parse)
    {
      var options: Entries := [];
      if Truthy(arg) {
        options := Put(options, OptionName(verb), arg);
      }
      assert options == RequestOptions(verb, arg);
      var exchange := transport(verb, agentId, userId, endpoint, options);
      if exchange.Err? {
        return Err(exchange.message);
      }
      var response := exchange.value;
      if !Accepted(response.status) {
        return Err(RejectionMessage(response.status));
      }
      if response.status != 200 {
        return Err(FailureMessage(verb, endpoint, response.statusText));
      }
      r := serializer.Deserialize(response.data, parse);
    }
  }
}
