/** The fluent URI builder used for both the HTTP base URL and the
    WebSocket URL (src/clients/uri.ts). */
module Uris {
  import opened Js

  /** `number | null | undefined`, the type of the port. */
  type NullablePort = v: Value | v.Undefined? || v.Null? || v.Num? witness Null

  class Uri {
    var host: string
    var port: NullablePort
    var scheme: string
    var path: string
    /** The query items, a plain object whose values `URLSearchParams` stringifies. */
    var queryParams: Entries

    constructor ()
      ensures scheme == "http" && host == "" && path == ""
      ensures port == Null && queryParams == []
    {
      host := "";
      port := Null;
      scheme := "http";
      path := "";
      queryParams := [];
    }

    method WithHost(h: string) returns (r: Uri)
      modifies this
      ensures r == this && host == h
      ensures port == old(port) && scheme == old(scheme) && path == old(path) && queryParams == old(queryParams)
    {
      host := h;
      r := this;
    }

    method WithPort(p: NullablePort) returns (r: Uri)
      modifies this
      ensures r == this && port == p
      ensures host == old(host) && scheme == old(scheme) && path == old(path) && queryParams == old(queryParams)
    {
      port := p;
      r := this;
    }

    method WithScheme(s: string) returns (r: Uri)
      modifies this
      ensures r == this && scheme == s
      ensures host == old(host) && port == old(port) && path == old(path) && queryParams == old(queryParams)
    {
      scheme := s;
      r := this;
    }

    method WithPath(p: string) returns (r: Uri)
      modifies this
      ensures r == this && path == p
      ensures host == old(host) && port == old(port) && scheme == old(scheme) && queryParams == old(queryParams)
    {
      path := p;
      r := this;
    }

    /** Replaces the query with the spread of the old query and `items`;
        MergedQueryRead says what each key then reads as. */
    method WithQueryItems(items: Entries) returns (r: Uri)
      modifies this
      ensures r == this && queryParams == Spread(Spread([], old(queryParams)), items)
      ensures host == old(host) && port == old(port) && scheme == old(scheme) && path == old(path)
    {
      queryParams := Spread(Spread([], queryParams), items);
      r := this;
    }

    /** Renders the URI; `encode` stands for `URLSearchParams(...).toString()`. */
    method ToString(encode: Entries -> string) returns (url: string)
      ensures url == Rendered(scheme, host, port, path, encode(queryParams))
    {
      url := scheme + "://" + host;
      if Truthy(port) {
        url := url + (":" + IntToString(port.n));
      }
      if path != "" {
        url := url + ("/" + StripLeadingSlashes(path));
      }
      var queryString := encode(queryParams);
      if queryString != "" {
        url := url + ("?" + queryString);
      }
    }
  }

  /** The text of a URI: scheme, "://", host, then the port, path and query suffixes. */
  function Rendered(scheme: string, host: string, port: NullablePort, path: string, queryString: string): string
  {
    scheme + "://" + host + PortPart(port) + PathPart(path) + QueryPart(queryString)
  }

  /** The `:port` suffix: present exactly when the port is truthy, so 0, null and undefined add nothing. */
  function PortPart(port: NullablePort): (r: string)
    ensures r == "" <==> !Truthy(port)
    ensures r != "" ==> port.Num? && r == ":" + IntToString(port.n)
  {
    if Truthy(port) then ":" + IntToString(port.n) else ""
  }

  /** The path suffix: one "/" followed by the path without its leading slashes. */
  function PathPart(path: string): (r: string)
    ensures r == "" <==> path == ""
    ensures |r| <= |path| + 1
    ensures r != "" ==> r[0] == '/' && (|r| == 1 || r[1] != '/')
    ensures r != "" ==> path == Slashes(|path| - (|r| - 1)) + r[1..]
  {
    if path == "" then "" else "/" + StripLeadingSlashes(path)
  }

  /** The query suffix: present exactly when the encoded query is non-empty. */
  function QueryPart(queryString: string): (r: string)
    ensures r == "" <==> queryString == ""
    ensures r != "" ==> r == "?" + queryString
  {
    if queryString == "" then "" else "?" + queryString
  }

  function Slashes(n: nat): (r: string)
    ensures |r| == n && forall i :: 0 <= i < n ==> r[i] == '/'
  {
    if n == 0 then "" else "/" + Slashes(n - 1)
  }

  /** `path.replace(/^\/+/, "")`. */
  function StripLeadingSlashes(p: string): (r: string)
    ensures |r| <= |p| && p == Slashes(|p| - |r|) + r
    ensures r == "" || r[0] != '/'
  {
    if p != [] && p[0] == '/' then
      var r := StripLeadingSlashes(p[1..]);
      assert Slashes(|p| - |r|) == "/" + Slashes(|p[1..]| - |r|);
      r
    else p
  }

  /** `withQueryItems` keeps every earlier key, and a key it is given reads as the last value given for it. */
  lemma MergedQueryRead(q: Entries, items: Entries, k: string)
    ensures Get(Spread(Spread([], q), items), k) == if k in Keys(items) then LastGet(items, k) else LastGet(q, k)
    ensures k in Keys(q) ==> k in Keys(Spread(Spread([], q), items))
  {
    SpreadGet(Spread([], q), items, k);
    SpreadGet([], q, k);
  }
}
