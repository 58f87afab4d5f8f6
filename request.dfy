/**
 * The legacy request builder (`sorna/request.py`): a `Request` object whose header
 * dictionary and cached body change as its `content` property is read and set,
 * the relative URL it is sent to, the method check done before sending, and the
 * `Response` record.
 */
module LegacyRequest {
  import opened Common
  import opened Values
  import Strings

  // ---------------------------------------------------------------------------
  // An insertion-ordered dictionary of headers (OrderedDict[str, str])
  // ---------------------------------------------------------------------------

  type Headers = seq<(string, string)>

  function Keys(hs: Headers): (ks: seq<string>)
    ensures |ks| == |hs|
    ensures forall i :: 0 <= i < |hs| ==> ks[i] == hs[i].0
  {
    if hs == [] then [] else [hs[0].0] + Keys(hs[1..])
  }

  predicate Distinct(ks: seq<string>)
  {
    forall i, j :: 0 <= i < j < |ks| ==> ks[i] != ks[j]
  }

  /** `headers.get(k)`. */
  function Find(hs: Headers, k: string): (r: Option<string>)
    ensures r.None? <==> k !in Keys(hs)
  {
    if hs == [] then None
    else
      assert Keys(hs) == [hs[0].0] + Keys(hs[1..]);
      if hs[0].0 == k then Some(hs[0].1) else Find(hs[1..], k)
  }

  /**
   * `headers[k] = v`: an existing key keeps its position and takes the new value;
   * a new key goes at the end.
   */
  function SetItem(hs: Headers, k: string, v: string): (r: Headers)
    ensures Keys(r) == if k in Keys(hs) then Keys(hs) else Keys(hs) + [k]
  {
    assert hs != [] ==> Keys(hs) == [hs[0].0] + Keys(hs[1..]);
    if hs == [] then [(k, v)]
    else if hs[0].0 == k then
      assert Keys([(k, v)] + hs[1..]) == [k] + Keys(hs[1..]);
      [(k, v)] + hs[1..]
    else
      var rest := SetItem(hs[1..], k, v);
      assert Keys([hs[0]] + rest) == [hs[0].0] + Keys(rest);
      [hs[0]] + rest
  }

  /** After `headers[k] = v`, `k` maps to `v` and every other key keeps its value. */
  lemma {:induction false} SetItemFind(hs: Headers, k: string, v: string, k': string)
    ensures Find(SetItem(hs, k, v), k') == if k' == k then Some(v) else Find(hs, k')
  {
    if hs != [] && hs[0].0 != k {
      SetItemFind(hs[1..], k, v, k');
      assert SetItem(hs, k, v)[1..] == SetItem(hs[1..], k, v);
    }
  }

  /** `headers[k] = v` never makes a key appear twice. */
  lemma SetItemDistinct(hs: Headers, k: string, v: string)
    requires Distinct(Keys(hs))
    ensures Distinct(Keys(SetItem(hs, k, v)))
  {
  }

  // ---------------------------------------------------------------------------
  // Construction
  // ---------------------------------------------------------------------------

  /** The API endpoint and the version string (e.g. "v2.20170315") of a configuration. */
  datatype APIConfig = APIConfig(endpoint: string, version: string)

  /** The `path` a request stores: a single leading '/' is removed. */
  function StoredPath(path: string): (r: string)
    ensures path == (if |path| >= 1 && path[0] == '/' then "/" else "") + r
  {
    if |path| >= 1 && path[0] == '/' then path[1..] else path
  }

  /** Only one slash is removed: "//x" is stored as "/x". */
  lemma StoredPathStripsOnce()
    ensures StoredPath("//x") == "/x"
    ensures StoredPath("x") == "x"
  {
  }

  /** The `data` a request stores: a missing or empty mapping becomes an empty one. */
  function StoredData(data: Option<seq<(string, Value)>>): (r: seq<(string, Value)>)
    ensures data.None? ==> r == []
    ensures data.Some? ==> r == data.value
  {
    if data.Some? && data.value != [] then data.value else []
  }

  /** The headers of a new request, in this order. */
  function InitialHeaders(date: string, version: string): (r: Headers)
    ensures Keys(r) == ["Content-Type", "Date", "X-Sorna-Version"]
    ensures Find(r, "Content-Type") == Some("application/json")
    ensures Find(r, "Date") == Some(date)
    ensures Find(r, "X-Sorna-Version") == Some(version)
    ensures Find(r, "Content-Length").None?
  {
    var r := [("Content-Type", "application/json"), ("Date", date), ("X-Sorna-Version", version)];
    assert r[1..][1..] == [("X-Sorna-Version", version)];
    assert Find(r[1..][1..], "X-Sorna-Version") == Some(version);
    assert Find(r[1..], "X-Sorna-Version") == Some(version);
    r
  }

  /** Reading the body of a new request adds `Content-Length` after the three default headers. */
  lemma ContentLengthComesLast(date: string, version: string, length: string)
    ensures Keys(SetItem(InitialHeaders(date, version), "Content-Length", length))
      == ["Content-Type", "Date", "X-Sorna-Version", "Content-Length"]
  {
    assert "Content-Length" !in Keys(InitialHeaders(date, version));
  }

  // ---------------------------------------------------------------------------
  // The relative URL of build_url
  // ---------------------------------------------------------------------------

  /** `version.split('.', 1)[0]`: the text before the first '.', or all of it. */
  function MajorVersion(version: string): (r: string)
    ensures |r| <= |version| && r == version[..|r|]
    ensures '.' !in r
    ensures |r| < |version| ==> version[|r|] == '.'
  {
    if version == [] || version[0] == '.' then ""
    else [version[0]] + MajorVersion(version[1..])
  }

  /** What `build_url` resolves against the endpoint: the major version, then '/' and the path if there is one. */
  function RelativeUrl(version: string, path: string): (r: string)
    ensures path == [] ==> r == MajorVersion(version)
    ensures path != [] ==> r == MajorVersion(version) + "/" + path
  {
    MajorVersion(version) + (if |path| > 0 then "/" + path else "")
  }

  /** The major version is everything before the first '.'. */
  lemma MajorVersionBeforeDot(major: string, minor: string)
    requires '.' !in major
    ensures MajorVersion(major + "." + minor) == major
  {
    var v := major + "." + minor;
    var r := MajorVersion(v);
    assert v[|major|] == '.';
    assert forall k :: 0 <= k < |r| ==> r[k] == v[k];
    assert forall k :: 0 <= k < |major| ==> v[k] == major[k] && v[k] != '.';
  }

  /** A version without a '.' is its own major version. */
  lemma MajorVersionWithoutDot(version: string)
    requires '.' !in version
    ensures MajorVersion(version) == version
  {
  }

  /** "v2.20170315" with path "kernel/create" resolves to "v2/kernel/create". */
  lemma RelativeUrlExample()
    ensures RelativeUrl("v2" + "." + "20170315", "kernel/create") == "v2" + "/" + "kernel/create"
  {
    MajorVersionBeforeDot("v2", "20170315");
  }

  /** An empty path leaves the major version alone. */
  lemma RelativeUrlEmptyPath()
    ensures RelativeUrl("v1", "") == "v1"
  {
    MajorVersionWithoutDot("v1");
  }

  // ---------------------------------------------------------------------------
  // The method check of send/asend
  // ---------------------------------------------------------------------------

  const AllowedMethods: set<string> := {"GET", "HEAD", "POST", "PUT", "PATCH", "DELETE", "OPTIONS"}

  /** ASCII `str.lower()` (the allowed methods are ASCII). */
  function Lower(s: string): (r: string)
    ensures |r| == |s|
    ensures forall i :: 0 <= i < |s| ==> r[i] == (if 'A' <= s[i] <= 'Z' then (s[i] as int + 32) as char else s[i])
  {
    if s == [] then [] else [if 'A' <= s[0] <= 'Z' then (s[0] as int + 32) as char else s[0]] + Lower(s[1..])
  }

  /** What `send` hands to the HTTP session: the verb method it calls, the URL, the JSON payload, the headers. */
  datatype Outgoing = Outgoing(verb: string, url: string, payload: string, headers: Headers)

  /** The method check is case-sensitive: "get" is refused. */
  lemma MethodCheckIsCaseSensitive()
    ensures "GET" in AllowedMethods && "get" !in AllowedMethods
  {
    assert "get" != "GET";
  }

  // ---------------------------------------------------------------------------
  // Request
  // ---------------------------------------------------------------------------

  class Request {
    var config: APIConfig
    var httpMethod: string
    var path: string
    var data: seq<(string, Value)>
    var date: string
    var headers: Headers
    /** `_content`: the cached or manually set body. */
    var content: Option<Bytes>

    /** The headers never repeat a key, and a cached body is announced with its exact length. */
    ghost predicate Valid()
      reads this
    {
      && Distinct(Keys(headers))
      && (content.Some? ==> Find(headers, "Content-Length") == Some(Strings.NatToString(|content.value|)))
    }

    /**
     * `Request(method, path, data, config)`. A missing configuration is replaced by
     * `defaultConfig` (what `get_config()` returns); `now` is the ISO text of the
     * current UTC time.
     */
    constructor (httpMethod: string, path: string, data: Option<seq<(string, Value)>>,
                 config: Option<APIConfig>, defaultConfig: APIConfig, now: string)
      ensures Valid()
      ensures this.config == (if config.Some? then config.value else defaultConfig)
      ensures this.httpMethod == httpMethod
      ensures this.path == StoredPath(path)
      ensures this.data == StoredData(data)
      ensures this.date == now
      ensures headers == InitialHeaders(now, this.config.version)
      ensures content.None?
    {
      this.config := if config.Some? then config.value else defaultConfig;
      this.httpMethod := httpMethod;
      this.path := if |path| >= 1 && path[0] == '/' then path[1..] else path;
      this.data := if data.Some? && data.value != [] then data.value else [];
      this.date := now;
      new;
      headers := [("Content-Type", "application/json"), ("Date", now), ("X-Sorna-Version", this.config.version)];
      content := None;
    }

    /**
     * The `content` getter. The first read encodes `data` (`encode` stands for
     * `json.dumps(...).encode()`), or takes b'' for empty data, caches it and sets
     * `Content-Length`; later reads return the cache and change nothing.
     */
    method Content(encode: seq<(string, Value)> -> Bytes) returns (c: Bytes)
      requires Valid()
      modifies this
      ensures Valid()
      ensures old(content).Some? ==> c == old(content).value && headers == old(headers)
      ensures old(content).None? ==> c == (if data == [] then [] else encode(data))
      ensures old(content).None? ==>
        headers == SetItem(old(headers), "Content-Length", Strings.NatToString(|c|))
      ensures content == Some(c)
      ensures config == old(config) && httpMethod == old(httpMethod) && path == old(path)
      ensures data == old(data) && date == old(date)
    {
      if content.None? {
        if data == [] {
          content := Some([]);
        } else {
          content := Some(encode(data));
        }
        SetItemFind(headers, "Content-Length", Strings.NatToString(|content.value|), "Content-Length");
        SetItemDistinct(headers, "Content-Length", Strings.NatToString(|content.value|));
        headers := SetItem(headers, "Content-Length", Strings.NatToString(|content.value|));
      }
      c := content.value;
    }

    /**
     * The `content` setter. A body may be set only while `data` is empty (otherwise
     * an AssertionError, and nothing changes); it sets `Content-Length`. Setting
     * None clears the cache and leaves the headers as they are.
     */
    method SetContent(value: Option<Bytes>) returns (error: Option<PyError>)
      requires Valid()
      modifies this
      ensures Valid()
      ensures error.Some? <==> value.Some? && old(data) != []
      ensures error.Some? ==> error.value.AssertionError?
      ensures error.Some? ==> content == old(content) && headers == old(headers)
      ensures error.None? && value.Some? ==>
        content == value && headers == SetItem(old(headers), "Content-Length", Strings.NatToString(|value.value|))
      ensures value.None? ==> content.None? && headers == old(headers)
      ensures config == old(config) && httpMethod == old(httpMethod) && path == old(path)
      ensures data == old(data) && date == old(date)
    {
      if value.Some? {
        if data != [] {
          return Some(AssertionError("request.data should be empty to set request.content manually."));
        }
        SetItemFind(headers, "Content-Length", Strings.NatToString(|value.value|), "Content-Length");
        SetItemDistinct(headers, "Content-Length", Strings.NatToString(|value.value|));
        headers := SetItem(headers, "Content-Length", Strings.NatToString(|value.value|));
      }
      content := value;
      error := None;
    }

    /** `build_url`: `urljoin` (reference resolution, not modelled) of the endpoint and the relative URL. */
    method BuildUrl(urljoin: (string, string) -> string) returns (url: string)
      ensures url == urljoin(config.endpoint, RelativeUrl(config.version, path))
    {
      var major := MajorVersion(config.version);
      var p := if |path| > 0 then "/" + path else "";
      url := urljoin(config.endpoint, major + p);
    }

    /**
     * What `send` passes to the HTTP session before any I/O: the method check
     * comes first, then the lower-cased verb, the URL, `json.dumps(data)` (given
     * as `dumps`) and the headers.
     */
    method Prepare(urljoin: (string, string) -> string, dumps: seq<(string, Value)> -> string)
      returns (r: Outcome<Outgoing>)
      ensures r.Raised? <==> httpMethod !in AllowedMethods
      ensures r.Raised? ==> r.error.AssertionError?
      ensures r.Done? ==> r.value == Outgoing(Lower(httpMethod), urljoin(config.endpoint, RelativeUrl(config.version, path)),
                                                dumps(data), headers)
    {
      if httpMethod !in AllowedMethods {
        return Raised(AssertionError(""));
      }
      var url := BuildUrl(urljoin);
      r := Done(Outgoing(Lower(httpMethod), url, dumps(data), headers));
    }
  }

  // ---------------------------------------------------------------------------
  // Response
  // ---------------------------------------------------------------------------

  /** A received response; its accessors are the fields. */
  datatype Response = Response(status: int, reason: string, body: string,
                               contentType: Option<string>, contentLength: Option<int>)

  /** `Response(status, reason, body)` with the default content type and length. */
  function NewResponse(status: int, reason: string, body: string): (r: Response)
    ensures r.status == status && r.reason == reason && r.body == body
    ensures r.contentType == Some("text/plain") && r.contentLength.None?
  {
    Response(status, reason, body, Some("text/plain"), None)
  }
}
