/**
 * The request-path side of the development API proxy: the rewrite that strips
 * the API version prefix (`re.sub(r'^/?v(\d+)/', '/', path)`) and the routing
 * table `create_proxy_app` installs.
 */
module ProxyRoutes {
  import opened Common
  import Strings

  // ---------------------------------------------------------------------------
  // The version prefix, stated declaratively
  // ---------------------------------------------------------------------------

  /** `v`, one or more digits, `/`: exactly the text of `v(\d+)/`. */
  predicate IsVersionSegment(t: string)
  {
    |t| >= 3 && t[0] == 'v' && t[|t| - 1] == '/' &&
    forall i :: 1 <= i < |t| - 1 ==> Strings.IsDigit(t[i])
  }

  /** Exactly the text of `/?v(\d+)/`: an optional leading slash, then a version segment. */
  predicate IsVersionPrefix(s: string)
  {
    IsVersionSegment(s) || (|s| >= 1 && s[0] == '/' && IsVersionSegment(s[1..]))
  }

  // ---------------------------------------------------------------------------
  // The matcher and the rewrite
  // ---------------------------------------------------------------------------

  /** The end of the run of digits that starts at `i` (the greedy `\d+`). */
  function DigitRunEnd(p: string, i: nat): (j: nat)
    requires i <= |p|
    ensures i <= j <= |p|
    ensures forall k :: i <= k < j ==> Strings.IsDigit(p[k])
    ensures j < |p| ==> !Strings.IsDigit(p[j])
    decreases |p| - i
  {
    if i < |p| && Strings.IsDigit(p[i]) then DigitRunEnd(p, i + 1) else i
  }

  /**
   * The length of the text `^/?v(\d+)/` matches at the start of `p`, if it matches.
   * The optional slash is taken when present; giving it back cannot help, because
   * 'v' would then have to be the slash itself.
   */
  function MatchVersionPrefix(p: string): Option<nat>
  {
    var v := if |p| >= 1 && p[0] == '/' then 1 else 0;
    if v < |p| && p[v] == 'v' then
      var j := DigitRunEnd(p, v + 1);
      if j > v + 1 && j < |p| && p[j] == '/' then Some(j + 1) else None
    else None
  }

  /** The path forwarded upstream: a matched version prefix is replaced by one '/'. */
  function RewritePath(p: string): (r: string)
    ensures MatchVersionPrefix(p).None? ==> r == p
    ensures MatchVersionPrefix(p).Some? ==>
      1 <= |r| <= |p| - 2 && r[0] == '/' && r[1..] == p[|p| - (|r| - 1)..]
  {
    match MatchVersionPrefix(p)
    case Some(k) => if k <= |p| then "/" + p[k..] else p
    case None => p
  }

  /** What the matcher reports is a version prefix of the path. */
  lemma MatchSound(p: string)
    requires MatchVersionPrefix(p).Some?
    ensures MatchVersionPrefix(p).value <= |p|
    ensures IsVersionPrefix(p[..MatchVersionPrefix(p).value])
  {
    var k := MatchVersionPrefix(p).value;
    var s := p[..k];
    if |p| >= 1 && p[0] == '/' {
      assert s[1..] == p[1..k];
      assert IsVersionSegment(s[1..]);
    } else {
      assert IsVersionSegment(s);
    }
  }

  /** Every version prefix of the path is the one the matcher finds: there is never a second. */
  lemma MatchComplete(p: string, k: nat)
    requires k <= |p| && IsVersionPrefix(p[..k])
    ensures MatchVersionPrefix(p) == Some(k)
  {
    var s := p[..k];
    var v := if |p| >= 1 && p[0] == '/' then 1 else 0;
    if IsVersionSegment(s) {
      // the segment starts with 'v', so the path does not start with '/'
      assert p[0] == s[0] == 'v';
      assert v == 0;
    } else {
      assert p[0] == s[0] == '/';
      assert v == 1;
      assert IsVersionSegment(s[1..]);
      assert forall i :: 1 <= i < k ==> s[1..][i - 1] == p[i];
    }
    assert p[v] == 'v';
    var j := DigitRunEnd(p, v + 1);
    // the digits of the prefix run up to its closing '/', which is not a digit
    assert forall i :: v + 1 <= i < k - 1 ==> Strings.IsDigit(p[i]);
    assert p[k - 1] == '/' && !Strings.IsDigit(p[k - 1]);
    DigitRunEndIs(p, v + 1, k - 1);
    assert j == k - 1;
  }

  lemma {:induction false} DigitRunEndIs(p: string, i: nat, e: nat)
    requires i <= e < |p|
    requires forall k :: i <= k < e ==> Strings.IsDigit(p[k])
    requires !Strings.IsDigit(p[e])
    ensures DigitRunEnd(p, i) == e
    decreases e - i
  {
    if i < e {
      DigitRunEndIs(p, i + 1, e);
    }
  }

  /** A path that begins with a version prefix is forwarded as '/' and the rest, once. */
  lemma RewriteStripsPrefix(p: string, k: nat)
    requires k <= |p| && IsVersionPrefix(p[..k])
    ensures RewritePath(p) == "/" + p[k..]
  {
    MatchComplete(p, k);
  }

  /** A path that begins with no version prefix is forwarded as it is. */
  lemma RewriteKeepsOtherPaths(p: string)
    requires forall k :: 0 <= k <= |p| ==> !IsVersionPrefix(p[..k])
    ensures RewritePath(p) == p
  {
    if MatchVersionPrefix(p).Some? {
      MatchSound(p);
      assert false;
    }
  }

  /** Only the first version segment is replaced: "/v6/v7/x" becomes "/v7/x". */
  lemma RewriteOnlyOnce()
    ensures RewritePath("/v6/v7/x") == "/v7/x"
  {
    var p := "/v6/v7/x";
    assert p[..4] == "/v6/" && IsVersionSegment(p[..4][1..]);
    RewriteStripsPrefix(p, 4);
    assert p[4..] == "v7/x";
  }

  /** A 'v' without digits, or digits without the closing '/', is not a version prefix. */
  lemma RewriteNeedsDigitsAndSlash()
    ensures RewritePath("/v/x") == "/v/x"
    ensures RewritePath("/v6") == "/v6"
  {
    var a := "/v/x";
    assert DigitRunEnd(a, 2) == 2;
    var b := "/v6";
    assert DigitRunEnd(b, 3) == 3;
    assert DigitRunEnd(b, 2) == 3;
  }

  // ---------------------------------------------------------------------------
  // Routing of create_proxy_app
  // ---------------------------------------------------------------------------

  datatype Handler = WebSocketHandler | WebHandler

  /** The route prefixes served by the WebSocket bridge; everything else is relayed as HTTP. */
  predicate IsWebSocketPath(path: string)
  {
    (|path| >= 8 && path[..8] == "/stream/") || (|path| >= 9 && path[..9] == "/wsproxy/")
  }

  /**
   * The handler the application's router picks. Routes are tried in order; a route
   * whose path matches but whose method does not is passed over, so only a GET under
   * /stream/ or /wsproxy/ reaches the WebSocket bridge, and every other request
   * (any method) falls through to the catch-all HTTP relay.
   */
  function Route(httpMethod: string, path: string): (h: Handler)
    ensures h == WebSocketHandler <==> httpMethod == "GET" && IsWebSocketPath(path)
  {
    if httpMethod == "GET" && |path| >= 8 && path[..8] == "/stream/" then WebSocketHandler
    else if httpMethod == "GET" && |path| >= 9 && path[..9] == "/wsproxy/" then WebSocketHandler
    else WebHandler
  }

  /** The paths the WebSocket bridge serves never carry a version prefix, so the rewrite keeps them. */
  lemma WebSocketPathsAreNotRewritten(path: string)
    requires IsWebSocketPath(path)
    ensures RewritePath(path) == path
  {
    assert path[1] == 's' || path[1] == 'w';
    forall k | 0 <= k <= |path| ensures !IsVersionPrefix(path[..k]) {
      if k >= 1 {
        assert path[..k][0] == '/';
        if k >= 2 {
          assert path[..k][1..][0] == path[1];
        }
      }
    }
    RewriteKeepsOtherPaths(path);
  }
}
