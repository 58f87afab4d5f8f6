/**
 * API sessions (`session.py`): the choice of API version when a session is
 * entered, the legacy-server test, and the open/closed life cycle of the
 * synchronous `Session` (whose work goes through a worker thread's queue) and
 * of `AsyncSession`.
 */
module Sessions {
  import opened Common
  import Strings

  // ---------------------------------------------------------------------------
  // API versions: (major, date) pairs under Python's tuple ordering
  // ---------------------------------------------------------------------------

  /** What `parse_api_version` yields, e.g. (4, "20190315") for "v4.20190315". */
  datatype ApiVersion = ApiVersion(major: int, date: string)

  /** Python's `<` on (int, str) tuples: by major number, then by the date text. */
  predicate VersionLess(a: ApiVersion, b: ApiVersion)
  {
    a.major < b.major || (a.major == b.major && Strings.Less(a.date, b.date))
  }

  predicate VersionLessEq(a: ApiVersion, b: ApiVersion)
  {
    a == b || VersionLess(a, b)
  }

  lemma VersionLessIrreflexive(a: ApiVersion)
    ensures !VersionLess(a, a)
  {
    Strings.LessIrreflexive(a.date);
  }

  lemma VersionLessTransitive(a: ApiVersion, b: ApiVersion, c: ApiVersion)
    requires VersionLess(a, b) && VersionLess(b, c)
    ensures VersionLess(a, c)
  {
    if a.major == b.major && b.major == c.major {
      Strings.LessTransitive(a.date, b.date, c.date);
    }
  }

  lemma VersionLessAsymmetric(a: ApiVersion, b: ApiVersion)
    requires VersionLess(a, b)
    ensures !VersionLess(b, a)
  {
    if a.major == b.major {
      Strings.LessAsymmetric(a.date, b.date);
    }
  }

  /** Two different versions are always ordered one way or the other. */
  lemma VersionLessTotal(a: ApiVersion, b: ApiVersion)
    requires a != b
    ensures VersionLess(a, b) || VersionLess(b, a)
  {
    if a.major == b.major {
      Strings.LessTotal(a.date, b.date);
    }
  }

  /** Python's `min(a, b)`: `a` unless `b` is strictly smaller. */
  function Min(a: ApiVersion, b: ApiVersion): (r: ApiVersion)
    ensures r == a || r == b
    ensures VersionLessEq(r, a) && VersionLessEq(r, b)
  {
    if VersionLess(b, a) then b
    else if a == b then a
    else VersionLessTotal(a, b); a
  }

  /** The minimum does not depend on the order of the arguments. */
  lemma MinSymmetric(a: ApiVersion, b: ApiVersion)
    ensures Min(a, b) == Min(b, a)
  {
    if VersionLess(b, a) {
      VersionLessAsymmetric(b, a);
    } else if VersionLess(a, b) {
      VersionLessAsymmetric(a, b);
    } else if a != b {
      VersionLessTotal(a, b);
    }
  }

  // ---------------------------------------------------------------------------
  // _negotiate_api_version
  // ---------------------------------------------------------------------------

  /**
   * How the version probe ended: the server answered with its (parsed) version; the
   * request timed out; it failed with an aiohttp client error (which includes an
   * HTTP error status); or something else was raised (a missing 'version' key, say).
   */
  datatype ProbeOutcome =
    | Answered(server: ApiVersion)
    | TimedOut
    | ClientFailure
    | OtherFailure(error: PyError)

  /** The negotiated version, and whether the "server is newer" warning was issued. */
  datatype Negotiated = Negotiated(version: ApiVersion, warned: bool)

  /**
   * `_negotiate_api_version`: the lower of the server's and the client's versions,
   * warning when the server's is higher; the client's version when the probe timed
   * out or failed as a client error; any other failure propagates.
   */
  function Negotiate(client: ApiVersion, probe: ProbeOutcome): (r: Outcome<Negotiated>)
    ensures probe.Answered? ==> r.Done? && r.value.version == Min(probe.server, client)
    ensures probe.Answered? ==> (r.value.warned <==> VersionLess(client, probe.server))
    ensures (probe.TimedOut? || probe.ClientFailure?) ==> r == Done(Negotiated(client, false))
    ensures probe.OtherFailure? ==> r == Raised(probe.error)
  {
    match probe
    case Answered(server) => Done(Negotiated(Min(server, client), VersionLess(client, server)))
    case TimedOut => Done(Negotiated(client, false))
    case ClientFailure => Done(Negotiated(client, false))
    case OtherFailure(e) => Raised(e)
  }

  /** The session never uses a version newer than the client's, and never one newer than the server's. */
  lemma NegotiatedNotNewer(client: ApiVersion, probe: ProbeOutcome)
    requires Negotiate(client, probe).Done?
    ensures VersionLessEq(Negotiate(client, probe).value.version, client)
    ensures probe.Answered? ==> VersionLessEq(Negotiate(client, probe).value.version, probe.server)
  {
  }

  /** The warning is issued exactly when the negotiated version is below the server's. */
  lemma WarnedIffDowngraded(client: ApiVersion, server: ApiVersion)
    ensures var r := Negotiate(client, Answered(server)).value;
      r.warned <==> r.version != server
  {
    if VersionLess(client, server) {
      VersionLessIrreflexive(server);
      VersionLessAsymmetric(client, server);
    } else if server != client {
      VersionLessTotal(client, server);
    }
  }

  /** The URL probed for the server's version: `endpoint / 'func/'` for a session endpoint, the endpoint itself otherwise. */
  function ProbeUrl(endpoint: string, endpointType: string, div: (string, string) -> string): (r: string)
    ensures endpointType == "session" ==> r == div(endpoint, "func/")
    ensures endpointType != "session" ==> r == endpoint
  {
    if endpointType == "session" then div(endpoint, "func/") else endpoint
  }

  // ---------------------------------------------------------------------------
  // is_legacy_server
  // ---------------------------------------------------------------------------

  const LegacyBound := "v4.20181215"

  /** `is_legacy_server` as written: the version text compared with "v4.20181215" as a string. */
  predicate IsLegacyText(version: string): (r: bool)
    ensures version == LegacyBound ==> r
    ensures |version| >= 2 && version[0] == 'v' && '0' <= version[1] < '4' ==> r
    ensures |version| >= 2 && version[0] == 'v' && '4' < version[1] <= '9' ==> !r
  {
    assert |version| >= 2 && version[0] == 'v' ==>
      version[1..][0] == version[1] && LegacyBound[1..][0] == '4';
    assert |version| >= 2 && version[0] == 'v' && version[1] < '4' ==>
      Strings.DiffersAt(version, LegacyBound, 1);
    Strings.LessEq(version, LegacyBound)
  }

  /** Every version text at or below a legacy one is legacy too. */
  lemma LegacyTextDownwardClosed(v: string, w: string)
    requires IsLegacyText(v) && Strings.LessEq(w, v)
    ensures IsLegacyText(w)
  {
    Strings.LessEqTransitive(w, v, LegacyBound);
  }

  /** The string comparison counts a two-digit major version as older: "v10.20200101" is legacy. */
  lemma LegacyTextMisordersMajorTen()
    ensures IsLegacyText("v10.20200101")
    ensures !IsLegacyText("v5.20191215")
  {
    var a := "v10.20200101";
    assert a[1..][0] == '1' && LegacyBound[1..][0] == '4';
    assert Strings.Less(a[1..], LegacyBound[1..]);
    var b := "v5.20191215";
    assert b[1..][0] == '5';
    assert Strings.Less(LegacyBound[1..], b[1..]);
    Strings.LessAsymmetric(LegacyBound, b);
  }

  /** The legacy test on parsed versions: at or below (4, "20181215") under tuple ordering. */
  predicate IsLegacy(v: ApiVersion)
  {
    VersionLessEq(v, ApiVersion(4, "20181215"))
  }

  /** On parsed versions every higher major number is not legacy, and the order is respected. */
  lemma LegacyByMajor(v: ApiVersion, w: ApiVersion)
    ensures v.major > 4 ==> !IsLegacy(v)
    ensures v.major < 4 ==> IsLegacy(v)
    ensures IsLegacy(v) && VersionLessEq(w, v) ==> IsLegacy(w)
  {
    if IsLegacy(v) && VersionLessEq(w, v) && w != v && v != ApiVersion(4, "20181215") {
      VersionLessTransitive(w, v, ApiVersion(4, "20181215"));
    }
  }

  // ---------------------------------------------------------------------------
  // Session: the synchronous session and its worker thread's queue
  // ---------------------------------------------------------------------------

  /** The items put on the worker thread's work queue. */
  datatype Work = CreateHttpSession | NegotiateVersion | CloseHttpSession | Sentinel

  class SyncSession {
    var closed: bool
    /** Everything put on the work queue, in order. */
    var workQueue: seq<Work>
    var apiVersion: Option<ApiVersion>

    /** The sentinel is queued once the session is closed, last, after the HTTP session's close. */
    ghost predicate Valid()
      reads this
    {
      if closed then
        && |workQueue| >= 2 && workQueue[|workQueue| - 2..] == [CloseHttpSession, Sentinel]
        && Sentinel !in workQueue[..|workQueue| - 1]
      else Sentinel !in workQueue
    }

    /** `Session()`: open, with the creation of the HTTP session queued. */
    constructor ()
      ensures Valid() && !closed && workQueue == [CreateHttpSession] && apiVersion.None?
    {
      closed := false;
      workQueue := [CreateHttpSession];
      apiVersion := None;
    }

    /**
     * `close`: the first call marks the session closed and queues the HTTP session's
     * close, then the sentinel; any later call does nothing.
     */
    method Close()
      requires Valid()
      modifies this
      ensures Valid() && closed
      ensures old(closed) ==> workQueue == old(workQueue)
      ensures !old(closed) ==> workQueue == old(workQueue) + [CloseHttpSession, Sentinel]
      ensures apiVersion == old(apiVersion)
    {
      if closed {
        return;
      }
      closed := true;
      workQueue := workQueue + [CloseHttpSession, Sentinel];
      assert workQueue[..|workQueue| - 1] == old(workQueue) + [CloseHttpSession];
    }

    /**
     * `__enter__`: a closed session cannot be reused (AssertionError); otherwise the
     * negotiation runs on the worker thread and its result becomes `api_version`, or
     * its exception is raised again. The result says whether the version warning was issued.
     */
    method Enter(client: ApiVersion, probe: ProbeOutcome) returns (r: Outcome<bool>)
      requires Valid()
      modifies this
      ensures Valid() && closed == old(closed)
      ensures old(closed) ==> r == Raised(AssertionError("Cannot reuse closed session"))
      ensures old(closed) ==> workQueue == old(workQueue) && apiVersion == old(apiVersion)
      ensures !old(closed) ==> workQueue == old(workQueue) + [NegotiateVersion]
      ensures !old(closed) && Negotiate(client, probe).Done? ==>
        apiVersion == Some(Negotiate(client, probe).value.version) && r == Done(Negotiate(client, probe).value.warned)
      ensures !old(closed) && Negotiate(client, probe).Raised? ==>
        apiVersion == old(apiVersion) && r == Raised(Negotiate(client, probe).error)
    {
      if closed {
        return Raised(AssertionError("Cannot reuse closed session"));
      }
      workQueue := workQueue + [NegotiateVersion];
      var n := Negotiate(client, probe);
      match n
      case Done(v) =>
        apiVersion := Some(v.version);
        r := Done(v.warned);
      case Raised(e) =>
        r := Raised(e);
    }

    /** `__exit__`: closes the session and never suppresses the exception. */
    method Exit() returns (suppress: bool)
      requires Valid()
      modifies this
      ensures Valid() && closed && !suppress
      ensures old(closed) ==> workQueue == old(workQueue)
      ensures !old(closed) ==> workQueue == old(workQueue) + [CloseHttpSession, Sentinel]
    {
      Close();
      suppress := false;
    }
  }

  /**
   * A `with Session()` block followed by a second `with` on the same session. When
   * `__enter__` raises, Python skips `__exit__`: the session stays open and the second
   * `with` negotiates again. Otherwise the block ends by closing the session, the
   * sentinel ends the queue, and the second `with` is refused.
   */
  method WithSession(client: ApiVersion, probe: ProbeOutcome) returns (s: SyncSession, first: Outcome<bool>, again: Outcome<bool>)
    ensures fresh(s) && s.Valid()
    ensures first == (match Negotiate(client, probe) case Done(n) => Done(n.warned) case Raised(e) => Raised(e))
    ensures Negotiate(client, probe).Done? ==>
      && s.closed
      && s.workQueue == [CreateHttpSession, NegotiateVersion, CloseHttpSession, Sentinel]
      && again == Raised(AssertionError("Cannot reuse closed session"))
    ensures Negotiate(client, probe).Raised? ==>
      && !s.closed
      && s.workQueue == [CreateHttpSession, NegotiateVersion, NegotiateVersion]
      && again == first
  {
    s := new SyncSession();
    first := s.Enter(client, probe);
    if first.Done? {
      var _ := s.Exit();
    }
    again := s.Enter(client, probe);
  }

  // ---------------------------------------------------------------------------
  // AsyncSession
  // ---------------------------------------------------------------------------

  class AsyncSession {
    var closed: bool
    /** The underlying aiohttp session has been closed. */
    var httpClosed: bool
    var apiVersion: Option<ApiVersion>

    ghost predicate Valid()
      reads this
    {
      closed == httpClosed
    }

    constructor ()
      ensures Valid() && !closed && apiVersion.None?
    {
      closed := false;
      httpClosed := false;
      apiVersion := None;
    }

    /** `close`: the first call marks the session closed and closes the HTTP session; later calls do nothing. */
    method Close()
      requires Valid()
      modifies this
      ensures Valid() && closed && httpClosed
      ensures apiVersion == old(apiVersion)
    {
      if closed {
        return;
      }
      closed := true;
      httpClosed := true;
    }

    /** `__aenter__`: as `Session.__enter__`, with the negotiation awaited directly. */
    method Enter(client: ApiVersion, probe: ProbeOutcome) returns (r: Outcome<bool>)
      requires Valid()
      modifies this
      ensures Valid() && closed == old(closed)
      ensures old(closed) ==> r == Raised(AssertionError("Cannot reuse closed session")) && apiVersion == old(apiVersion)
      ensures !old(closed) && Negotiate(client, probe).Done? ==>
        apiVersion == Some(Negotiate(client, probe).value.version) && r == Done(Negotiate(client, probe).value.warned)
      ensures !old(closed) && Negotiate(client, probe).Raised? ==>
        apiVersion == old(apiVersion) && r == Raised(Negotiate(client, probe).error)
    {
      if closed {
        return Raised(AssertionError("Cannot reuse closed session"));
      }
      var n := Negotiate(client, probe);
      match n
      case Done(v) =>
        apiVersion := Some(v.version);
        r := Done(v.warned);
      case Raised(e) =>
        r := Raised(e);
    }

    /** `__aexit__`: closes the session and never suppresses the exception. */
    method Exit() returns (suppress: bool)
      requires Valid()
      modifies this
      ensures Valid() && closed && !suppress
    {
      Close();
      suppress := false;
    }
  }
}
