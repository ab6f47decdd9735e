/**
 * The fixed-window rate limiter: one request window per client address, a
 * limit of 10 for authentication paths and 100 for every other path, and a
 * 429 reply that stops the filter chain. The clock is a parameter.
 */
module RateLimitingFilter {
  import opened Wrappers
  import opened Text

  const MaxRequestsPerMinute: int := 100
  const MaxAuthRequestsPerMinute: int := 10
  const WindowSizeMillis: int := 60000
  const TooManyRequests: int := 429
  const JsonContentType: string := "application/json"
  const RateLimitBody: string := "{\"error\":\"Rate limit exceeded. Please try again later.\"}"

  /** `isAuthEndpoint`: a non-null path naming an authentication, login or registration route. */
  predicate IsAuthEndpoint(path: Option<string>)
  {
    path.Some? && (Contains(path.value, "/auth/") || Contains(path.value, "/login")
      || Contains(path.value, "/register"))
  }

  /** The limit `doFilterInternal` picks for a path. */
  function LimitFor(path: Option<string>): (r: int)
    ensures r == MaxAuthRequestsPerMinute <==> IsAuthEndpoint(path)
    ensures r == MaxRequestsPerMinute <==> !IsAuthEndpoint(path)
  {
    if IsAuthEndpoint(path) then MaxAuthRequestsPerMinute else MaxRequestsPerMinute
  }

  /** A login path is an authentication endpoint. */
  lemma AuthPathLimit()
    ensures LimitFor(Some("/api/v1/auth/login")) == MaxAuthRequestsPerMinute
  {
    ContainsAt("/api/v1/auth/login", "/auth/", 7);
  }

  /** A missing path, or one without a slash, gets the general limit. */
  lemma OtherPathLimit(path: string)
    requires '/' !in path
    ensures LimitFor(Some(path)) == MaxRequestsPerMinute
    ensures LimitFor(None) == MaxRequestsPerMinute
  {
    assert "/auth/"[0] == '/' && "/login"[0] == '/' && "/register"[0] == '/';
    NotContains(path, "/auth/", '/');
    NotContains(path, "/login", '/');
    NotContains(path, "/register", '/');
  }

  // ---------------------------------------------------------------------------
  // One client's window as a value

  datatype Window = Window(start: int, count: int)

  /** The window a request at `now` is counted in, after `computeIfAbsent` and the expiry check. */
  function Current(w: Option<Window>, now: int): Window
  {
    match w
    case None => Window(now, 0)
    case Some(v) => if now - v.start > WindowSizeMillis then Window(now, 0) else v
  }

  /** `isRequestAllowed` on one window: the window afterwards and the verdict. */
  function Admit(w: Option<Window>, limit: int, now: int): (Window, bool)
  {
    var c := Current(w, now);
    if c.count >= limit then (c, false) else (c.(count := c.count + 1), true)
  }

  /** A request is allowed exactly when its window holds fewer than `limit`; allowing counts it. */
  lemma AdmitMeaning(w: Option<Window>, limit: int, now: int)
    ensures Admit(w, limit, now).1 <==> Current(w, now).count < limit
    ensures Admit(w, limit, now).0.start == Current(w, now).start
    ensures Admit(w, limit, now).0.count
      == Current(w, now).count + (if Admit(w, limit, now).1 then 1 else 0)
  {
  }

  /** The window is renewed only when strictly more than a minute has passed. */
  lemma ResetIsStrict(w: Window, now: int)
    ensures now - w.start <= WindowSizeMillis ==> Current(Some(w), now) == w
    ensures now - w.start > WindowSizeMillis ==> Current(Some(w), now) == Window(now, 0)
  {
  }

  /** With every limit at most `bound`, a count within `bound` stays within it. */
  lemma AdmitBounded(w: Option<Window>, limit: int, now: int, bound: int)
    requires limit <= bound && 0 <= bound
    requires w.Some? ==> 0 <= w.value.count <= bound
    ensures 0 <= Admit(w, limit, now).0.count <= bound
  {
  }

  /**
   * The counter is kept per address only: once an address has used ten
   * requests of its current window on any paths, an authentication request is
   * refused.
   */
  lemma SharedCounter(w: Option<Window>, path: Option<string>, now: int)
    requires IsAuthEndpoint(path) && Current(w, now).count >= MaxAuthRequestsPerMinute
    ensures !Admit(w, LimitFor(path), now).1
  {
  }

  /** A run of requests `(limit, now)` from one address: the last window and how many were allowed. */
  function Run(w: Option<Window>, reqs: seq<(int, int)>): (Option<Window>, nat)
    decreases |reqs|
  {
    if reqs == [] then (w, 0)
    else
      var (w1, ok) := Admit(w, reqs[0].0, reqs[0].1);
      var (wn, n) := Run(Some(w1), reqs[1..]);
      (wn, n + if ok then 1 else 0)
  }

  /**
   * Within one window no more requests are allowed than the largest limit
   * minus those already counted, whatever mix of authentication and other
   * paths they address.
   */
  lemma {:induction false} RunAllowsAtMost(w: Window, reqs: seq<(int, int)>, m: int)
    requires forall k :: 0 <= k < |reqs| ==> reqs[k].0 <= m && reqs[k].1 - w.start <= WindowSizeMillis
    ensures Run(Some(w), reqs).1 <= if m - w.count < 0 then 0 else m - w.count
    decreases |reqs|
  {
    if reqs != [] {
      var (w1, ok) := Admit(Some(w), reqs[0].0, reqs[0].1);
      assert w1.start == w.start;
      RunAllowsAtMost(w1, reqs[1..], m);
    }
  }

  // ---------------------------------------------------------------------------
  // Client address

  /** Java `s.split(",")`: the pieces with every trailing empty piece removed. */
  function JavaSplit(s: string, sep: char): seq<string>
  {
    if s == [] then [[]] else DropTrailingEmpty(Split(s, sep))
  }

  function DropTrailingEmpty(p: seq<string>): (r: seq<string>)
    ensures |r| <= |p| && r == p[..|r|]
    ensures r == [] <==> forall i :: 0 <= i < |p| ==> p[i] == []
  {
    if p == [] then []
    else if p[|p| - 1] == [] then
      var r := DropTrailingEmpty(p[..|p| - 1]);
      assert forall i :: 0 <= i < |p| - 1 ==> p[..|p| - 1][i] == p[i];
      r
    else p
  }

  lemma {:induction false} SplitAllEmpty(s: string, sep: char)
    ensures (forall i :: 0 <= i < |Split(s, sep)| ==> Split(s, sep)[i] == [])
      <==> (forall k :: 0 <= k < |s| ==> s[k] == sep)
  {
    if s != [] {
      var rest := Split(s[1..], sep);
      SplitAllEmpty(s[1..], sep);
      if s[0] == sep {
        var r := Split(s, sep);
        assert r == [[]] + rest;
        if forall k :: 0 <= k < |s| ==> s[k] == sep {
          assert forall k :: 0 <= k < |s[1..]| ==> s[1..][k] == sep by {
            forall k | 0 <= k < |s[1..]| ensures s[1..][k] == sep { assert s[1..][k] == s[k + 1]; }
          }
          forall i | 0 <= i < |r| ensures r[i] == [] {
            if i > 0 { assert r[i] == rest[i - 1]; }
          }
        }
        if forall i :: 0 <= i < |r| ==> r[i] == [] {
          assert forall i :: 0 <= i < |rest| ==> rest[i] == [] by {
            forall i | 0 <= i < |rest| ensures rest[i] == [] { assert rest[i] == r[i + 1]; }
          }
          forall k | 0 <= k < |s| ensures s[k] == sep {
            if k > 0 { assert s[k] == s[1..][k - 1]; }
          }
        }
      } else {
        assert Split(s, sep)[0] != [];
      }
    }
  }

  /** Splitting a non-empty header leaves no piece exactly when it is made of commas alone. */
  lemma JavaSplitEmpty(s: string, sep: char)
    ensures JavaSplit(s, sep) == [] <==> s != [] && forall k :: 0 <= k < |s| ==> s[k] == sep
  {
    if s != [] {
      assert JavaSplit(s, sep) == DropTrailingEmpty(Split(s, sep));
      SplitAllEmpty(s, sep);
    }
  }

  /** When a first piece exists, it is the text before the first separator. */
  lemma JavaSplitHead(s: string, sep: char)
    requires JavaSplit(s, sep) != []
    ensures JavaSplit(s, sep)[0] == s[..IndexOf(s, sep)]
  {
    if s != [] {
      SplitHead(s, sep);
    }
  }

  /** `getClientIpAddress` as written: `None` is the index error of `split(",")[0]`. */
  function ClientIpAsWritten(forwardedFor: Option<string>, realIp: Option<string>, remoteAddr: string): Option<string>
  {
    if forwardedFor.Some? && forwardedFor.value != [] then
      var parts := JavaSplit(forwardedFor.value, ',');
      if parts == [] then None else Some(JavaTrim(parts[0]))
    else if realIp.Some? && realIp.value != [] then Some(realIp.value)
    else Some(remoteAddr)
  }

  /** A header of commas alone makes the address lookup fail. */
  lemma ClientIpAsWrittenFails()
    ensures ClientIpAsWritten(Some(","), Some("10.0.0.1"), "127.0.0.1").None?
  {
    var s := ",";
    assert forall k :: 0 <= k < |s| ==> s[k] == ',';
    JavaSplitEmpty(s, ',');
    assert JavaSplit(s, ',') == [];
  }

  /**
   * The client address: the trimmed text before the first comma of a
   * non-empty X-Forwarded-For, else a non-empty X-Real-IP, else the remote
   * address.
   */
  function ClientIp(forwardedFor: Option<string>, realIp: Option<string>, remoteAddr: string): (r: string)
    ensures forwardedFor.Some? && forwardedFor.value != [] ==>
      r == JavaTrim(forwardedFor.value[..IndexOf(forwardedFor.value, ',')])
    ensures (forwardedFor.None? || forwardedFor.value == []) && realIp.Some? && realIp.value != [] ==>
      r == realIp.value
    ensures (forwardedFor.None? || forwardedFor.value == []) && (realIp.None? || realIp.value == []) ==>
      r == remoteAddr
  {
    if forwardedFor.Some? && forwardedFor.value != [] then
      JavaTrim(forwardedFor.value[..IndexOf(forwardedFor.value, ',')])
    else if realIp.Some? && realIp.value != [] then realIp.value
    else remoteAddr
  }

  /** Wherever the code as written yields an address, it is the one `ClientIp` gives. */
  lemma ClientIpAgrees(forwardedFor: Option<string>, realIp: Option<string>, remoteAddr: string)
    ensures ClientIpAsWritten(forwardedFor, realIp, remoteAddr).Some? ==>
      ClientIpAsWritten(forwardedFor, realIp, remoteAddr).value == ClientIp(forwardedFor, realIp, remoteAddr)
    ensures ClientIpAsWritten(forwardedFor, realIp, remoteAddr).None? <==>
      (forwardedFor.Some? && forwardedFor.value != [] && forall k :: 0 <= k < |forwardedFor.value| ==> forwardedFor.value[k] == ',')
  {
    if forwardedFor.Some? && forwardedFor.value != [] {
      JavaSplitEmpty(forwardedFor.value, ',');
      if JavaSplit(forwardedFor.value, ',') != [] {
        JavaSplitHead(forwardedFor.value, ',');
      }
    }
  }

  // ---------------------------------------------------------------------------
  // The filter

  datatype Request = Request(forwardedFor: Option<string>, realIp: Option<string>, remoteAddr: string, uri: Option<string>)

  /** What the filter does with a request: pass it down the chain, or answer 429 itself. */
  datatype Outcome = Continue | Reject(status: int, contentType: string, body: string)

  /** `RequestWindow`: a start time and a counter, both changed in place. */
  class RequestWindow {
    var windowStart: int
    var requestCount: int

    constructor (start: int)
      ensures windowStart == start && requestCount == 0
    {
      windowStart, requestCount := start, 0;
    }

    method Reset(newStart: int)
      modifies this
      ensures windowStart == newStart && requestCount == 0
    {
      windowStart, requestCount := newStart, 0;
    }

    method IncrementAndGet() returns (n: int)
      modifies this
      ensures windowStart == old(windowStart) && requestCount == old(requestCount) + 1 && n == requestCount
    {
      requestCount := requestCount + 1;
      n := requestCount;
    }

    function Value(): Window
      reads this
    {
      Window(windowStart, requestCount)
    }
  }

  class Limiter {
    var requestCounts: map<string, RequestWindow>

    /** Each address has its own window object, and no count exceeds 100. */
    ghost predicate Valid()
      reads this, requestCounts.Values
    {
      (forall a, b :: a in requestCounts && b in requestCounts && a != b ==> requestCounts[a] != requestCounts[b])
      && forall ip :: ip in requestCounts ==> 0 <= requestCounts[ip].requestCount <= MaxRequestsPerMinute
    }

    /** The windows as values, by address. */
    ghost function Windows(): map<string, Window>
      reads this, requestCounts.Values
    {
      map ip | ip in requestCounts :: requestCounts[ip].Value()
    }

    constructor ()
      ensures Valid() && requestCounts == map[]
    {
      requestCounts := map[];
    }

    /** `computeIfAbsent`: the address's window, created at `now` when it has none. */
    method WindowOf(ip: string, now: int) returns (window: RequestWindow)
      requires Valid()
      modifies this
      ensures Valid() && ip in requestCounts && requestCounts[ip] == window
      ensures ip in old(requestCounts) ==> requestCounts == old(requestCounts)
      ensures ip !in old(requestCounts) ==> fresh(window) && window.Value() == Window(now, 0)
      ensures Windows() == old(Windows())[ip := window.Value()]
    {
      if ip in requestCounts {
        window := requestCounts[ip];
      } else {
        window := new RequestWindow(now);
        requestCounts := requestCounts[ip := window];
      }
    }

    /** The expiry check and the count on the address's own window; no other window changes. */
    method CountIn(ip: string, window: RequestWindow, maxRequests: int, now: int) returns (allowed: bool)
      requires Valid() && 0 <= maxRequests <= MaxRequestsPerMinute
      requires ip in requestCounts && requestCounts[ip] == window
      modifies window
      ensures Valid()
      ensures allowed == Admit(Some(old(window.Value())), maxRequests, now).1
      ensures Windows() == old(Windows())[ip := Admit(Some(old(window.Value())), maxRequests, now).0]
    {
      ghost var before := Windows();
      ghost var w := Some(window.Value());
      assert forall k :: k in requestCounts && k != ip ==> requestCounts[k] != window;
      if now - window.windowStart > WindowSizeMillis {
        window.Reset(now);
      }
      if window.requestCount >= maxRequests {
        allowed := false;
      } else {
        var _ := window.IncrementAndGet();
        allowed := true;
      }
      AdmitBounded(w, maxRequests, now, MaxRequestsPerMinute);
      assert window.Value() == Admit(w, maxRequests, now).0;
      assert Windows() == before[ip := Admit(w, maxRequests, now).0];
    }

    /** `isRequestAllowed`: the address's window alone is updated, as `Admit` says. */
    method IsRequestAllowed(ip: string, maxRequests: int, now: int) returns (allowed: bool)
      requires Valid() && 0 <= maxRequests <= MaxRequestsPerMinute
      modifies this, requestCounts.Values
      ensures Valid()
      ensures var w := if ip in old(Windows()) then Some(old(Windows())[ip]) else None;
        allowed == Admit(w, maxRequests, now).1
        && Windows() == old(Windows())[ip := Admit(w, maxRequests, now).0]
    {
      ghost var w := if ip in Windows() then Some(Windows()[ip]) else None;
      var window := WindowOf(ip, now);
      ghost var w' := Some(window.Value());
      assert Admit(w', maxRequests, now) == Admit(w, maxRequests, now);
      allowed := CountIn(ip, window, maxRequests, now);
    }

    /** `doFilterInternal`: a refused request is answered with 429 and goes no further. */
    method DoFilter(request: Request, now: int) returns (outcome: Outcome)
      requires Valid()
      modifies this, requestCounts.Values
      ensures Valid()
      ensures var ip := ClientIp(request.forwardedFor, request.realIp, request.remoteAddr);
        var w := if ip in old(Windows()) then Some(old(Windows())[ip]) else None;
        var (after, ok) := Admit(w, LimitFor(request.uri), now);
        Windows() == old(Windows())[ip := after]
        && (ok ==> outcome == Continue)
        && (!ok ==> outcome == Reject(TooManyRequests, JsonContentType, RateLimitBody))
    {
      var ip := ClientIp(request.forwardedFor, request.realIp, request.remoteAddr);
      var maxRequests := LimitFor(request.uri);
      var allowed := IsRequestAllowed(ip, maxRequests, now);
      if !allowed {
        return Reject(TooManyRequests, JsonContentType, RateLimitBody);
      }
      outcome := Continue;
    }
  }
}
