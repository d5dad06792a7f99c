/** Per-session routing (internal/controller/ingress.go) under Kubernetes Ingress Prefix
    matching, and the Traefik middleware that strips a session's prefix. */
module Routes {
  import opened Wrappers

  const APPS := ["vscode", "terminal"]

  function SessionPath(sessionId: string, app: string): string {
    "/sessions/" + sessionId + "/" + app
  }

  predicate SlashFree(s: string) {
    '/' !in s
  }

  predicate GoodId(id: string) {
    id != "" && SlashFree(id)
  }

  // ---------------------------------------------------------------- Prefix matching

  /** The length of the slash-free prefix. */
  function SegmentLength(s: string): (n: nat)
    ensures n <= |s| && SlashFree(s[..n]) && (n < |s| ==> s[n] == '/')
  {
    if s == "" || s[0] == '/' then 0
    else
      var n := SegmentLength(s[1..]);
      assert s[..n + 1] == [s[0]] + s[1..][..n];
      n + 1
  }

  /** The path elements between slashes. */
  function Elements(s: string): seq<string>
    decreases |s|
  {
    var n := SegmentLength(s);
    if n == |s| then [s] else [s[..n]] + Elements(s[n + 1..])
  }

  function Join(elements: seq<string>): string
    requires elements != []
  {
    if |elements| == 1 then elements[0] else elements[0] + ("/" + Join(elements[1..]))
  }

  /** They hold no slash and make up the path again. */
  lemma {:induction false} ElementsJoin(s: string)
    ensures Elements(s) != [] && Join(Elements(s)) == s && forall e :: e in Elements(s) ==> SlashFree(e)
    decreases |s|
  {
    var n := SegmentLength(s);
    if n == |s| {
      assert s[..n] == s;
    } else {
      var rest := s[n + 1..];
      ElementsJoin(rest);
      JoinFirst(s[..n], Elements(rest));
      Cut(s, n);
    }
  }

  lemma JoinFirst(e: string, more: seq<string>)
    requires more != []
    ensures Join([e] + more) == e + ("/" + Join(more))
  {
    assert ([e] + more)[1..] == more;
  }

  lemma Cut(s: string, n: nat)
    requires n < |s| && s[n] == '/'
    ensures s == s[..n] + ("/" + s[n + 1..])
  {
  }

  /** pathType Prefix: the route's elements are a prefix of the request's. */
  predicate Matches(route: string, request: string) {
    Elements(route) <= Elements(request)
  }

  lemma {:induction false} SegmentThen(segment: string, rest: string)
    requires SlashFree(segment) && (rest == "" || rest[0] == '/')
    ensures SegmentLength(segment + rest) == |segment|
    ensures (segment + rest)[|segment|..] == rest && (segment + rest)[..|segment|] == segment
  {
    if segment == "" {
      assert segment + rest == rest;
    } else {
      SegmentThen(segment[1..], rest);
      assert (segment + rest)[1..] == segment[1..] + rest;
    }
  }

  lemma FirstElement(segment: string, rest: string)
    requires SlashFree(segment)
    ensures Elements(segment + ("/" + rest)) == [segment] + Elements(rest)
  {
    var s := segment + ("/" + rest);
    SegmentThen(segment, "/" + rest);
    assert s[|segment| + 1..] == rest;
  }

  lemma OneElement(segment: string)
    requires SlashFree(segment)
    ensures Elements(segment) == [segment]
  {
    SegmentThen(segment, "");
    assert segment + "" == segment;
  }

  function Join4(a: string, b: string, c: string, d: string): string {
    a + ("/" + (b + ("/" + (c + ("/" + d)))))
  }

  lemma FourElements(a: string, b: string, c: string, d: string)
    requires SlashFree(a) && SlashFree(b) && SlashFree(c)
    ensures Elements(Join4(a, b, c, d)) == [a, b, c] + Elements(d)
  {
    FirstElement(c, d);
    FirstElement(b, c + ("/" + d));
    FirstElement(a, b + ("/" + (c + ("/" + d))));
    Prepend3(a, b, c, Elements(d));
  }

  lemma Prepend3(a: string, b: string, c: string, e: seq<string>)
    ensures [a] + ([b] + ([c] + e)) == [a, b, c] + e
  {
  }

  lemma PathShape(id: string, app: string, rest: string)
    ensures SessionPath(id, app) + rest == Join4("", "sessions", id, app + rest)
  {
    assert "/sessions/" == "/" + ("sessions" + "/");
  }

  lemma RouteElements(id: string, app: string)
    requires SlashFree(id) && SlashFree(app)
    ensures Elements(SessionPath(id, app)) == ["", "sessions", id, app]
  {
    PathShape(id, app, "");
    assert SessionPath(id, app) + "" == SessionPath(id, app) && app + "" == app;
    OneElement(app);
    FourElements("", "sessions", id, app);
  }

  lemma AppsSlashFree(app: string)
    requires app in APPS
    ensures SlashFree(app) && app != ""
  {
  }

  /** A request path matches at most one route of all sessions with slash-free IDs. */
  lemma RoutesDisjoint(id: string, app: string, id': string, app': string, request: string)
    requires SlashFree(id) && SlashFree(id') && app in APPS && app' in APPS
    requires Matches(SessionPath(id, app), request) && Matches(SessionPath(id', app'), request)
    ensures id == id' && app == app'
  {
    AppsSlashFree(app);
    AppsSlashFree(app');
    RouteElements(id, app);
    RouteElements(id', app');
    var e := Elements(request);
    assert e[..4] == ["", "sessions", id, app];
    assert e[..4] == ["", "sessions", id', app'];
    assert e[..4][2] == e[2] && e[..4][3] == e[3];
  }

  // ---------------------------------------------------------------- stripping

  const SESSIONS := "/sessions/"

  /** What is left after the match of ^/sessions/[^/]+/[^/]+, or None if there is none. */
  function Strip(path: string): Option<string> {
    if !(SESSIONS <= path) then None
    else
      var rest := path[|SESSIONS|..];
      var n := SegmentLength(rest);
      if n == 0 || n == |rest| then None
      else
        var afterId := rest[n + 1..];
        var m := SegmentLength(afterId);
        if m == 0 then None else Some(afterId[m..])
  }

  /** A path under a session route: the route itself, or the route, a slash and more. */
  lemma StripRoute(id: string, app: string, rest: string)
    requires SlashFree(id) && SlashFree(app) && app != "" && (rest == "" || rest[0] == '/')
    ensures Strip(SessionPath(id, app) + rest) == Some(rest) <==> id != ""
  {
    var path := SessionPath(id, app) + rest;
    var tail := "/" + (app + rest);
    assert path == SESSIONS + (id + tail);
    assert path[|SESSIONS|..] == id + tail;
    SegmentThen(id, tail);
    SegmentThen(app, rest);
    assert (id + tail)[|id| + 1..] == app + rest;
  }

  /** The middleware strips a path exactly if it is /sessions/, a non-empty ID, a slash, a
      non-empty app and then the end or another slash; what is left starts there. */
  lemma StripSplits(path: string) returns (id: string, app: string, rest: string)
    ensures Strip(path).Some? ==>
              && GoodId(id) && app != "" && SlashFree(app) && (rest == "" || rest[0] == '/')
              && path == "/sessions/" + (id + ("/" + (app + rest))) && Strip(path) == Some(rest)
  {
    id, app, rest := "", "", "";
    if Strip(path).Some? {
      var tail := path[|SESSIONS|..];
      var n := SegmentLength(tail);
      var afterId := tail[n + 1..];
      var m := SegmentLength(afterId);
      id, app, rest := tail[..n], afterId[..m], afterId[m..];
      Halves(SESSIONS, path);
      assert tail == id + ("/" + afterId);
      LastElement(afterId);
    }
  }

  lemma Halves(a: string, s: string)
    requires a <= s
    ensures s == a + s[|a|..]
  {
  }

  /** A matching request is the route itself or continues it with a slash. */
  lemma MatchShape(id: string, app: string, request: string)
    requires SlashFree(id) && SlashFree(app)
    requires Matches(SessionPath(id, app), request)
    ensures SessionPath(id, app) <= request
    ensures var rest := request[|SessionPath(id, app)|..]; rest == "" || rest[0] == '/'
  {
    RouteElements(id, app);
    var rest := ContinuesWith(request, "", "sessions", id, app);
    PathShape(id, app, rest);
  }

  lemma ContinuesWith(request: string, a: string, b: string, c: string, d: string) returns (rest: string)
    requires [a, b, c, d] <= Elements(request)
    ensures request == Join4(a, b, c, d + rest) && (rest == "" || rest[0] == '/')
  {
    var e := Elements(request);
    assert e[0] == a && e[1] == b && e[2] == c && e[3] == d;
    var r1 := Unsplit(request);
    var r2 := Unsplit(r1);
    var r3 := Unsplit(r2);
    LastElement(r3);
    rest := r3[SegmentLength(r3)..];
  }

  /** The first element and what follows its slash, when there are more elements. */
  lemma Unsplit(s: string) returns (rest: string)
    requires |Elements(s)| >= 2
    ensures s == Elements(s)[0] + ("/" + rest) && Elements(rest) == Elements(s)[1..]
  {
    var n := SegmentLength(s);
    rest := s[n + 1..];
    assert s == s[..n] + ("/" + rest);
  }

  lemma LastElement(s: string)
    ensures var n := SegmentLength(s); Elements(s)[0] == s[..n] && s == s[..n] + s[n..] && (s[n..] == "" || s[n..][0] == '/')
  {
    var n := SegmentLength(s);
    assert s == s[..n] + s[n..];
    if n == |s| {
      assert s[..n] == s;
    } else {
      assert s[n..][0] == s[n];
    }
  }

  /** For every request a session's route matches, the middleware strips exactly that route's
      prefix, whatever follows. */
  lemma StripsMatchedRoute(id: string, app: string, request: string)
    requires GoodId(id) && app in APPS && Matches(SessionPath(id, app), request)
    ensures SessionPath(id, app) <= request
    ensures Strip(request) == Some(request[|SessionPath(id, app)|..])
  {
    AppsSlashFree(app);
    MatchShape(id, app, request);
    var rest := request[|SessionPath(id, app)|..];
    assert request == SessionPath(id, app) + rest;
    StripRoute(id, app, rest);
  }

  // ---------------------------------------------------------------- the builders

  datatype Route = Route(path: string, service: string, port: int)

  function PortOf(app: string): int {
    if app == "vscode" then 8080 else 8081
  }

  /** The paths of BuildIngress: one route per app, all to the session's Service. */
  method BuildPaths(sessionId: string) returns (paths: seq<Route>)
    ensures paths == [Route("/sessions/" + sessionId + "/vscode", "lab-service-" + sessionId, 8080),
                      Route("/sessions/" + sessionId + "/terminal", "lab-service-" + sessionId, 8081)]
  {
    paths := [];
    for i := 0 to |APPS|
      invariant |paths| == i
      invariant forall j :: 0 <= j < i ==>
                  paths[j] == Route(SessionPath(sessionId, APPS[j]), "lab-service-" + sessionId, PortOf(APPS[j]))
    {
      paths := paths + [Route(SessionPath(sessionId, APPS[i]), "lab-service-" + sessionId, PortOf(APPS[i]))];
    }
    assert SessionPath(sessionId, "vscode") == "/sessions/" + sessionId + "/vscode";
    assert SessionPath(sessionId, "terminal") == "/sessions/" + sessionId + "/terminal";
    assert APPS[0] == "vscode" && APPS[1] == "terminal" && paths == [paths[0], paths[1]];
  }

  function TrimRight(s: string): (t: string)
    ensures t <= s && (t != "" ==> t[|t| - 1] != '/')
    ensures forall i :: |t| <= i < |s| ==> s[i] == '/'
  {
    if s == "" || s[|s| - 1] != '/' then s else TrimRight(s[..|s| - 1])
  }

  function EndpointPath(sessionId: string, app: string): string {
    SessionPath(sessionId, app) + "/"
  }

  /** SessionEndpoints: each app's URL on the public base URL. */
  method SessionEndpoints(baseUrl: string, sessionId: string) returns (endpoints: map<string, string>)
    ensures endpoints == map["vscode" := TrimRight(baseUrl) + ("/sessions/" + sessionId + "/vscode/"),
                             "terminal" := TrimRight(baseUrl) + ("/sessions/" + sessionId + "/terminal/")]
  {
    var base := TrimRight(baseUrl);
    endpoints := map[];
    for i := 0 to |APPS|
      invariant endpoints.Keys == set app | app in APPS[..i]
      invariant forall app :: app in APPS[..i] ==> endpoints[app] == base + EndpointPath(sessionId, app)
    {
      assert APPS[..i + 1] == APPS[..i] + [APPS[i]];
      endpoints := endpoints[APPS[i] := base + (SessionPath(sessionId, APPS[i]) + "/")];
    }
    assert APPS[..|APPS|] == APPS;
    assert EndpointPath(sessionId, "vscode") == "/sessions/" + sessionId + "/vscode/";
    assert EndpointPath(sessionId, "terminal") == "/sessions/" + sessionId + "/terminal/";
    assert "vscode" in APPS && "terminal" in APPS by { assert APPS[0] == "vscode" && APPS[1] == "terminal"; }
  }

  /** Stripping an endpoint's path leaves "/", where the app serves. */
  lemma EndpointServesRoot(sessionId: string, app: string)
    requires SlashFree(sessionId) && app in APPS
    ensures Strip(EndpointPath(sessionId, app)) == Some("/") <==> GoodId(sessionId)
    ensures Matches(SessionPath(sessionId, app), EndpointPath(sessionId, app))
  {
    AppsSlashFree(app);
    StripRoute(sessionId, app, "/");
    RouteElements(sessionId, app);
    EndpointElements(sessionId, app);
  }

  lemma EndpointElements(id: string, app: string)
    requires SlashFree(id) && SlashFree(app)
    ensures Elements(EndpointPath(id, app)) == ["", "sessions", id, app, ""]
  {
    OneElement("");
    FirstElement(app, "");
    PathShape(id, app, "/");
    assert app + ("/" + "") == app + "/";
    FourElements("", "sessions", id, app + "/");
  }
}
