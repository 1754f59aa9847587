/** The route printer and the route table that the sfu's controller and the
    realtime app's client share. */
module Routes {
  import opened Wrappers

  // ----- Splitting and joining at slashes -----

  /** s.split('/'): the empty string has one, empty, segment. */
  function Split(s: string): (parts: seq<string>)
    ensures parts != []
  {
    if s == "" then [""]
    else
      var rest := Split(s[1..]);
      if s[0] == '/' then [""] + rest else [[s[0]] + rest[0]] + rest[1..]
  }

  /** parts.join('/') */
  function Join(parts: seq<string>): string {
    if parts == [] then ""
    else if |parts| == 1 then parts[0]
    else parts[0] + "/" + Join(parts[1..])
  }

  predicate SlashFree(s: string) {
    forall i | 0 <= i < |s| :: s[i] != '/'
  }

  ghost predicate AllSlashFree(parts: seq<string>) {
    forall i | 0 <= i < |parts| :: SlashFree(parts[i])
  }

  lemma {:induction false} JoinSplit(s: string)
    ensures Join(Split(s)) == s
  {
    if s != "" {
      var rest := Split(s[1..]);
      JoinSplit(s[1..]);
      if s[0] == '/' {
        assert ([""] + rest)[1..] == rest;
      } else {
        var parts := [[s[0]] + rest[0]] + rest[1..];
        assert parts[1..] == rest[1..];
        assert Join(parts) == [s[0]] + Join(rest);
      }
    }
  }

  lemma {:induction false} SplitIsSlashFree(s: string)
    ensures AllSlashFree(Split(s))
  {
    if s != "" {
      SplitIsSlashFree(s[1..]);
    }
  }

  lemma {:induction false} SplitOne(s: string)
    requires SlashFree(s)
    ensures Split(s) == [s]
  {
    if s != "" {
      SplitOne(s[1..]);
      assert [s[0]] + s[1..] == s;
    }
  }

  lemma {:induction false} SplitBehindSlash(s: string, t: string)
    requires SlashFree(s)
    ensures Split(s + "/" + t) == [s] + Split(t)
  {
    var whole := s + "/" + t;
    if s == "" {
      assert whole[1..] == t;
    } else {
      SplitBehindSlash(s[1..], t);
      assert whole[1..] == s[1..] + "/" + t;
      assert [s[0]] + s[1..] == s;
    }
  }

  /** Splitting undoes joining exactly for segments without slashes. */
  lemma {:induction false} SplitJoin(parts: seq<string>)
    requires parts != []
    ensures Split(Join(parts)) == parts <==> AllSlashFree(parts)
  {
    SplitIsSlashFree(Join(parts));
    if AllSlashFree(parts) {
      if |parts| == 1 {
        SplitOne(parts[0]);
      } else {
        SplitJoin(parts[1..]);
        SplitBehindSlash(parts[0], Join(parts[1..]));
      }
    }
  }

  // ----- Printing -----

  type Params = map<string, string>

  predicate IsParam(segment: string) {
    segment != "" && segment[0] == ':'
  }

  /** A missing parameter is undefined, which join prints as nothing. */
  function Resolve(segment: string, params: Params): string {
    if IsParam(segment) then
      var key := segment[1..];
      if key in params then params[key] else ""
    else segment
  }

  function ResolveAll(segments: seq<string>, params: Params): (r: seq<string>)
    ensures |r| == |segments| && forall i | 0 <= i < |r| :: r[i] == Resolve(segments[i], params)
  {
    seq(|segments|, i requires 0 <= i < |segments| => Resolve(segments[i], params))
  }

  function BuildPath(pattern: string, params: Params): string {
    Join(ResolveAll(Split(pattern), params))
  }

  // ----- Matching -----

  /** A parameter stands for any non-empty segment, anything else for itself. */
  predicate SegmentMatches(expected: string, actual: string) {
    if IsParam(expected) then actual != "" else expected == actual
  }

  predicate Matches(expected: seq<string>, actual: seq<string>) {
    |expected| == |actual| && forall i | 0 <= i < |expected| :: SegmentMatches(expected[i], actual[i])
  }

  function Bindings(expected: seq<string>, actual: seq<string>): Params
    requires |expected| == |actual|
  {
    if expected == [] then map[]
    else
      var last := |expected| - 1;
      var before := Bindings(expected[..last], actual[..last]);
      if IsParam(expected[last]) then before[expected[last][1..] := actual[last]] else before
  }

  /** What a router takes a path for under a pattern. */
  function MatchPath(pattern: string, path: string): Option<Params> {
    var expected, actual := Split(pattern), Split(path);
    if Matches(expected, actual) then Some(Bindings(expected, actual)) else None
  }

  ghost predicate Complete(segments: seq<string>, params: Params) {
    forall i | 0 <= i < |segments| && IsParam(segments[i]) :: segments[i][1..] in params
  }

  /** A caller can check this much: no parameter the pattern names is empty or has a slash in it. */
  ghost predicate Clean(segments: seq<string>, params: Params)
    requires Complete(segments, params)
  {
    forall i | 0 <= i < |segments| && IsParam(segments[i]) ::
      params[segments[i][1..]] != "" && SlashFree(params[segments[i][1..]])
  }

  ghost predicate Names(segments: seq<string>, key: string) {
    exists i | 0 <= i < |segments| :: IsParam(segments[i]) && segments[i][1..] == key
  }

  ghost function Named(segments: seq<string>, params: Params): Params {
    map key | key in params && Names(segments, key) :: params[key]
  }

  lemma {:induction false} BindingsOfResolved(segments: seq<string>, params: Params)
    requires Complete(segments, params)
    ensures Bindings(segments, ResolveAll(segments, params)) == Named(segments, params)
  {
    if segments == [] {
    } else {
      var last := |segments| - 1;
      var before := segments[..last];
      BindingsOfResolved(before, params);
      assert ResolveAll(segments, params)[..last] == ResolveAll(before, params);
      forall key
        ensures Names(segments, key) <==>
                Names(before, key) || (IsParam(segments[last]) && segments[last][1..] == key)
      {
        NamesLast(segments, key);
      }
    }
  }

  lemma NamesLast(segments: seq<string>, key: string)
    requires segments != []
    ensures var last := |segments| - 1;
            Names(segments, key) <==>
            Names(segments[..last], key) || (IsParam(segments[last]) && segments[last][1..] == key)
  {
    var last := |segments| - 1;
    if Names(segments[..last], key) {
      var i :| 0 <= i < last && IsParam(segments[..last][i]) && segments[..last][i][1..] == key;
      assert IsParam(segments[i]) && segments[i][1..] == key;
    }
    if Names(segments, key) {
      var i :| 0 <= i <= last && IsParam(segments[i]) && segments[i][1..] == key;
      if i < last {
        assert IsParam(segments[..last][i]) && segments[..last][i][1..] == key;
      }
    }
  }

  lemma CleanSegments(segments: seq<string>, params: Params)
    requires Complete(segments, params) && AllSlashFree(segments)
    ensures Clean(segments, params)
       <==> AllSlashFree(ResolveAll(segments, params)) && Matches(segments, ResolveAll(segments, params))
  {
    var r := ResolveAll(segments, params);
    if AllSlashFree(r) && Matches(segments, r) {
      forall i | 0 <= i < |segments| && IsParam(segments[i])
        ensures params[segments[i][1..]] != "" && SlashFree(params[segments[i][1..]])
      {
        assert SegmentMatches(segments[i], r[i]) && SlashFree(r[i]);
      }
    }
  }

  lemma {:induction false} BindingsAreActual(expected: seq<string>, actual: seq<string>, key: string) returns (i: int)
    requires |expected| == |actual| && key in Bindings(expected, actual)
    ensures 0 <= i < |actual| && IsParam(expected[i]) && Bindings(expected, actual)[key] == actual[i]
  {
    var last := |expected| - 1;
    if IsParam(expected[last]) && expected[last][1..] == key {
      i := last;
    } else {
      i := BindingsAreActual(expected[..last], actual[..last], key);
    }
  }

  /** A built path matches its own pattern and gives back exactly the parameters
      it was built from if and only if none of them is empty or contains a slash. */
  lemma PathRoundTrip(pattern: string, params: Params)
    requires Complete(Split(pattern), params)
    ensures MatchPath(pattern, BuildPath(pattern, params)) == Some(Named(Split(pattern), params))
       <==> Clean(Split(pattern), params)
  {
    hide Split, Join, Bindings, SegmentMatches, Complete, AllSlashFree;
    var segments := Split(pattern);
    var resolved, actual := ResolveAll(segments, params), Split(BuildPath(pattern, params));
    SplitIsSlashFree(pattern);
    CleanSegments(segments, params);
    if Clean(segments, params) {
      ResolvedNonempty(segments, params);
      SplitJoin(resolved);
      BindingsOfResolved(segments, params);
    } else if MatchPath(pattern, BuildPath(pattern, params)) == Some(Named(segments, params)) {
      SplitIsSlashFree(BuildPath(pattern, params));
      MatchedIsClean(segments, actual, params);
    }
  }

  lemma ResolvedNonempty(segments: seq<string>, params: Params)
    requires segments != []
    ensures ResolveAll(segments, params) != []
  {
    assert |ResolveAll(segments, params)| == |segments|;
  }

  lemma MatchedIsClean(segments: seq<string>, actual: seq<string>, params: Params)
    requires Complete(segments, params) && AllSlashFree(actual)
    requires Matches(segments, actual) && Bindings(segments, actual) == Named(segments, params)
    ensures Clean(segments, params)
  {
    hide Bindings;
    forall i | 0 <= i < |segments| && IsParam(segments[i])
      ensures params[segments[i][1..]] != "" && SlashFree(params[segments[i][1..]])
    {
      var key := segments[i][1..];
      assert Names(segments, key);
      var j := BindingsAreActual(segments, actual, key);
      assert params[key] == actual[j] && SegmentMatches(segments[j], actual[j]);
    }
  }

  // ----- The table -----

  const MEDIA_ROOMS_BASE_PATH := "media-rooms"

  datatype Route =
    | Stats
    | CreateOrGetRoom
    | CreateTransport
    | ConnectTransport
    | Produce
    | Consume
    | ResumeConsumer
    | PauseProducer
    | ResumeProducer
    | RemovePeer
    | CloseRoom
    | StartRecording
    | StopRecording

  datatype HttpMethod = GET | PUT | POST | DELETE

  function Method(r: Route): HttpMethod {
    match r
    case Stats => GET
    case CreateOrGetRoom => PUT
    case RemovePeer => DELETE
    case CloseRoom => DELETE
    case _ => POST
  }

  /** MEDIA_ROOM_ROUTES, each pattern taken apart at its slashes */
  function Segments(r: Route): (segments: seq<string>)
    ensures segments != []
  {
    match r
    case Stats => ["stats"]
    case CreateOrGetRoom => [":roomId"]
    case CreateTransport => [":roomId", "peers", ":peerId", "transports"]
    case ConnectTransport => [":roomId", "peers", ":peerId", "transports", ":transportId", "connect"]
    case Produce => [":roomId", "peers", ":peerId", "transports", ":transportId", "produce"]
    case Consume => [":roomId", "peers", ":peerId", "consumers"]
    case ResumeConsumer => [":roomId", "peers", ":peerId", "consumers", ":consumerId", "resume"]
    case PauseProducer => [":roomId", "peers", ":peerId", "producers", ":producerId", "pause"]
    case ResumeProducer => [":roomId", "peers", ":peerId", "producers", ":producerId", "resume"]
    case RemovePeer => [":roomId", "peers", ":peerId"]
    case CloseRoom => [":roomId"]
    case StartRecording => [":roomId", "recording", "start"]
    case StopRecording => [":roomId", "recording", "stop"]
  }

  function Pattern(r: Route): string {
    Join(Segments(r))
  }

  /** buildMediaRoomPath */
  function BuildMediaRoomPath(pattern: string, params: Params): string {
    "/" + MEDIA_ROOMS_BASE_PATH + "/" + BuildPath(pattern, params)
  }

  lemma Words()
    ensures SlashFree(":consumerId")
         && SlashFree(":peerId")
         && SlashFree(":producerId")
         && SlashFree(":roomId")
         && SlashFree(":transportId")
         && SlashFree("connect")
         && SlashFree("consumers")
         && SlashFree("pause")
         && SlashFree("peers")
         && SlashFree("produce")
         && SlashFree("producers")
         && SlashFree("recording")
         && SlashFree("resume")
         && SlashFree("start")
         && SlashFree("stats")
         && SlashFree("stop")
         && SlashFree("transports")
  {
  }

  lemma PatternSegments(r: Route)
    ensures Split(Pattern(r)) == Segments(r) && AllSlashFree(Segments(r))
  {
    hide SlashFree, Split, Join;
    Words();
    SplitJoin(Segments(r));
  }

  // ----- Which route a path is for -----

  /** The parameter shapes decide it: with `:roomId` alone a path for the
      room also looks like `stats` to a pattern of one segment. */
  ghost predicate Confusable(a: Route, b: Route, params: Params) {
    || (a in {Stats, CreateOrGetRoom, CloseRoom} && b in {CreateOrGetRoom, CloseRoom})
    || (a in {CreateOrGetRoom, CloseRoom} && b == Stats && "roomId" in params && params["roomId"] == "stats")
  }

  lemma BuiltSegments(r: Route, params: Params)
    requires Complete(Segments(r), params) && Clean(Segments(r), params)
    ensures Split(BuildPath(Pattern(r), params)) == ResolveAll(Segments(r), params)
  {
    hide Split, Join, Segments, Matches, AllSlashFree;
    PatternSegments(r);
    CleanSegments(Segments(r), params);
    ResolvedNonempty(Segments(r), params);
    SplitJoin(ResolveAll(Segments(r), params));
  }

  /** The literal words at which two patterns of the same length differ. */
  lemma MatchedWords(a: Route, b: Route, params: Params)
    requires Matches(Segments(b), ResolveAll(Segments(a), params))
    ensures |Segments(a)| == |Segments(b)| && (|Segments(a)| > 1 ==> a == b)
  {
    var x, y := Segments(a), Segments(b);
    assert |x| == |y|;
    if |x| > 1 {
      assert SegmentMatches(y[1], Resolve(x[1], params)) && SegmentMatches(y[|y| - 1], Resolve(x[|x| - 1], params));
      assert |x| > 3 ==> SegmentMatches(y[3], Resolve(x[3], params));
    }
  }

  lemma SegmentsTellRoutesApart(a: Route, b: Route, params: Params)
    requires Complete(Segments(a), params) && Clean(Segments(a), params)
    ensures Matches(Segments(b), ResolveAll(Segments(a), params)) <==> a == b || Confusable(a, b, params)
  {
    var resolved := ResolveAll(Segments(a), params);
    if a == b {
      PatternSegments(a);
      CleanSegments(Segments(a), params);
    } else if |Segments(a)| > 1 || |Segments(b)| > 1 {
      if Matches(Segments(b), resolved) {
        MatchedWords(a, b, params);
        assert false;
      }
    } else {
      OneSegment(a, b, params);
    }
  }

  lemma OneSegment(a: Route, b: Route, params: Params)
    requires Complete(Segments(a), params) && Clean(Segments(a), params)
    requires |Segments(a)| == |Segments(b)| == 1 && a != b
    ensures Matches(Segments(b), ResolveAll(Segments(a), params)) <==> Confusable(a, b, params)
  {
    var key := ":roomId"[1..];
    assert key == "roomId";
    assert IsParam(":roomId") && !IsParam("stats");
    assert Matches(Segments(b), ResolveAll(Segments(a), params))
      <==> SegmentMatches(Segments(b)[0], Resolve(Segments(a)[0], params));
  }

  /** A path built for a route matches another pattern of the table exactly in
      the listed cases ... */
  lemma PathMatches(a: Route, b: Route, params: Params)
    requires Complete(Segments(a), params) && Clean(Segments(a), params)
    ensures MatchPath(Pattern(b), BuildPath(Pattern(a), params)).Some? <==> a == b || Confusable(a, b, params)
  {
    hide Segments, Pattern, Split, BuildPath, Matches, Bindings, Clean, Complete, Confusable;
    PatternSegments(b);
    BuiltSegments(a, params);
    SegmentsTellRoutesApart(a, b, params);
  }

  /** ... none of which share their HTTP method with it: method and path name the route. */
  lemma RoutesAreUnambiguous(a: Route, b: Route, params: Params)
    requires Complete(Segments(a), params) && Clean(Segments(a), params) && Method(a) == Method(b)
    ensures MatchPath(Pattern(b), BuildPath(Pattern(a), params)).Some? <==> a == b
  {
    hide Segments, Pattern, BuildPath, MatchPath, Clean, Complete;
    PathMatches(a, b, params);
  }

  /** The client's full path is the controller's prefix followed by the route's
      own segments, so matching it below the prefix is matching the built path. */
  lemma FullPathSegments(r: Route, params: Params)
    requires Complete(Segments(r), params) && Clean(Segments(r), params)
    ensures Split(BuildMediaRoomPath(Pattern(r), params)) ==
            ["", MEDIA_ROOMS_BASE_PATH] + ResolveAll(Segments(r), params)
  {
    hide Split, Join, Segments, Clean, Complete, BuildPath;
    var path := BuildPath(Pattern(r), params);
    BuiltSegments(r, params);
    SplitBehindSlash(MEDIA_ROOMS_BASE_PATH, path);
    SplitBehindSlash("", MEDIA_ROOMS_BASE_PATH + "/" + path);
    assert BuildMediaRoomPath(Pattern(r), params) == "" + "/" + (MEDIA_ROOMS_BASE_PATH + "/" + path);
  }

  /** With a slash in it a parameter changes the route: closing the room named
      `room/peers/peer` asks for the removal of a peer. */
  lemma SlashChangesRoute(room: string, peer: string)
    requires room != "" && SlashFree(room) && peer != "" && SlashFree(peer)
    ensures var params := map["roomId" := room + "/" + ("peers" + "/" + peer)];
            MatchPath(Pattern(RemovePeer), BuildPath(Pattern(CloseRoom), params)).Some?
  {
    hide Split, Bindings, SlashFree;
    var params := map["roomId" := room + "/" + ("peers" + "/" + peer)];
    PatternSegments(RemovePeer);
    PatternSegments(CloseRoom);
    Words();
    SplitOne(peer);
    SplitBehindSlash("peers", peer);
    SplitBehindSlash(room, "peers" + "/" + peer);
    assert ":roomId"[1..] == "roomId";
    assert ResolveAll(Segments(CloseRoom), params) == [params["roomId"]];
  }
}
