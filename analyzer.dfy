/**
 * The command-aware route analyzer. A route string whose entries may include
 * the commands "AUTO" (shortest route) and "RAND" (random route) is turned
 * into one route in four passes: split the entries into segments, resolve
 * every segment without a command, fill every command segment from its
 * neighbours, and merge all segments into the first one.
 *
 * The services the analyzer calls (SID and STAR extraction, the analysis of
 * a run of entries, the route finders, the random route generator, the
 * coordinate formatter, the runway directory and Route.Merge) are given as
 * functions in a `Collaborators` value; none of their internals is modelled.
 */
module AnalyzerWithCommands {
  import opened SeqUtil
  import opened Routes
  import opened EntrySplitting

  /** The four route-finder variants that FindRoute chooses between. */
  datatype PathQuery =
    | OrigToDest                                   // origin runway to destination runway, SIDs and STARs included
    | OrigTo(wptTo: Waypoint)                      // origin runway, through a SID, to a waypoint
    | ToDest(wptFrom: Waypoint)                    // a waypoint, through a STAR, to the destination runway
    | Between(wptFrom: Waypoint, wptTo: Waypoint)  // waypoint to waypoint over the airway network

  /**
   * What a SID or STAR extractor gives back: the procedure part of the route
   * and the entries it leaves for the analysis of the rest (the source hands
   * the same mutable entry list to both extractors and then to the analysis).
   */
  datatype Extracted = Extracted(route: Route, rest: seq<Token>)

  /**
   * The services one analysis calls, bound to its request: the route finders
   * and procedure extractors already know the origin and destination
   * airports and runways, which the source passes to them by identifier, so
   * the runway variants of PathQuery carry no identifiers of their own.
   */
  datatype Collaborators = Collaborators(
    rwyLatLon: (string, string) -> LatLon,            // the runway threshold of an airport's runway
    extractSid: (seq<Token>, Waypoint) -> Extracted,  // SID extraction for the first segment
    extractStar: (seq<Token>, Waypoint) -> Extracted, // STAR extraction for the last segment
    autoSelect: (seq<Token>, LatLon) -> Route,        // analysis of a run of explicit entries
    merge: (Route, Route) -> Route,                   // Route.Merge: the second route joined after the first
    findRoute: PathQuery -> Route,                    // the route finders
    randomRoute: (Waypoint, Waypoint) -> seq<LatLon>, // the random route generator's polyline
    to5Letter: LatLon -> string)                      // the five-letter name of a coordinate

  /** The analyzer's constructor arguments. */
  datatype Request = Request(route: seq<Token>, origIcao: string, origRwy: string, destIcao: string, destRwy: string)

  /** The two runway waypoints. */
  datatype RwyWpts = RwyWpts(orig: Waypoint, dest: Waypoint)

  /** The start and end anchors of a command segment. */
  datatype WptPair = WptPair(start: Waypoint, end: Waypoint)

  /** Why the analysis stops without a route. */
  datatype AnalyzeError =
    | EmptyRoute                  // no entries: there is no first slot to merge into
    | MissingAnchor(index: nat)   // a command segment whose neighbour slot holds no route yet

  /**
   * The per-segment routes while the passes run; None is the source's null
   * left in the slot of a command segment.
   */
  type Slots = seq<Option<Route>>

  /** The runway waypoints, named by airport and runway identifier. */
  function SetRwyWpts(req: Request, c: Collaborators): (w: RwyWpts)
    ensures w.orig.pos == c.rwyLatLon(req.origIcao, req.origRwy)
    ensures w.dest.pos == c.rwyLatLon(req.destIcao, req.destRwy)
    ensures req.origIcao <= w.orig.ident && w.orig.ident[|req.origIcao|..] == req.origRwy
    ensures req.destIcao <= w.dest.ident && w.dest.ident[|req.destIcao|..] == req.destRwy
  {
    RwyWpts(
      Waypoint(req.origIcao + req.origRwy, c.rwyLatLon(req.origIcao, req.origRwy)),
      Waypoint(req.destIcao + req.destRwy, c.rwyLatLon(req.destIcao, req.destRwy)))
  }

  // ---------------------------------------------------------------------------
  // Pass 2: resolving the segments without a command
  // ---------------------------------------------------------------------------

  /** Appends one optional route to another; a missing route on either side is the identity. */
  function AppendRoute(merge: (Route, Route) -> Route, original: Option<Route>, routeToAppend: Option<Route>): (r: Option<Route>)
    ensures original.None? ==> r == routeToAppend
    ensures routeToAppend.None? ==> r == original
    ensures r.None? <==> original.None? && routeToAppend.None?
    ensures original.Some? && routeToAppend.Some? ==> r == Some(merge(original.value, routeToAppend.value))
  {
    if original.None? then routeToAppend
    else if routeToAppend.None? then original
    else Some(merge(original.value, routeToAppend.value))
  }

  /** AppendRoute is associative when Route.Merge is. */
  lemma AppendRouteAssociative(merge: (Route, Route) -> Route, a: Option<Route>, b: Option<Route>, c: Option<Route>)
    requires forall x, y, z :: merge(merge(x, y), z) == merge(x, merge(y, z))
    ensures AppendRoute(merge, a, AppendRoute(merge, b, c)) == AppendRoute(merge, AppendRoute(merge, a, b), c)
  {
  }

  /**
   * The slot ComputeRoutes gives segment i: nothing for a command; otherwise
   * the analysis of its entries, preceded by the SID for the first segment
   * and followed by the STAR for the last one.
   */
  function ResolveSegment(c: Collaborators, w: RwyWpts, subRoutes: seq<seq<Token>>, i: nat): (r: Option<Route>)
    requires i < |subRoutes|
    ensures r.None? <==> IsCommandSegment(subRoutes[i])
    ensures 0 < i < |subRoutes| - 1 && r.Some? ==> r.value == c.autoSelect(subRoutes[i], w.orig.pos)
    ensures i == 0 < |subRoutes| - 1 && r.Some? ==>
              var sid := c.extractSid(subRoutes[0], w.orig);
              r.value == c.merge(sid.route, c.autoSelect(sid.rest, w.orig.pos))
    ensures 0 < i == |subRoutes| - 1 && r.Some? ==>
              var star := c.extractStar(subRoutes[i], w.dest);
              r.value == c.merge(c.autoSelect(star.rest, w.orig.pos), star.route)
  {
    var route := subRoutes[i];
    if |route| == 1 && IsCommand(route[0]) then None
    else
      var origRoute := if i == 0 then Some(c.extractSid(route, w.orig).route) else None;
      var route1 := if i == 0 then c.extractSid(route, w.orig).rest else route;
      var destRoute := if i == |subRoutes| - 1 then Some(c.extractStar(route1, w.dest).route) else None;
      var route2 := if i == |subRoutes| - 1 then c.extractStar(route1, w.dest).rest else route1;
      AppendRoute(c.merge, origRoute, AppendRoute(c.merge, Some(c.autoSelect(route2, w.orig.pos)), destRoute))
  }

  /** The SID extractor is consulted for the first segment only. */
  lemma SidOnlyForFirstSegment(c: Collaborators, sid: (seq<Token>, Waypoint) -> Extracted, w: RwyWpts, subRoutes: seq<seq<Token>>, i: nat)
    requires 0 < i < |subRoutes|
    ensures ResolveSegment(c.(extractSid := sid), w, subRoutes, i) == ResolveSegment(c, w, subRoutes, i)
  {
  }

  /** The STAR extractor is consulted for the last segment only. */
  lemma StarOnlyForLastSegment(c: Collaborators, star: (seq<Token>, Waypoint) -> Extracted, w: RwyWpts, subRoutes: seq<seq<Token>>, i: nat)
    requires i < |subRoutes| - 1
    ensures ResolveSegment(c.(extractStar := star), w, subRoutes, i) == ResolveSegment(c, w, subRoutes, i)
  {
  }

  /** A route without commands is one segment that gets both its SID and its STAR. */
  lemma SingleSegmentGetsBothProcedures(c: Collaborators, w: RwyWpts, route: seq<Token>)
    requires IsRunSegment(route)
    ensures var sid := c.extractSid(route, w.orig);
            var star := c.extractStar(sid.rest, w.dest);
            ResolveSegment(c, w, [route], 0)
              == Some(c.merge(sid.route, c.merge(c.autoSelect(star.rest, w.orig.pos), star.route)))
  {
    assert route[0] == route[0] && !IsCommand(route[0]);
  }

  /** All slots after the second pass. */
  function Resolved(c: Collaborators, w: RwyWpts, subRoutes: seq<seq<Token>>): (slots: Slots)
    ensures |slots| == |subRoutes|
    ensures forall i :: 0 <= i < |subRoutes| ==> slots[i] == ResolveSegment(c, w, subRoutes, i)
  {
    seq(|subRoutes|, i requires 0 <= i < |subRoutes| => ResolveSegment(c, w, subRoutes, i))
  }

  /** The second pass: one slot per segment, left empty for a command. */
  method ComputeRoutes(c: Collaborators, w: RwyWpts, subRoutes: seq<seq<Token>>) returns (result: Slots)
    ensures result == Resolved(c, w, subRoutes)
    ensures forall i :: 0 <= i < |result| ==> (result[i].None? <==> IsCommandSegment(subRoutes[i]))
  {
    result := [];
    for i := 0 to |subRoutes|
      invariant |result| == i
      invariant forall j :: 0 <= j < i ==> result[j] == ResolveSegment(c, w, subRoutes, j)
    {
      var route := subRoutes[i];
      if |route| == 1 && IsCommand(route[0]) {
        result := result + [None];
      } else {
        var origRoute: Option<Route> := None;
        var destRoute: Option<Route> := None;
        if i == 0 {
          var sid := c.extractSid(route, w.orig);
          origRoute := Some(sid.route);
          route := sid.rest;
        }
        if i == |subRoutes| - 1 {
          var star := c.extractStar(route, w.dest);
          destRoute := Some(star.route);
          route := star.rest;
        }
        var mainRoute := c.autoSelect(route, w.orig.pos);
        result := result + [AppendRoute(c.merge, origRoute, AppendRoute(c.merge, Some(mainRoute), destRoute))];
      }
    }
  }

  // ---------------------------------------------------------------------------
  // Pass 3: filling the command segments
  // ---------------------------------------------------------------------------

  /**
   * The neighbours a command segment reads hold a route with at least one
   * waypoint. GetStartEndWpts and FindRoute dereference them without a check.
   */
  predicate AnchorsAvailable(slots: Slots, index: nat)
    requires index < |slots|
  {
    && (index == 0 || (slots[index - 1].Some? && |slots[index - 1].value| > 0))
    && (index == |slots| - 1 || (slots[index + 1].Some? && |slots[index + 1].value| > 0))
  }

  /** A command slot whose anchors cannot be read: the source fails here. */
  predicate Unfillable(slots: Slots, index: nat)
    requires index < |slots|
  {
    slots[index].None? && !AnchorsAvailable(slots, index)
  }

  ghost predicate Fillable(slots: Slots)
  {
    forall i :: 0 <= i < |slots| ==> slots[i].Some? || AnchorsAvailable(slots, i)
  }

  /** The first unfillable slot at or after `from`, or |slots| if there is none. */
  function FirstUnfillable(slots: Slots, from: nat): (k: nat)
    requires from <= |slots|
    ensures from <= k <= |slots|
    ensures k < |slots| ==> Unfillable(slots, k)
    ensures forall j :: from <= j < k ==> slots[j].Some? || AnchorsAvailable(slots, j)
    decreases |slots| - from
  {
    if from == |slots| || Unfillable(slots, from) then from else FirstUnfillable(slots, from + 1)
  }

  /**
   * The anchors of a command segment: the origin runway for the first slot,
   * else the last waypoint of the slot before; the destination runway for
   * the last slot, else the first waypoint of the slot after.
   */
  function GetStartEndWpts(w: RwyWpts, slots: Slots, index: nat): (p: WptPair)
    requires index < |slots| && AnchorsAvailable(slots, index)
    ensures index == 0 ==> p.start == w.orig
    ensures index > 0 ==> p.start == LastWaypoint(slots[index - 1].value)
    ensures index == |slots| - 1 ==> p.end == w.dest
    ensures index < |slots| - 1 ==> p.end == FirstWaypoint(slots[index + 1].value)
  {
    var start := if index == 0 then w.orig else LastWaypoint(slots[index - 1].value);
    var end := if index == |slots| - 1 then w.dest else FirstWaypoint(slots[index + 1].value);
    WptPair(start, end)
  }

  /** FindRoute's choice of route finder, by the slot's position. */
  function SelectQuery(slots: Slots, index: nat): (q: PathQuery)
    requires index < |slots| && AnchorsAvailable(slots, index)
    ensures q.OrigToDest? <==> index == 0 && index == |slots| - 1
    ensures q.OrigTo? <==> index == 0 && index < |slots| - 1
    ensures q.ToDest? <==> 0 < index && index == |slots| - 1
    ensures q.Between? <==> 0 < index < |slots| - 1
  {
    if index == 0 then
      if index == |slots| - 1 then OrigToDest
      else OrigTo(FirstWaypoint(slots[index + 1].value))
    else
      if index == |slots| - 1 then ToDest(LastWaypoint(slots[index - 1].value))
      else Between(LastWaypoint(slots[index - 1].value), FirstWaypoint(slots[index + 1].value))
  }

  /**
   * The route finder is asked to join exactly the anchors of the slot; a
   * runway anchor is reached through the procedure-aware variant.
   */
  lemma SelectQueryJoinsAnchors(w: RwyWpts, slots: Slots, index: nat)
    requires index < |slots| && AnchorsAvailable(slots, index)
    ensures var p := GetStartEndWpts(w, slots, index);
            match SelectQuery(slots, index)
            case OrigToDest => p == WptPair(w.orig, w.dest)
            case OrigTo(wptTo) => p == WptPair(w.orig, wptTo)
            case ToDest(wptFrom) => p == WptPair(wptFrom, w.dest)
            case Between(wptFrom, wptTo) => p == WptPair(wptFrom, wptTo)
  {
  }

  /** The route FindRoute stores for an AUTO segment. */
  function FindRoute(c: Collaborators, slots: Slots, index: nat): (r: Route)
    requires index < |slots| && AnchorsAvailable(slots, index)
    ensures index == 0 == |slots| - 1 ==> r == c.findRoute(OrigToDest)
    ensures index == 0 < |slots| - 1 ==> r == c.findRoute(OrigTo(FirstWaypoint(slots[1].value)))
    ensures 0 < index == |slots| - 1 ==> r == c.findRoute(ToDest(LastWaypoint(slots[index - 1].value)))
    ensures 0 < index < |slots| - 1 ==>
              r == c.findRoute(Between(LastWaypoint(slots[index - 1].value), FirstWaypoint(slots[index + 1].value)))
  {
    c.findRoute(SelectQuery(slots, index))
  }

  /**
   * The route made from a random polyline: its interior points in order, each
   * named by its coordinates and joined by a direct leg; its end points, which
   * are the anchors, are dropped.
   */
  function RandInterior(to5Letter: LatLon -> string, randRoute: seq<LatLon>): (r: Route)
    ensures |randRoute| <= 2 ==> r == []
    ensures |randRoute| > 2 ==> Positions(r) == randRoute[1..|randRoute| - 1]
    ensures forall k :: 0 <= k < |r| ==> r[k].airway == Direct && r[k].wpt.ident == to5Letter(r[k].wpt.pos)
  {
    if |randRoute| > 2 then
      seq(|randRoute| - 2, k requires 0 <= k < |randRoute| - 2 =>
        Node(Waypoint(to5Letter(randRoute[k + 1]), randRoute[k + 1]), Direct))
    else []
  }

  /** Builds the route of a random polyline, one interior point at a time. */
  method RandRouteToRoute(to5Letter: LatLon -> string, randRoute: seq<LatLon>) returns (result: Route)
    ensures result == RandInterior(to5Letter, randRoute)
  {
    result := [];
    if |randRoute| > 2 {
      for i := 1 to |randRoute| - 1
        invariant |result| == i - 1
        invariant forall k :: 0 <= k < i - 1 ==>
          result[k] == Node(Waypoint(to5Letter(randRoute[k + 1]), randRoute[k + 1]), Direct)
      {
        var wpt := Waypoint(to5Letter(randRoute[i]), randRoute[i]);
        result := result + [Node(wpt, Direct)];
      }
    }
  }

  /**
   * A random route in the first slot starts at the origin runway and one in the
   * last slot ends at the destination runway, both by a direct leg.
   */
  function RandRouteAddOrigDest(w: RwyWpts, route: Route, count: nat, index: nat): (r: Route)
    requires index < count
    ensures |r| == |route| + (if index == 0 then 1 else 0) + (if index == count - 1 then 1 else 0)
    ensures index == 0 ==> r[0] == Node(w.orig, Direct)
    ensures index == count - 1 ==> r[|r| - 1] == Node(w.dest, Direct)
    ensures var offset := if index == 0 then 1 else 0;
            r[offset..offset + |route|] == route
  {
    var withOrig := if index == 0 then [Node(w.orig, Direct)] + route else route;
    if index == count - 1 then withOrig + [Node(w.dest, Direct)] else withOrig
  }

  /** The route FillCommands stores in command slot i. */
  function FillSlot(c: Collaborators, w: RwyWpts, subRoutes: seq<seq<Token>>, slots: Slots, i: nat): (r: Route)
    requires |subRoutes| == |slots| && i < |slots| && |subRoutes[i]| > 0 && AnchorsAvailable(slots, i)
    ensures subRoutes[i][0] == "AUTO" ==> r == c.findRoute(SelectQuery(slots, i))
    ensures subRoutes[i][0] != "AUTO" && i == 0 ==> |r| > 0 && r[0] == Node(w.orig, Direct)
    ensures subRoutes[i][0] != "AUTO" && i == |slots| - 1 ==> |r| > 0 && r[|r| - 1] == Node(w.dest, Direct)
    ensures subRoutes[i][0] != "AUTO" ==>
              var p := GetStartEndWpts(w, slots, i);
              var interior := RandInterior(c.to5Letter, c.randomRoute(p.start, p.end));
              var offset := if i == 0 then 1 else 0;
              && |r| == |interior| + offset + (if i == |slots| - 1 then 1 else 0)
              && r[offset..offset + |interior|] == interior
  {
    if subRoutes[i][0] == "AUTO" then FindRoute(c, slots, i)
    else
      var anchors := GetStartEndWpts(w, slots, i);
      RandRouteAddOrigDest(w, RandInterior(c.to5Letter, c.randomRoute(anchors.start, anchors.end)), |slots|, i)
  }

  /** FillSlot reads only the slot's neighbours. */
  lemma FillSlotReadsNeighbours(c: Collaborators, w: RwyWpts, subRoutes: seq<seq<Token>>, s: Slots, t: Slots, i: nat)
    requires |subRoutes| == |s| == |t| && i < |s| && |subRoutes[i]| > 0
    requires i > 0 ==> s[i - 1] == t[i - 1]
    requires i < |s| - 1 ==> s[i + 1] == t[i + 1]
    requires AnchorsAvailable(s, i)
    ensures AnchorsAvailable(t, i)
    ensures FillSlot(c, w, subRoutes, s, i) == FillSlot(c, w, subRoutes, t, i)
  {
  }

  /** The slot contents after FillCommands has handled the slots before `upTo`. */
  ghost predicate FilledBelow(c: Collaborators, w: RwyWpts, subRoutes: seq<seq<Token>>, orig: Slots, now: Slots, upTo: nat)
    requires |subRoutes| == |orig| && upTo <= |orig|
    requires forall j :: 0 <= j < |orig| && orig[j].None? ==> |subRoutes[j]| > 0
    requires forall j :: 0 <= j < upTo ==> orig[j].Some? || AnchorsAvailable(orig, j)
  {
    && |now| == |orig|
    && forall j :: 0 <= j < |orig| ==>
         now[j] == if j < upTo && orig[j].None? then Some(FillSlot(c, w, subRoutes, orig, j)) else orig[j]
  }

  /**
   * The third pass, in place and left to right: every empty slot gets the
   * route of its command, computed from its anchors. It stops at the first
   * empty slot whose anchors cannot be read and reports that slot.
   */
  method FillCommands(c: Collaborators, w: RwyWpts, subRoutes: seq<seq<Token>>, analyzed: array<Option<Route>>)
    returns (err: Option<nat>)
    requires analyzed.Length == |subRoutes|
    requires forall j :: 0 <= j < |subRoutes| && analyzed[j].None? ==> |subRoutes[j]| > 0
    modifies analyzed
    ensures var k := FirstUnfillable(old(analyzed[..]), 0);
            err == if k < |subRoutes| then Some(k) else None
    ensures var k := FirstUnfillable(old(analyzed[..]), 0);
            FilledBelow(c, w, subRoutes, old(analyzed[..]), analyzed[..], k)
  {
    ghost var orig := analyzed[..];
    var n := |subRoutes|;
    for i := 0 to n
      invariant forall j :: 0 <= j < i ==> orig[j].Some? || AnchorsAvailable(orig, j)
      invariant FilledBelow(c, w, subRoutes, orig, analyzed[..], i)
    {
      if analyzed[i].None? {
        assert orig[i].None?;
        assert i + 1 < n ==> analyzed[i + 1] == orig[i + 1];
        if i > 0 {
          // the slot before cannot have been a command: its right anchor is this empty slot
          assert orig[i - 1].Some?;
          assert analyzed[i - 1] == orig[i - 1];
        }
        if !AnchorsAvailable(analyzed[..], i) {
          assert Unfillable(orig, i);
          return Some(i);
        }
        FillSlotReadsNeighbours(c, w, subRoutes, analyzed[..], orig, i);
        var startEnd := GetStartEndWpts(w, analyzed[..], i);
        var filled: Route;
        if subRoutes[i][0] == "AUTO" {
          filled := FindRoute(c, analyzed[..], i);
        } else {
          filled := RandRouteToRoute(c.to5Letter, c.randomRoute(startEnd.start, startEnd.end));
          filled := RandRouteAddOrigDest(w, filled, n, i);
        }
        assert filled == FillSlot(c, w, subRoutes, orig, i);
        analyzed[i] := Some(filled);
      }
    }
    return None;
  }

  /** The slots after a successful third pass, every one of them holding a route. */
  function Filled(c: Collaborators, w: RwyWpts, subRoutes: seq<seq<Token>>, slots: Slots): (r: seq<Route>)
    requires |subRoutes| == |slots| && Fillable(slots)
    requires forall j :: 0 <= j < |slots| && slots[j].None? ==> |subRoutes[j]| > 0
    ensures |r| == |slots|
    ensures forall j :: 0 <= j < |slots| && slots[j].Some? ==> r[j] == slots[j].value
    ensures forall j :: 0 <= j < |slots| && slots[j].None? ==> r[j] == FillSlot(c, w, subRoutes, slots, j)
  {
    seq(|slots|, j requires 0 <= j < |slots| =>
      if slots[j].Some? then slots[j].value else FillSlot(c, w, subRoutes, slots, j))
  }

  // ---------------------------------------------------------------------------
  // Pass 4: connecting the slots
  // ---------------------------------------------------------------------------

  /** The first route with every later one merged into it, left to right. */
  function MergeAll(merge: (Route, Route) -> Route, routes: seq<Route>): Route
    requires |routes| > 0
    decreases |routes|
  {
    if |routes| == 1 then routes[0]
    else merge(MergeAll(merge, routes[..|routes| - 1]), routes[|routes| - 1])
  }

  /** The fourth pass: every slot merged into slot 0, in order. */
  method ConnectAll(merge: (Route, Route) -> Route, subRoutes: seq<Route>) returns (route: Route)
    requires |subRoutes| > 0
    ensures route == MergeAll(merge, subRoutes)
  {
    route := subRoutes[0];
    for i := 1 to |subRoutes|
      invariant route == MergeAll(merge, subRoutes[..i])
    {
      assert subRoutes[..i + 1][..i] == subRoutes[..i];
      route := merge(route, subRoutes[i]);
    }
    assert subRoutes[..|subRoutes|] == subRoutes;
  }

  /** With merging as plain concatenation, the result lists every slot's entries in order. */
  lemma {:induction false} MergeAllConcatenates(merge: (Route, Route) -> Route, routes: seq<Route>)
    requires |routes| > 0
    requires forall a, b :: merge(a, b) == a + b
    ensures MergeAll(merge, routes) == Flatten(routes)
    decreases |routes|
  {
    if |routes| == 1 {
      assert Flatten(routes) == routes[0] + Flatten(routes[1..]);
    } else {
      var init := routes[..|routes| - 1];
      MergeAllConcatenates(merge, init);
      FlattenAppend(init, routes[|routes| - 1]);
      assert init + [routes[|routes| - 1]] == routes;
    }
  }

  /** With an associative merge, merging a concatenation can be split at any point. */
  lemma {:induction false} MergeAllSplits(merge: (Route, Route) -> Route, a: seq<Route>, b: seq<Route>)
    requires |a| > 0 && |b| > 0
    requires forall x, y, z :: merge(merge(x, y), z) == merge(x, merge(y, z))
    ensures MergeAll(merge, a + b) == merge(MergeAll(merge, a), MergeAll(merge, b))
    decreases |b|
  {
    var ab := a + b;
    if |b| == 1 {
      assert ab[..|ab| - 1] == a;
    } else {
      var init := b[..|b| - 1];
      assert ab[..|ab| - 1] == a + init;
      assert ab[|ab| - 1] == b[|b| - 1];
      MergeAllSplits(merge, a, init);
    }
  }

  // ---------------------------------------------------------------------------
  // The whole analysis
  // ---------------------------------------------------------------------------

  /** The route the analyzer builds, or the reason it stops. */
  function AnalyzeSpec(req: Request, c: Collaborators): Result<Route, AnalyzeError>
  {
    var w := SetRwyWpts(req, c);
    var segs := Segments(req.route);
    SegmentsIsSegmentation(req.route);
    var slots := Resolved(c, w, segs);
    var k := FirstUnfillable(slots, 0);
    if k < |slots| then Failure(MissingAnchor(k))
    else if |slots| == 0 then Failure(EmptyRoute)
    else Success(MergeAll(c.merge, Filled(c, w, segs, slots)))
  }

  /** The four passes, in the order the source runs them. */
  method Analyze(req: Request, c: Collaborators) returns (result: Result<Route, AnalyzeError>)
    ensures result == AnalyzeSpec(req, c)
  {
    var w := SetRwyWpts(req, c);
    var subRoutes := SplitEntries(req.route);
    var resolved := ComputeRoutes(c, w, subRoutes);
    var analyzed := new Option<Route>[|resolved|](i requires 0 <= i < |resolved| => resolved[i]);
    assert analyzed[..] == resolved;
    var err := FillCommands(c, w, subRoutes, analyzed);
    if err.Some? {
      return Failure(MissingAnchor(err.value));
    }
    if analyzed.Length == 0 {
      return Failure(EmptyRoute);
    }
    var routes := seq(analyzed.Length, i requires 0 <= i < analyzed.Length reads analyzed =>
      if analyzed[i].Some? then analyzed[i].value else []);
    assert routes == Filled(c, w, subRoutes, resolved);
    var route := ConnectAll(c.merge, routes);
    return Success(route);
  }

  // ---------------------------------------------------------------------------
  // When the analysis fails
  // ---------------------------------------------------------------------------

  /**
   * Route.Merge never produces an empty route from a non-empty one, and the
   * analysis of a run of entries always yields at least one waypoint.
   */
  ghost predicate NonEmptyRoutes(c: Collaborators)
  {
    && (forall a, b :: |a| > 0 || |b| > 0 ==> |c.merge(a, b)| > 0)
    && (forall ts, p :: |c.autoSelect(ts, p)| > 0)
  }

  lemma ResolvedNonEmpty(c: Collaborators, w: RwyWpts, subRoutes: seq<seq<Token>>, i: nat)
    requires NonEmptyRoutes(c) && i < |subRoutes|
    ensures var r := ResolveSegment(c, w, subRoutes, i);
            r.Some? ==> |r.value| > 0
  {
  }

  /**
   * With every resolved slot holding a waypoint, some command slot cannot
   * be filled exactly when two command segments are neighbours.
   */
  lemma {:induction false} UnfillableIffAdjacentCommandSegments(segs: seq<seq<Token>>, slots: Slots)
    requires |slots| == |segs|
    requires forall i :: 0 <= i < |slots| ==> (slots[i].None? <==> IsCommandSegment(segs[i]))
    requires forall i :: 0 <= i < |slots| && slots[i].Some? ==> |slots[i].value| > 0
    ensures FirstUnfillable(slots, 0) < |slots| <==> AdjacentCommandSegments(segs)
  {
    var k := FirstUnfillable(slots, 0);
    if k < |slots| {
      // the slot before k is fillable, so it holds a route: the missing anchor is on the right
      assert slots[k + 1].None?;
      assert IsCommandSegment(segs[k + 1 - 1]) && IsCommandSegment(segs[k + 1]);
    }
    if AdjacentCommandSegments(segs) {
      var i :| 0 < i < |segs| && IsCommandSegment(segs[i - 1]) && IsCommandSegment(segs[i]);
      assert Unfillable(slots, i);
    }
  }

  /** The analysis reports an empty route exactly when there are no entries. */
  lemma EmptyRouteIffNoEntries(req: Request, c: Collaborators)
    ensures AnalyzeSpec(req, c) == Failure(EmptyRoute) <==> req.route == []
  {
    SegmentsIsSegmentation(req.route);
  }

  /**
   * With collaborators that never hand back an empty route, the analysis
   * fails exactly when the route is empty or has two commands side by side.
   */
  lemma {:induction false} FailsIffEmptyOrAdjacentCommands(req: Request, c: Collaborators)
    requires NonEmptyRoutes(c)
    ensures AnalyzeSpec(req, c).Failure? <==> req.route == [] || AdjacentCommands(req.route)
  {
    var w := SetRwyWpts(req, c);
    var segs := Segments(req.route);
    SegmentsIsSegmentation(req.route);
    var slots := Resolved(c, w, segs);
    forall i | 0 <= i < |slots| && slots[i].Some?
      ensures |slots[i].value| > 0
    {
      ResolvedNonEmpty(c, w, segs, i);
    }
    UnfillableIffAdjacentCommandSegments(segs, slots);
    AdjacentCommandsKept(req.route);
  }

  // ---------------------------------------------------------------------------
  // Worked routes
  // ---------------------------------------------------------------------------

  /** "AUTO" alone asks for the route from the origin runway to the destination runway. */
  lemma AutoAlone(req: Request, c: Collaborators)
    requires req.route == ["AUTO"]
    ensures AnalyzeSpec(req, c) == Success(c.findRoute(OrigToDest))
  {
    assert Segments(req.route) == [["AUTO"]];
  }

  /** "RAND" alone joins both runways by a direct leg to a random polyline between them. */
  lemma RandAlone(req: Request, c: Collaborators)
    requires req.route == ["RAND"]
    ensures var w := SetRwyWpts(req, c);
            AnalyzeSpec(req, c) ==
              Success([Node(w.orig, Direct)] + RandInterior(c.to5Letter, c.randomRoute(w.orig, w.dest)) + [Node(w.dest, Direct)])
  {
    assert Segments(req.route) == [["RAND"]];
  }

  /** A command between two runs splits the route into the run, the command and the run. */
  lemma CommandBetweenRunsSegments(a: seq<Token>, t: Token, b: seq<Token>)
    requires IsRunSegment(a) && IsRunSegment(b) && IsCommand(t)
    ensures Segments(a + [t] + b) == [a, [t], b]
  {
    var segs := [a, [t], b];
    assert IsSegmentation(segs, a + [t] + b) by {
      assert segs[1..] == [[t], b] && segs[2..] == [b] && segs[3..] == [];
      assert Flatten(segs) == a + Flatten(segs[1..]);
      assert Flatten(segs[1..]) == [t] + Flatten(segs[2..]);
      assert Flatten(segs[2..]) == b + Flatten(segs[3..]);
      assert IsCommandSegment(segs[1]);
    }
    SegmentsIsSegmentation(a + [t] + b);
    SegmentationUnique(segs, Segments(a + [t] + b), a + [t] + b);
  }

  /**
   * With runs of explicit entries on both sides of "AUTO", the route finder
   * joins the last waypoint of the SID-side run to the first waypoint of the
   * STAR-side run over the airway network.
   */
  lemma AutoBetweenRuns(req: Request, c: Collaborators, a: seq<Token>, b: seq<Token>)
    requires IsRunSegment(a) && IsRunSegment(b) && req.route == a + ["AUTO"] + b
    requires NonEmptyRoutes(c)
    ensures var w := SetRwyWpts(req, c);
            var segs := [a, ["AUTO"], b];
            var s0 := ResolveSegment(c, w, segs, 0).value;
            var s2 := ResolveSegment(c, w, segs, 2).value;
            AnalyzeSpec(req, c) ==
              Success(c.merge(c.merge(s0, c.findRoute(Between(LastWaypoint(s0), FirstWaypoint(s2)))), s2))
  {
    var w := SetRwyWpts(req, c);
    var segs := [a, ["AUTO"], b];
    CommandBetweenRunsSegments(a, "AUTO", b);
    ResolvedNonEmpty(c, w, segs, 0);
    ResolvedNonEmpty(c, w, segs, 2);
    var slots := Resolved(c, w, segs);
    assert FirstUnfillable(slots, 0) == 3;
    var routes := Filled(c, w, segs, slots);
    var s0 := ResolveSegment(c, w, segs, 0).value;
    var s2 := ResolveSegment(c, w, segs, 2).value;
    assert routes[0] == s0 && routes[2] == s2;
    assert SelectQuery(slots, 1) == Between(LastWaypoint(s0), FirstWaypoint(s2));
    assert routes[1] == c.findRoute(Between(LastWaypoint(s0), FirstWaypoint(s2)));
    assert routes[..2][..1] == [routes[0]];
    assert MergeAll(c.merge, routes[..2]) == c.merge(s0, routes[1]);
    assert AnalyzeSpec(req, c) == Success(MergeAll(c.merge, routes));
  }

  /**
   * "AUTO" before a run of explicit entries asks for the route from the
   * origin runway, through a SID, to the run's first waypoint, and puts it
   * in front of the run.
   */
  lemma AutoBeforeRun(req: Request, c: Collaborators, b: seq<Token>)
    requires IsRunSegment(b) && req.route == ["AUTO"] + b
    requires NonEmptyRoutes(c)
    ensures var w := SetRwyWpts(req, c);
            var s1 := ResolveSegment(c, w, [["AUTO"], b], 1).value;
            AnalyzeSpec(req, c) == Success(c.merge(c.findRoute(OrigTo(FirstWaypoint(s1))), s1))
  {
    var w := SetRwyWpts(req, c);
    var segs := [["AUTO"], b];
    assert req.route[1..] == b;
    NoCommandsOneSegment(b);
    assert Segments(req.route) == segs;
    ResolvedNonEmpty(c, w, segs, 1);
    var slots := Resolved(c, w, segs);
    assert FirstUnfillable(slots, 0) == 2;
    var routes := Filled(c, w, segs, slots);
    var s1 := ResolveSegment(c, w, segs, 1).value;
    assert routes[1] == s1;
    assert routes[0] == c.findRoute(OrigTo(FirstWaypoint(s1)));
    assert routes[..1] == [routes[0]];
    assert AnalyzeSpec(req, c) == Success(MergeAll(c.merge, routes));
  }

  /** Two commands side by side: the first of them has no route to start from. */
  lemma AdjacentCommandsFail(req: Request, c: Collaborators)
    requires req.route == ["AUTO", "RAND"]
    ensures AnalyzeSpec(req, c) == Failure(MissingAnchor(0))
  {
    assert Segments(req.route) == [["AUTO"], ["RAND"]];
  }
}
