/**
 * The first pass of the command-aware route analyzer: the route's tokens are
 * partitioned into segments, each command ("AUTO" or "RAND") alone in its own
 * segment and every run of other tokens kept together.
 */
module EntrySplitting {
  import opened SeqUtil

  /** One entry of the route string: a waypoint, airway or procedure name, or a command. */
  type Token = string

  /** The two commands, recognised by exact comparison. */
  predicate IsCommand(t: Token)
  {
    t == "AUTO" || t == "RAND"
  }

  /** A segment holding exactly one command. */
  predicate IsCommandSegment(s: seq<Token>)
  {
    |s| == 1 && IsCommand(s[0])
  }

  /** A non-empty segment holding no command. */
  predicate IsRunSegment(s: seq<Token>)
  {
    |s| > 0 && forall k :: 0 <= k < |s| ==> !IsCommand(s[k])
  }

  /**
   * The shape SplitEntries produces: every segment is a lone command or a
   * non-empty run without commands, and no two runs are neighbours.
   */
  ghost predicate WellFormed(segs: seq<seq<Token>>)
  {
    && (forall i :: 0 <= i < |segs| ==> IsCommandSegment(segs[i]) || IsRunSegment(segs[i]))
    && (forall i, j :: 0 <= i < j < |segs| && j == i + 1 ==> !(IsRunSegment(segs[i]) && IsRunSegment(segs[j])))
  }

  /** `segs` is a well-formed partition of `route`. */
  ghost predicate IsSegmentation(segs: seq<seq<Token>>, route: seq<Token>)
  {
    WellFormed(segs) && Flatten(segs) == route
  }

  /**
   * Flushes the accumulator `tmp` into `subRoutes` when it is non-empty and
   * starts a fresh accumulator (the source passes `tmp` by reference).
   */
  method AddIfNonEmpty(subRoutes: seq<seq<Token>>, tmp: seq<Token>)
    returns (subRoutes': seq<seq<Token>>, tmp': seq<Token>)
    ensures tmp' == []
    ensures Flatten(subRoutes') + tmp' == Flatten(subRoutes) + tmp
    ensures subRoutes' == Flushed(subRoutes, tmp)
  {
    subRoutes', tmp' := subRoutes, tmp;
    if |tmp| > 0 {
      subRoutes' := subRoutes + [tmp];
      tmp' := [];
      FlattenAppend(subRoutes, tmp);
    }
  }

  /**
   * Partitions the route: a command flushes the pending run and becomes a
   * segment of its own; any other token joins the pending run; the run still
   * pending at the end is flushed.
   */
  method SplitEntries(route: seq<Token>) returns (subRoutes: seq<seq<Token>>)
    ensures Flatten(subRoutes) == route
    ensures WellFormed(subRoutes)
    ensures subRoutes == Segments(route)
  {
    subRoutes := [];
    var tmp: seq<Token> := [];
    for i := 0 to |route|
      invariant Splitting(subRoutes, tmp, route[..i])
    {
      var t := route[i];
      assert route[..i + 1] == route[..i] + [t];
      if IsCommand(t) {
        CommandStep(subRoutes, tmp, t, route[..i]);
        subRoutes, tmp := AddIfNonEmpty(subRoutes, tmp);
        subRoutes := subRoutes + [[t]];
      } else {
        RunStep(subRoutes, tmp, t, route[..i]);
        tmp := tmp + [t];
      }
    }
    assert route[..|route|] == route;
    FlushStep(subRoutes, tmp, route);
    subRoutes, tmp := AddIfNonEmpty(subRoutes, tmp);
    SegmentsIsSegmentation(route);
    SegmentationUnique(subRoutes, Segments(route), route);
  }

  /** The segments with the pending run, if any, flushed after them. */
  function Flushed(segs: seq<seq<Token>>, tmp: seq<Token>): seq<seq<Token>>
  {
    if |tmp| > 0 then segs + [tmp] else segs
  }

  /**
   * The state of the splitting loop after the tokens `done`: the segments and
   * the pending run hold them in order, the segments are well formed, the
   * pending run has no command, and the last segment, if any, is a command.
   */
  ghost predicate Splitting(segs: seq<seq<Token>>, tmp: seq<Token>, done: seq<Token>)
  {
    && Flatten(segs) + tmp == done
    && WellFormed(segs)
    && (forall k :: 0 <= k < |tmp| ==> !IsCommand(tmp[k]))
    && (segs != [] ==> IsCommandSegment(segs[|segs| - 1]))
  }

  /** The end of the route: flushing the pending run completes a well-formed partition. */
  lemma FlushStep(segs: seq<seq<Token>>, tmp: seq<Token>, done: seq<Token>)
    requires Splitting(segs, tmp, done)
    ensures IsSegmentation(Flushed(segs, tmp), done)
  {
    if tmp != [] {
      WellFormedAppend(segs, tmp);
      FlattenAppend(segs, tmp);
    } else {
      assert done == Flatten(segs) + [];
    }
  }

  /** A command token flushes the pending run and becomes a segment of its own. */
  lemma CommandStep(segs: seq<seq<Token>>, tmp: seq<Token>, t: Token, done: seq<Token>)
    requires Splitting(segs, tmp, done) && IsCommand(t)
    ensures Splitting(Flushed(segs, tmp) + [[t]], [], done + [t])
  {
    var flushed := Flushed(segs, tmp);
    FlushStep(segs, tmp, done);
    WellFormedAppend(flushed, [t]);
    FlattenAppend(flushed, [t]);
  }

  /** Any other token joins the pending run. */
  lemma RunStep(segs: seq<seq<Token>>, tmp: seq<Token>, t: Token, done: seq<Token>)
    requires Splitting(segs, tmp, done) && !IsCommand(t)
    ensures Splitting(segs, tmp + [t], done + [t])
  {
    assert Flatten(segs) + (tmp + [t]) == Flatten(segs) + tmp + [t];
  }

  /** Appending a segment that is not a second run in a row keeps the shape. */
  lemma WellFormedAppend(segs: seq<seq<Token>>, s: seq<Token>)
    requires WellFormed(segs)
    requires IsCommandSegment(s) || IsRunSegment(s)
    requires segs != [] && IsRunSegment(segs[|segs| - 1]) ==> !IsRunSegment(s)
    ensures WellFormed(segs + [s])
  {
    var r := segs + [s];
    forall i | 0 < i < |r|
      ensures !(IsRunSegment(r[i - 1]) && IsRunSegment(r[i]))
    {
      if i < |segs| {
        assert r[i - 1] == segs[i - 1] && r[i] == segs[i];
      }
    }
  }

  /** Reference definition of the partition, by recursion on the token list. */
  function Segments(route: seq<Token>): seq<seq<Token>>
    decreases |route|
  {
    if route == [] then []
    else
      var rest := Segments(route[1..]);
      if IsCommand(route[0]) then [[route[0]]] + rest
      else if rest != [] && IsRunSegment(rest[0]) then [[route[0]] + rest[0]] + rest[1..]
      else [[route[0]]] + rest
  }

  /** The reference partition is lossless and well formed. */
  lemma {:induction false} SegmentsIsSegmentation(route: seq<Token>)
    ensures IsSegmentation(Segments(route), route)
  {
    if route != [] {
      var rest := Segments(route[1..]);
      SegmentsIsSegmentation(route[1..]);
      var segs := Segments(route);
      if IsCommand(route[0]) {
        assert segs == [[route[0]]] + rest;
        assert segs[1..] == rest;
        forall i | 0 < i < |segs|
          ensures !(IsRunSegment(segs[i - 1]) && IsRunSegment(segs[i]))
        {
          assert segs[i] == rest[i - 1];
          if i > 1 {
            assert segs[i - 1] == rest[i - 2];
          } else {
            assert segs[0][0] == route[0];
          }
        }
      } else if rest != [] && IsRunSegment(rest[0]) {
        assert segs == [[route[0]] + rest[0]] + rest[1..];
        assert segs[1..] == rest[1..];
        assert Flatten(rest) == rest[0] + Flatten(rest[1..]);
        assert route == [route[0]] + route[1..];
        forall i | 0 < i < |segs|
          ensures !(IsRunSegment(segs[i - 1]) && IsRunSegment(segs[i]))
        {
          assert segs[i] == rest[i];
          if i > 1 {
            assert segs[i - 1] == rest[i - 1];
          }
        }
      } else {
        assert segs == [[route[0]]] + rest;
        assert segs[1..] == rest;
        forall i | 0 < i < |segs|
          ensures !(IsRunSegment(segs[i - 1]) && IsRunSegment(segs[i]))
        {
          assert segs[i] == rest[i - 1];
          if i > 1 {
            assert segs[i - 1] == rest[i - 2];
          }
        }
      }
    }
  }

  /** Length of the longest command-free prefix. */
  function RunLength(route: seq<Token>): (n: nat)
    ensures n <= |route|
    ensures forall k :: 0 <= k < n ==> !IsCommand(route[k])
    ensures n < |route| ==> IsCommand(route[n])
  {
    if route == [] || IsCommand(route[0]) then 0 else 1 + RunLength(route[1..])
  }

  /** The first segment of any partition of a non-empty route is determined by the route alone. */
  lemma LeadingSegment(segs: seq<seq<Token>>, route: seq<Token>)
    requires IsSegmentation(segs, route) && route != []
    ensures segs != []
    ensures |segs[0]| == (if IsCommand(route[0]) then 1 else RunLength(route))
    ensures segs[0] == route[..|segs[0]|]
    ensures IsSegmentation(segs[1..], route[|segs[0]|..])
  {
    assert segs != [];
    var first := segs[0];
    assert route == first + Flatten(segs[1..]);
    assert first[0] == route[0];
    assert first == route[..|first|];
    if !IsCommand(route[0]) {
      assert IsRunSegment(first);
      if |segs| > 1 {
        assert route[|first|] == segs[1][0];
      }
    }
    forall i | 0 < i < |segs| - 1
      ensures !(IsRunSegment(segs[1..][i - 1]) && IsRunSegment(segs[1..][i]))
    {
      assert segs[1..][i - 1] == segs[i] && segs[1..][i] == segs[i + 1];
    }
  }

  /** Any two well-formed partitions of the same route are equal. */
  lemma {:induction false} SegmentationUnique(a: seq<seq<Token>>, b: seq<seq<Token>>, route: seq<Token>)
    requires IsSegmentation(a, route) && IsSegmentation(b, route)
    ensures a == b
    decreases |route|
  {
    if route != [] {
      LeadingSegment(a, route);
      LeadingSegment(b, route);
      SegmentationUnique(a[1..], b[1..], route[|a[0]|..]);
      assert a == [a[0]] + a[1..] && b == [b[0]] + b[1..];
    }
  }

  /** A route without commands stays one segment. */
  lemma NoCommandsOneSegment(route: seq<Token>)
    requires route != []
    requires forall k :: 0 <= k < |route| ==> !IsCommand(route[k])
    ensures Segments(route) == [route]
  {
    assert Flatten([route]) == route + Flatten([route][1..]);
    SegmentsIsSegmentation(route);
    SegmentationUnique([route], Segments(route), route);
  }
  /** Two command segments side by side. */
  ghost predicate AdjacentCommandSegments(segs: seq<seq<Token>>)
  {
    exists i :: 0 < i < |segs| && IsCommandSegment(segs[i - 1]) && IsCommandSegment(segs[i])
  }

  /** Two command tokens side by side in the route. */
  ghost predicate AdjacentCommands(route: seq<Token>)
  {
    exists j :: 0 < j < |route| && IsCommand(route[j - 1]) && IsCommand(route[j])
  }

  /** The first segment is a command segment exactly when the route starts with a command. */
  lemma FirstSegmentKind(route: seq<Token>)
    requires route != []
    ensures Segments(route) != []
    ensures IsCommandSegment(Segments(route)[0]) <==> IsCommand(route[0])
  {
    var rest := Segments(route[1..]);
    if !IsCommand(route[0]) && rest != [] && IsRunSegment(rest[0]) {
      assert Segments(route)[0] == [route[0]] + rest[0];
      assert Segments(route)[0][0] == route[0];
    }
  }

  lemma AdjacentSegmentsCons(s: seq<Token>, rest: seq<seq<Token>>)
    ensures AdjacentCommandSegments([s] + rest) <==>
      (IsCommandSegment(s) && rest != [] && IsCommandSegment(rest[0])) || AdjacentCommandSegments(rest)
  {
    var all := [s] + rest;
    if AdjacentCommandSegments(all) {
      var i :| 0 < i < |all| && IsCommandSegment(all[i - 1]) && IsCommandSegment(all[i]);
      if i > 1 {
        assert all[i - 1] == rest[i - 2] && all[i] == rest[i - 1];
        assert IsCommandSegment(rest[i - 1 - 1]) && IsCommandSegment(rest[i - 1]);
      } else {
        assert all[0] == s && all[1] == rest[0];
      }
    }
    if AdjacentCommandSegments(rest) {
      var i :| 0 < i < |rest| && IsCommandSegment(rest[i - 1]) && IsCommandSegment(rest[i]);
      assert all[i] == rest[i - 1] && all[i + 1] == rest[i];
      assert IsCommandSegment(all[i + 1 - 1]) && IsCommandSegment(all[i + 1]);
    }
    if IsCommandSegment(s) && rest != [] && IsCommandSegment(rest[0]) {
      assert all[0] == s && all[1] == rest[0];
      assert IsCommandSegment(all[1 - 1]) && IsCommandSegment(all[1]);
    }
  }

  lemma AdjacentCommandsCons(route: seq<Token>)
    requires route != []
    ensures AdjacentCommands(route) <==>
      (IsCommand(route[0]) && |route| > 1 && IsCommand(route[1])) || AdjacentCommands(route[1..])
  {
    var tail := route[1..];
    if AdjacentCommands(route) {
      var j :| 0 < j < |route| && IsCommand(route[j - 1]) && IsCommand(route[j]);
      if j > 1 {
        assert tail[j - 2] == route[j - 1] && tail[j - 1] == route[j];
        assert IsCommand(tail[j - 1 - 1]) && IsCommand(tail[j - 1]);
      }
    }
    if AdjacentCommands(tail) {
      var j :| 0 < j < |tail| && IsCommand(tail[j - 1]) && IsCommand(tail[j]);
      assert route[j] == tail[j - 1] && route[j + 1] == tail[j];
      assert IsCommand(route[j + 1 - 1]) && IsCommand(route[j + 1]);
    }
    if IsCommand(route[0]) && |route| > 1 && IsCommand(route[1]) {
      assert IsCommand(route[1 - 1]) && IsCommand(route[1]);
    }
  }

  /** Splitting puts two commands side by side exactly when the route has two commands side by side. */
  lemma {:induction false} AdjacentCommandsKept(route: seq<Token>)
    ensures AdjacentCommandSegments(Segments(route)) <==> AdjacentCommands(route)
  {
    if route != [] {
      var tail := route[1..];
      var rest := Segments(tail);
      var segs := Segments(route);
      AdjacentCommandsKept(tail);
      AdjacentCommandsCons(route);
      if tail != [] {
        FirstSegmentKind(tail);
        assert tail[0] == route[1];
      } else {
        assert rest == [];
      }
      if IsCommand(route[0]) {
        assert segs == [[route[0]]] + rest;
        AdjacentSegmentsCons([route[0]], rest);
      } else if rest != [] && IsRunSegment(rest[0]) {
        assert segs == [[route[0]] + rest[0]] + rest[1..];
        assert rest == [rest[0]] + rest[1..];
        AdjacentSegmentsCons([route[0]] + rest[0], rest[1..]);
        AdjacentSegmentsCons(rest[0], rest[1..]);
        assert ([route[0]] + rest[0])[0] == route[0];
      } else {
        assert segs == [[route[0]]] + rest;
        AdjacentSegmentsCons([route[0]], rest);
      }
    }
  }
}
