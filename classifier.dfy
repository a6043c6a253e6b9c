/** The segment classifier: the `filter` of src/App.js:58, which keeps the
    driving legs of the payload in their original order. */
module Classifier {
  import opened RouteData

  /** `routes.filter(route => route.type === 'route')`. */
  function Filter(s: seq<Segment>): (r: seq<Segment>)
    ensures |r| <= |s|
  {
    if s == [] then []
    else Filter(s[..|s| - 1]) + (if IsRoute(s[|s| - 1]) then [s[|s| - 1]] else [])
  }

  /** The positions of `s` whose segment is a driving leg. */
  ghost function RoutePositions(s: seq<Segment>): set<nat> {
    set i: nat | i < |s| && IsRoute(s[i])
  }

  /** `idx` lists, in increasing order, exactly the positions of `s`
      holding a driving leg, and `r` holds the segments found there. */
  ghost predicate SelectsRoutes(s: seq<Segment>, r: seq<Segment>, idx: seq<nat>) {
    && |idx| == |r|
    && (forall j :: 0 <= j < |idx| ==> idx[j] < |s| && r[j] == s[idx[j]])
    && (forall j, k :: 0 <= j < k < |idx| ==> idx[j] < idx[k])
    && (forall i: nat :: i < |s| ==> (IsRoute(s[i]) <==> i in idx))
  }

  /** The positions `Filter` takes its elements from. */
  ghost function FilteredPositions(s: seq<Segment>): (idx: seq<nat>)
    ensures |idx| == |Filter(s)|
    ensures forall j :: 0 <= j < |idx| ==> idx[j] < |s|
  {
    if s == [] then []
    else FilteredPositions(s[..|s| - 1]) + (if IsRoute(s[|s| - 1]) then [|s| - 1] else [])
  }

  /** The filter keeps every driving leg and nothing else, unchanged and in
      the input's relative order. */
  lemma {:induction false} FilterSelectsRoutes(s: seq<Segment>)
    ensures SelectsRoutes(s, Filter(s), FilteredPositions(s))
  {
    if s != [] {
      var p := s[..|s| - 1];
      assert s == p + [s[|s| - 1]];
      FilterSelectsRoutes(p);
      SelectionExtends(p, Filter(p), FilteredPositions(p), s[|s| - 1]);
    }
  }

  /** Appending a segment extends a selection by that segment exactly when it
      is a driving leg. */
  lemma SelectionExtends(p: seq<Segment>, r: seq<Segment>, idx: seq<nat>, x: Segment)
    requires SelectsRoutes(p, r, idx)
    ensures IsRoute(x) ==> SelectsRoutes(p + [x], r + [x], idx + [|p|])
    ensures !IsRoute(x) ==> SelectsRoutes(p + [x], r, idx)
  {
  }

  /** Two increasing index lists with the same members are equal. */
  lemma {:induction false} IncreasingUnique(a: seq<nat>, b: seq<nat>)
    requires forall j, k :: 0 <= j < k < |a| ==> a[j] < a[k]
    requires forall j, k :: 0 <= j < k < |b| ==> b[j] < b[k]
    requires forall i: nat :: i in a <==> i in b
    ensures a == b
  {
    assert a != [] ==> a[0] in b;
    assert b != [] ==> b[0] in a;
    if a == [] || b == [] {
    } else {
      assert a[0] in b;
      assert b[0] in a;
      assert a[0] == b[0];
      forall i: nat ensures i in a[1..] <==> i in b[1..] {
        if i in a[1..] {
          assert i in a && i != a[0];
        }
        if i in b[1..] {
          assert i in b && i != b[0];
        }
      }
      IncreasingUnique(a[1..], b[1..]);
      assert a == [a[0]] + a[1..];
      assert b == [b[0]] + b[1..];
    }
  }

  /** The selection is unique: any list that keeps exactly the driving legs,
      in order, is the filter's result. */
  lemma FilterIsTheRouteSelection(s: seq<Segment>, r: seq<Segment>, idx: seq<nat>)
    requires SelectsRoutes(s, r, idx)
    ensures r == Filter(s)
  {
    var fidx := FilteredPositions(s);
    FilterSelectsRoutes(s);
    forall i: nat ensures i in idx <==> i in fidx {
      if i in idx {
        var j :| 0 <= j < |idx| && idx[j] == i;
        assert i < |s|;
      }
      if i in fidx {
        var j :| 0 <= j < |fidx| && fidx[j] == i;
        assert i < |s|;
      }
    }
    IncreasingUnique(idx, fidx);
    assert forall j :: 0 <= j < |r| ==> r[j] == Filter(s)[j];
  }

  /** As many segments are kept as the input holds driving legs. */
  lemma {:induction false} FilterCount(s: seq<Segment>)
    ensures |Filter(s)| == |RoutePositions(s)|
  {
    if s != [] {
      var p := s[..|s| - 1];
      FilterCount(p);
      assert forall i: nat :: i < |p| ==> s[i] == p[i];
      var extra: set<nat> := if IsRoute(s[|s| - 1]) then {|s| - 1} else {};
      forall i: nat ensures i in RoutePositions(s) <==> i in RoutePositions(p) + extra {
        if i < |p| {
          assert s[i] == p[i];
        }
      }
      assert RoutePositions(s) == RoutePositions(p) + extra;
      assert |s| - 1 !in RoutePositions(p);
    }
  }

  /** A segment is kept exactly when it occurs in the input as a driving
      leg. */
  lemma {:induction false} FilterMembers(s: seq<Segment>, x: Segment)
    ensures x in Filter(s) <==> x in s && IsRoute(x)
  {
    if s != [] {
      FilterMembers(s[..|s| - 1], x);
      assert s == s[..|s| - 1] + [s[|s| - 1]];
    }
  }

  /** Filtering distributes over concatenation. */
  lemma {:induction false} FilterAppend(a: seq<Segment>, b: seq<Segment>)
    ensures Filter(a + b) == Filter(a) + Filter(b)
  {
    if b == [] {
      assert a + b == a;
    } else {
      var b' := b[..|b| - 1];
      assert (a + b)[..|a + b| - 1] == a + b';
      FilterAppend(a, b');
    }
  }

  /** A segment that is not a driving leg leaves the filter's result as it
      was, wherever it stands in the input. */
  lemma NonRouteDropped(a: seq<Segment>, x: Segment, b: seq<Segment>)
    requires !IsRoute(x)
    ensures Filter(a + [x] + b) == Filter(a + b)
  {
    FilterAppend(a + [x], b);
    FilterAppend(a, [x]);
    FilterAppend(a, b);
    assert [x][..0] == [];
  }

  /** An input without driving legs, the empty one included, filters to the
      empty list. */
  lemma {:induction false} NoRoutesFilterEmpty(s: seq<Segment>)
    requires forall i :: 0 <= i < |s| ==> !IsRoute(s[i])
    ensures Filter(s) == []
  {
    if s != [] {
      NoRoutesFilterEmpty(s[..|s| - 1]);
    }
  }
}
