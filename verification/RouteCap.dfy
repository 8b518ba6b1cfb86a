/** The cap on distinct route labels, and the bound on the number of series it
    gives together with the fixed method and status labels. */
module RouteCap {
  import opened HttpLabels
  import opened RouteLabels

  // ---- capRoute ----

  /** seen lists the labels minted so far, in insertion order. */
  function Cap(seen: seq<string>, route: string, maxRoutes: int): (seq<string>, string) {
    if route in seen then (seen, route)
    else if |seen| >= maxRoutes then (seen, OVERFLOW_ROUTE)
    else (seen + [route], route)
  }

  class SeenRoutes {
    var seen: seq<string>

    constructor ()
      ensures seen == []
    {
      seen := [];
    }

    method CapRoute(route: string, maxRoutes: int) returns (shown: string)
      modifies this
      ensures (seen, shown) == Cap(old(seen), route, maxRoutes)
    {
      if route in seen {
        return route;
      }
      if |seen| >= maxRoutes {
        return OVERFLOW_ROUTE;
      }
      seen := seen + [route];
      return route;
    }
  }

  function CapAll(seen: seq<string>, routes: seq<string>, maxRoutes: int): (seq<string>, seq<string>) {
    if routes == [] then (seen, [])
    else
      var (before, shown) := CapAll(seen, routes[..|routes| - 1], maxRoutes);
      var (after, last) := Cap(before, routes[|routes| - 1], maxRoutes);
      (after, shown + [last])
  }

  /** The distinct labels of a request sequence, by first occurrence. */
  function Distinct(routes: seq<string>): seq<string> {
    if routes == [] then []
    else
      var d := Distinct(routes[..|routes| - 1]);
      var last := routes[|routes| - 1];
      if last in d then d else d + [last]
  }

  function FirstFew(s: seq<string>, n: int): seq<string> {
    if n <= 0 then [] else if n < |s| then s[..n] else s
  }

  lemma {:induction false} DistinctHolds(routes: seq<string>, i: nat)
    requires i < |routes|
    ensures routes[i] in Distinct(routes)
  {
    if i < |routes| - 1 { DistinctHolds(routes[..|routes| - 1], i); }
  }

  /** The cap keeps the first N distinct labels, and nothing else: it is decided
      by the whole request sequence alone which labels are ever shown, every one
      of them is shown verbatim each time, and every other request overflows. */
  lemma {:induction false} CapKeepsFirstDistinct(routes: seq<string>, maxRoutes: int)
    ensures var (seen, shown) := CapAll([], routes, maxRoutes);
            var kept := FirstFew(Distinct(routes), maxRoutes);
            && seen == kept
            && |shown| == |routes|
            && forall i | 0 <= i < |routes| :: shown[i] == if routes[i] in kept then routes[i] else OVERFLOW_ROUTE
  {
    if routes != [] {
      var init, last := routes[..|routes| - 1], routes[|routes| - 1];
      CapKeepsFirstDistinct(init, maxRoutes);
      var d := Distinct(init);
      var kept, kept' := FirstFew(d, maxRoutes), FirstFew(Distinct(routes), maxRoutes);
      if last !in d && |d| < maxRoutes {
        assert kept == d && kept' == d + [last];
      } else {
        assert kept' == kept;
      }
      forall i | 0 <= i < |init|
        ensures init[i] in kept <==> routes[i] in kept'
      {
        DistinctHolds(init, i);
      }
    }
  }

  // ---- Counting triples ----

  function Pairs<A, B>(xs: set<A>, ys: set<B>): set<(A, B)> {
    set x <- xs, y <- ys :: (x, y)
  }

  lemma {:induction false} RowSize<A, B>(x: A, ys: set<B>)
    ensures |set y <- ys :: (x, y)| == |ys|
    decreases |ys|
  {
    if ys != {} {
      var y :| y in ys;
      RowSize(x, ys - {y});
      assert (set z <- ys :: (x, z)) == (set z <- ys - {y} :: (x, z)) + {(x, y)};
    }
  }

  lemma PairsSplit<A, B>(xs: set<A>, ys: set<B>, x: A)
    requires x in xs
    ensures Pairs(xs, ys) == Pairs(xs - {x}, ys) + (set y <- ys :: (x, y))
    ensures Pairs(xs - {x}, ys) !! (set y <- ys :: (x, y))
  {
  }

  lemma OneMoreRow(rows: nat, width: nat)
    ensures (rows + 1) * width == rows * width + width
  {
  }

  lemma {:induction false} PairsSize<A, B>(xs: set<A>, ys: set<B>)
    ensures |Pairs(xs, ys)| == |xs| * |ys|
    decreases |xs|
  {
    if xs != {} {
      var x :| x in xs;
      PairsSize(xs - {x}, ys);
      RowSize(x, ys);
      PairsSplit(xs, ys, x);
      OneMoreRow(|xs - {x}|, |ys|);
    }
  }

  lemma {:induction false} SubsetSize<A>(xs: set<A>, ys: set<A>)
    requires xs <= ys
    ensures |xs| <= |ys|
    decreases |xs|
  {
    if xs != {} {
      var x :| x in xs;
      SubsetSize(xs - {x}, ys - {x});
    }
  }

  lemma {:induction false} ElementsSize(s: seq<string>)
    ensures |set x | x in s| <= |s|
  {
    if s != [] {
      var init := s[..|s| - 1];
      ElementsSize(init);
      var all, few := set x | x in s, set x | x in init;
      assert all <= few + {s[|s| - 1]};
      SubsetSize(all, few + {s[|s| - 1]});
    }
  }

  function Elements(s: seq<string>): set<string> {
    set x | x in s
  }

  predicate IsRouteLabel(route: string, seen: seq<string>) {
    route in seen || route == OVERFLOW_ROUTE || route == UNMATCHED_ROUTE
  }

  lemma ProductBound(a: nat, b: nat, m: nat, r: nat)
    requires a <= m && b <= r
    ensures a * b <= m * r
  {
    assert (m - a) * b >= 0 && m * (r - b) >= 0;
  }

  /** Triples (method, route, status) whose parts come from the fixed methods,
      at most n minted routes and the two sentinels, and the fixed statuses:
      there are at most 10 (n + 2) 5 of them. */
  lemma SeriesBound(triples: set<((string, string), string)>, seen: seq<string>, n: nat)
    requires |seen| <= n
    requires forall t <- triples :: IsMethodLabel(t.0.0) && IsRouteLabel(t.0.1, seen) && t.1 in STATUSES
    ensures |triples| <= 10 * (n + 2) * 5
  {
    var ms, rs := ALLOWED_METHODS + ["OTHER"], seen + [OVERFLOW_ROUTE, UNMATCHED_ROUTE];
    var methods, routes, statuses := Elements(ms), Elements(rs), Elements(STATUSES);
    ElementsSize(ms);
    ElementsSize(rs);
    ElementsSize(STATUSES);
    forall t <- triples ensures t in Pairs(Pairs(methods, routes), statuses) {
      MethodInList(t.0.0);
      assert t.0.0 in methods && t.0.1 in routes && t.1 in statuses;
    }
    PairsSize(methods, routes);
    PairsSize(Pairs(methods, routes), statuses);
    SubsetSize(triples, Pairs(Pairs(methods, routes), statuses));
    ProductBound(|methods|, |routes|, 10, n + 2);
    ProductBound(|methods| * |routes|, |statuses|, 10 * (n + 2), 5);
  }

  lemma MethodInList(m: string)
    requires IsMethodLabel(m)
    ensures m in ALLOWED_METHODS + ["OTHER"]
  {
    if m == "OTHER" { assert (ALLOWED_METHODS + ["OTHER"])[9] == "OTHER"; }
  }
}
