/**
 * The search and selection logic of `RouteSelector.tsx`: the routes shown
 * are those whose lower-cased name or number contains the lower-cased search
 * term; selecting or clearing reports the choice, closes the dropdown and
 * empties the search box.
 */
module RouteSelector {
  import opened Common
  import RouteModel

  /** `toLowerCase` on one character: A to Z map to a to z, everything else is kept. */
  function LowerChar(c: char): (d: char)
    ensures 'A' <= c <= 'Z' ==> d as int == c as int + 32
    ensures !('A' <= c <= 'Z') ==> d == c
  {
    if 'A' <= c <= 'Z' then (c as int + 32) as char else c
  }

  function ToLower(s: string): (t: string)
    ensures |t| == |s| && forall i :: 0 <= i < |s| ==> t[i] == LowerChar(s[i])
  {
    seq(|s|, i requires 0 <= i < |s| => LowerChar(s[i]))
  }

  /** Lower-casing twice changes nothing more. */
  lemma ToLowerIdempotent(s: string)
    ensures ToLower(ToLower(s)) == ToLower(s)
  {
  }

  /** `needle` occurs in `hay` starting at `i`. */
  predicate OccursAt(hay: string, needle: string, i: int)
  {
    0 <= i && i + |needle| <= |hay| && hay[i..i + |needle|] == needle
  }

  /** `hay.includes(needle)`, scanning start positions from the left. */
  function Includes(hay: string, needle: string): (b: bool)
    ensures b <==> exists i :: OccursAt(hay, needle, i)
    decreases |hay|
  {
    if |hay| < |needle| then
      false
    else if hay[..|needle|] == needle then
      assert OccursAt(hay, needle, 0);
      true
    else
      OccurrenceShift(hay, needle);
      Includes(hay[1..], needle)
  }

  /** Past a failed first position, an occurrence in `hay` is one in its tail, shifted by one. */
  lemma OccurrenceShift(hay: string, needle: string)
    requires |hay| >= 1 && !OccursAt(hay, needle, 0)
    ensures (exists i :: OccursAt(hay, needle, i)) <==> (exists j :: OccursAt(hay[1..], needle, j))
  {
    var tail := hay[1..];
    if i :| OccursAt(hay, needle, i) {
      assert i != 0;
      var a, b := tail[i - 1..i - 1 + |needle|], hay[i..i + |needle|];
      assert forall k :: 0 <= k < |a| ==> a[k] == b[k];
      assert a == b;
      assert OccursAt(tail, needle, i - 1);
    }
    if j :| OccursAt(tail, needle, j) {
      var a, b := hay[j + 1..j + 1 + |needle|], tail[j..j + |needle|];
      assert forall k :: 0 <= k < |a| ==> a[k] == b[k];
      assert a == b;
      assert OccursAt(hay, needle, j + 1);
    }
  }

  /** The filter's test for one route. */
  predicate Matches(term: string, r: RouteModel.Route)
  {
    Includes(ToLower(r.routeName), ToLower(term)) || Includes(ToLower(r.routeNumber), ToLower(term))
  }

  /** `filteredRoutes`. */
  function FilteredRoutes(routes: seq<RouteModel.Route>, term: string): (shown: seq<RouteModel.Route>)
    ensures forall i :: 0 <= i < |shown| ==> shown[i] in routes && Matches(term, shown[i])
    ensures forall i :: 0 <= i < |routes| && Matches(term, routes[i]) ==> routes[i] in shown
  {
    Filter(routes, r => Matches(term, r))
  }

  /** The shown routes keep the order of the loaded list. */
  lemma FilteredKeepsOrder(routes: seq<RouteModel.Route>, term: string)
    ensures IsSubsequence(FilteredRoutes(routes, term), routes)
  {
    FilterIsSubsequence(routes, r => Matches(term, r));
  }

  /** An empty search term shows every route. */
  lemma EmptyTermShowsAll(routes: seq<RouteModel.Route>)
    ensures FilteredRoutes(routes, "") == routes
  {
    forall r: RouteModel.Route ensures Matches("", r) {
      assert OccursAt(ToLower(r.routeName), "", 0);
    }
    FilterAll(routes, r => Matches("", r));
  }

  /** The search is case-insensitive: the term's case does not change what is shown. */
  lemma SearchIgnoresCase(routes: seq<RouteModel.Route>, term: string)
    ensures FilteredRoutes(routes, ToLower(term)) == FilteredRoutes(routes, term)
  {
    ToLowerIdempotent(term);
    FilterAgree(routes, r => Matches(ToLower(term), r), r => Matches(term, r));
  }

  /** Filters under predicates that agree everywhere are equal. */
  lemma {:induction false} FilterAgree<T>(s: seq<T>, p: T -> bool, q: T -> bool)
    requires forall x :: p(x) == q(x)
    ensures Filter(s, p) == Filter(s, q)
  {
    if s != [] {
      FilterAgree(s[1..], p, q);
    }
  }

  datatype Dropdown = Dropdown(isOpen: bool, searchTerm: string)

  /** What a handler leaves behind: the dropdown state and the route it reports to the parent (`null` for none). */
  datatype Selection = Selection(dropdown: Dropdown, reported: Option<RouteModel.Route>)

  /** `handleRouteSelect`: reports the route, closes the dropdown, empties the search. */
  function HandleRouteSelect(d: Dropdown, route: RouteModel.Route): (s: Selection)
    ensures s.reported == Some(route)
    ensures !s.dropdown.isOpen && s.dropdown.searchTerm == ""
    ensures FilteredRoutes([route], s.dropdown.searchTerm) == [route]
  {
    EmptyTermShowsAll([route]);
    Selection(Dropdown(false, ""), Some(route))
  }

  /** `clearSelection`: reports no route, closes the dropdown, empties the search. */
  function ClearSelection(d: Dropdown): (s: Selection)
    ensures s.reported.None?
    ensures !s.dropdown.isOpen && s.dropdown.searchTerm == ""
  {
    Selection(Dropdown(false, ""), None)
  }
}
