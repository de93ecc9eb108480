/** Which profile owns a packet, and whether a workflow's target can answer at all.

    A profile reference resolves to a profile or fails to resolve; a resolved profile is usable or not
    (its dialect failed to load). */
module Routing {
  import opened Wrappers
  import opened StableSorting

  /** A route id after `normalizeId`: the wildcard or a number in 0..255. */
  datatype Id = Any | Exactly(id: int)

  datatype RouteConfig = RouteConfig(sysid: Id, compid: Id, profile: string)

  datatype Route = Route(sysid: Id, compid: Id, profile: string, index: nat)

  datatype Profile = Profile(name: string, usable: bool)

  datatype Mode = SingleProfile | Routed

  datatype Router = Router(
    mode: Mode, defaultProfile: Option<Profile>, acceptedSysids: seq<int>, acceptedCompids: seq<int>,
    unmatchedDefault: bool, resolve: map<string, Profile>, routes: seq<Route>)

  datatype Reason =
    | ProfileUnresolved | ProfileInvalid | UnmatchedDefault | UnmatchedReject | SysidRejected | CompidRejected

  /** `profile` is absent when the router has no default profile to hand out. */
  datatype Decision = Accepted(profile: Option<Profile>, reason: Option<Reason>) | Rejected(why: Reason)

  // The route table

  function Specificity(r: Route): int {
    (if r.sysid.Exactly? then 2 else 0) + (if r.compid.Exactly? then 1 else 0)
  }

  function TableOrder(): (Route, Route) -> bool {
    (a: Route, b: Route) =>
      Specificity(a) > Specificity(b) || (Specificity(a) == Specificity(b) && a.index <= b.index)
  }

  function Numbered(configs: seq<RouteConfig>): (r: seq<Route>)
    ensures |r| == |configs|
    ensures forall i :: 0 <= i < |r| ==> r[i] == Route(configs[i].sysid, configs[i].compid, configs[i].profile, i)
  {
    seq(|configs|, i requires 0 <= i < |configs| => Route(configs[i].sysid, configs[i].compid, configs[i].profile, i))
  }

  function BuildTable(configs: seq<RouteConfig>): seq<Route> {
    Sort(TableOrder(), Numbered(configs))
  }

  predicate Covers(id: Id, n: int) {
    id.Any? || id.id == n
  }

  predicate Matches(r: Route, sysid: int, compid: int) {
    Covers(r.sysid, sysid) && Covers(r.compid, compid)
  }

  function Match(routes: seq<Route>, sysid: int, compid: int): Option<Route> {
    if routes == [] then None
    else if Matches(routes[0], sysid, compid) then Some(routes[0])
    else Match(routes[1..], sysid, compid)
  }

  /** An exact system id beats the wildcard; of two entries alike in that, an exact component id beats the wildcard. */
  predicate Beats(a: Route, b: Route) {
    || (a.sysid.Exactly? && b.sysid.Any?)
    || (a.sysid.Exactly? == b.sysid.Exactly? && a.compid.Exactly? && b.compid.Any?)
  }

  /** `best` is what the configuration promises: no matching entry beats it, and it comes first of those that it does
      not beat. */
  ghost predicate IsBest(configs: seq<RouteConfig>, sysid: int, compid: int, best: nat) {
    && best < |configs| && Matches(Numbered(configs)[best], sysid, compid)
    && forall i :: 0 <= i < |configs| && Matches(Numbered(configs)[i], sysid, compid) ==>
         Beats(Numbered(configs)[best], Numbered(configs)[i])
         || (!Beats(Numbered(configs)[i], Numbered(configs)[best]) && best <= i)
  }

  lemma {:induction false} MatchIsFirst(routes: seq<Route>, sysid: int, compid: int)
    ensures var m := Match(routes, sysid, compid);
      if m.None? then forall r :: r in routes ==> !Matches(r, sysid, compid)
      else exists i :: 0 <= i < |routes| && routes[i] == m.value && Matches(m.value, sysid, compid)
             && forall k :: 0 <= k < i ==> !Matches(routes[k], sysid, compid)
  {
    if routes != [] && !Matches(routes[0], sysid, compid) {
      MatchIsFirst(routes[1..], sysid, compid);
      assert routes == [routes[0]] + routes[1..];
      var m := Match(routes[1..], sysid, compid);
      if m.Some? {
        var i :| 0 <= i < |routes[1..]| && routes[1..][i] == m.value
          && forall k :: 0 <= k < i ==> !Matches(routes[1..][k], sysid, compid);
        assert routes[i + 1] == m.value;
        forall k | 0 <= k < i + 1 ensures !Matches(routes[k], sysid, compid) {
          if k > 0 {
            assert routes[k] == routes[1..][k - 1];
          }
        }
      }
    }
  }

  /** Matching against the sorted table finds the best entry of the unsorted configuration, or nothing
      when no entry matches. */
  lemma MatchFindsBest(configs: seq<RouteConfig>, sysid: int, compid: int)
    ensures var m := Match(BuildTable(configs), sysid, compid);
      if m.Some? then m.value.index < |configs| && m.value == Numbered(configs)[m.value.index]
                      && IsBest(configs, sysid, compid, m.value.index)
      else forall i :: 0 <= i < |configs| ==> !Matches(Numbered(configs)[i], sysid, compid)
  {
    var table, plain := BuildTable(configs), Numbered(configs);
    SortFacts(TableOrder(), plain);
    MatchIsFirst(table, sysid, compid);
    var m := Match(table, sysid, compid);
    if m.Some? {
      FirstMatchLeads(table, sysid, compid);
      assert m.value in table && m.value in plain;
      forall c | 0 <= c < |plain| && Matches(plain[c], sysid, compid) ensures TableOrder()(m.value, plain[c]) {
        assert plain[c] in table;
      }
    } else {
      forall c | 0 <= c < |plain| ensures !Matches(plain[c], sysid, compid) {
        assert plain[c] in table;
      }
    }
  }

  lemma FirstMatchLeads(table: seq<Route>, sysid: int, compid: int)
    requires Ordered(TableOrder(), table) && Match(table, sysid, compid).Some?
    ensures forall route :: route in table && Matches(route, sysid, compid) ==>
      TableOrder()(Match(table, sysid, compid).value, route)
  {
    MatchIsFirst(table, sysid, compid);
    var m := Match(table, sysid, compid).value;
    var i :| 0 <= i < |table| && table[i] == m && forall k :: 0 <= k < i ==> !Matches(table[k], sysid, compid);
    forall route | route in table && Matches(route, sysid, compid) ensures TableOrder()(m, route) {
      var j :| 0 <= j < |table| && table[j] == route;
      assert i <= j;
    }
  }

  // Routing one packet

  function RoutePacket(r: Router, sysid: int, compid: int): Decision {
    if r.mode.Routed? then
      var m := Match(r.routes, sysid, compid);
      if m.Some? then
        if m.value.profile in r.resolve then Accepted(Some(r.resolve[m.value.profile]), None)
        else Rejected(ProfileUnresolved)
      else if r.unmatchedDefault && r.defaultProfile.Some? then Accepted(r.defaultProfile, Some(UnmatchedDefault))
      else Rejected(UnmatchedReject)
    else if r.acceptedSysids != [] && sysid !in r.acceptedSysids then Rejected(SysidRejected)
    else if r.acceptedCompids != [] && compid !in r.acceptedCompids then Rejected(CompidRejected)
    else Accepted(r.defaultProfile, None)
  }

  predicate Usable(profile: Option<Profile>) {
    profile.None? || profile.value.usable
  }

  predicate Lets(accepted: seq<int>, id: int) {
    accepted == [] || id in accepted
  }

  /** What `route` decides.  With a table, the best entry decides for whom it matches, by whether its profile resolves,
      and the policy for unmatched packets for everyone else.  Without one, both filters must let the packet through. */
  lemma RouteDecides(r: Router, configs: seq<RouteConfig>, sysid: int, compid: int)
    requires r.routes == BuildTable(configs)
    ensures r.mode.SingleProfile? ==>
      && (RoutePacket(r, sysid, compid) == Accepted(r.defaultProfile, None) <==>
            Lets(r.acceptedSysids, sysid) && Lets(r.acceptedCompids, compid))
      && (RoutePacket(r, sysid, compid) == Rejected(SysidRejected) <==> !Lets(r.acceptedSysids, sysid))
      && (RoutePacket(r, sysid, compid) == Rejected(CompidRejected) <==>
            Lets(r.acceptedSysids, sysid) && !Lets(r.acceptedCompids, compid))
    ensures r.mode.Routed? ==> forall best: nat :: IsBest(configs, sysid, compid, best) ==>
      RoutePacket(r, sysid, compid) ==
        if configs[best].profile in r.resolve then Accepted(Some(r.resolve[configs[best].profile]), None)
        else Rejected(ProfileUnresolved)
    ensures r.mode.Routed? && (forall i :: 0 <= i < |configs| ==> !Matches(Numbered(configs)[i], sysid, compid)) ==>
      RoutePacket(r, sysid, compid) ==
        if r.unmatchedDefault && r.defaultProfile.Some? then Accepted(r.defaultProfile, Some(UnmatchedDefault))
        else Rejected(UnmatchedReject)
  {
    MatchFindsBest(configs, sysid, compid);
    var m := Match(r.routes, sysid, compid);
    forall best: nat | IsBest(configs, sysid, compid, best) ensures m.Some? && best == m.value.index {
      assert Matches(Numbered(configs)[best], sysid, compid);
    }
  }

  // The target of a workflow

  /** Why the route hands out no usable profile, if it does not. */
  function Defect(r: Router, route: Route): Option<Reason> {
    if route.profile !in r.resolve then Some(ProfileUnresolved)
    else if !r.resolve[route.profile].usable then Some(ProfileInvalid)
    else None
  }

  predicate Concerns(route: Route, sysid: int) {
    Covers(route.sysid, sysid) && route.compid != Exactly(0)
  }

  /** The rest of the scan over the table, given the components already claimed by broken routes. */
  function Scan(r: Router, sysid: int, rest: seq<Route>, shadowed: set<int>, blocked: Option<Reason>): Decision {
    if rest == [] then
      if r.unmatchedDefault && r.defaultProfile.Some? then Accepted(r.defaultProfile, Some(UnmatchedDefault))
      else Rejected(if blocked.Some? then blocked.value else UnmatchedReject)
    else
      var route := rest[0];
      var defect := Defect(r, route);
      if !Concerns(route, sysid) || (route.compid.Exactly? && route.compid.id in shadowed) then
        Scan(r, sysid, rest[1..], shadowed, blocked)
      else if defect.None? then Accepted(Some(r.resolve[route.profile]), None)
      else if route.compid.Any? then Rejected(defect.value)
      else Scan(r, sysid, rest[1..], shadowed + {route.compid.id}, defect)
  }

  /** `routeWorkflowTarget`, loop and all. */
  method RouteWorkflowTarget(r: Router, sysid: int, compid: int) returns (d: Decision)
    ensures d == WorkflowTarget(r, sysid, compid)
  {
    if compid != 0 {
      var direct := RoutePacket(r, sysid, compid);
      if direct.Accepted? && !Usable(direct.profile) {
        return Rejected(ProfileInvalid);
      }
      return direct;
    }
    if r.mode.Routed? {
      var blocked: Option<Reason> := None;
      var shadowed: set<int> := {};
      for k := 0 to |r.routes|
        invariant Scan(r, sysid, r.routes[k..], shadowed, blocked) == Scan(r, sysid, r.routes, {}, None)
      {
        var route := r.routes[k];
        if !Covers(route.sysid, sysid) || route.compid == Exactly(0) {
          continue;
        }
        if route.compid.Exactly? && route.compid.id in shadowed {
          continue;
        }
        var defect := Defect(r, route);
        if defect.None? {
          return Accepted(Some(r.resolve[route.profile]), None);
        }
        if route.compid.Any? {
          return Rejected(defect.value);
        }
        shadowed := shadowed + {route.compid.id};
        blocked := defect;
      }
      if r.unmatchedDefault && r.defaultProfile.Some? {
        return Accepted(r.defaultProfile, Some(UnmatchedDefault));
      }
      return Rejected(if blocked.Some? then blocked.value else UnmatchedReject);
    }
    if r.acceptedSysids != [] && sysid !in r.acceptedSysids {
      return Rejected(SysidRejected);
    }
    if r.acceptedCompids != [] && forall c :: c in r.acceptedCompids ==> c == 0 {
      return Rejected(CompidRejected);
    }
    return Accepted(r.defaultProfile, None);
  }

  function WorkflowTarget(r: Router, sysid: int, compid: int): Decision {
    if compid != 0 then
      var direct := RoutePacket(r, sysid, compid);
      if direct.Accepted? && !Usable(direct.profile) then Rejected(ProfileInvalid) else direct
    else if r.mode.Routed? then Scan(r, sysid, r.routes, {}, None)
    else if r.acceptedSysids != [] && sysid !in r.acceptedSysids then Rejected(SysidRejected)
    else if r.acceptedCompids != [] && forall c :: c in r.acceptedCompids ==> c == 0 then Rejected(CompidRejected)
    else Accepted(r.defaultProfile, None)
  }

  // What the scan is meant to decide

  predicate RealComponent(c: int) {
    1 <= c <= 255
  }

  /** Replies of component `c` reach the workflow and can be decoded. */
  predicate Admits(r: Router, sysid: int, c: int) {
    RoutePacket(r, sysid, c).Accepted? && Usable(RoutePacket(r, sysid, c).profile)
  }

  ghost predicate Viable(r: Router, sysid: int) {
    exists c :: RealComponent(c) && Admits(r, sysid, c)
  }

  /** Ids are uint8, as `normalizeId` and the strict id lists guarantee. */
  ghost predicate ValidIds(r: Router) {
    && (forall route :: route in r.routes && route.compid.Exactly? ==> 0 <= route.compid.id <= 255)
    && (forall c :: c in r.acceptedCompids ==> 0 <= c <= 255)
  }

  /** Component `c` has a route of its own, and that route is broken. */
  predicate BrokenExactly(r: Router, sysid: int, c: int) {
    var m := Match(r.routes, sysid, c);
    m.Some? && m.value.compid.Exactly? && Defect(r, m.value).Some?
  }

  ghost predicate AllBroken(r: Router, sysid: int) {
    forall c :: RealComponent(c) ==> BrokenExactly(r, sysid, c)
  }

  ghost predicate OnlyUnusableDefault(r: Router, sysid: int) {
    && FallsToDefault(r) && !r.defaultProfile.value.usable
    && forall c :: RealComponent(c) ==> Match(r.routes, sysid, c).None? || BrokenExactly(r, sysid, c)
  }

  predicate FallsToDefault(r: Router) {
    r.unmatchedDefault && r.defaultProfile.Some?
  }

  /** No route names component 256, so what it would get is what every unnamed component gets. */
  const UNNAMED_COMPONENT := 256

  predicate UnnamedAccepted(r: Router, sysid: int) {
    var m := Match(r.routes, sysid, UNNAMED_COMPONENT);
    if m.Some? then Defect(r, m.value).None? else FallsToDefault(r)
  }

  /** The two configurations for which the answer is wrong: an unusable default profile is all that is
      left for the responders, or all 255 components have broken routes of their own while a component
      that does not exist would be accepted. */
  ghost predicate Misjudged(r: Router, sysid: int) {
    if r.mode.Routed? then
      UnnamedAccepted(r, sysid) && (AllBroken(r, sysid) || OnlyUnusableDefault(r, sysid))
    else
      PassesFilters(r, sysid) && !Usable(r.defaultProfile)
  }

  /** The accept filters let some real component of the system through. */
  predicate PassesFilters(r: Router, sysid: int) {
    && (r.acceptedSysids == [] || sysid in r.acceptedSysids)
    && (r.acceptedCompids == [] || exists c :: c in r.acceptedCompids && c != 0)
  }

  // How far the scan has got

  /** After the routes in `seen`: no route for every component concerned the system, and each component
      named by a route of the system is shadowed by a broken one. */
  ghost predicate Scanned(r: Router, sysid: int, seen: seq<Route>, shadowed: set<int>) {
    && (forall route :: route in seen && Concerns(route, sysid) ==>
        route.compid.Exactly? && route.compid.id in shadowed)
    && (forall c :: c in shadowed ==> RealComponent(c) && BrokenIn(r, seen, sysid, c))
  }

  predicate BrokenIn(r: Router, routes: seq<Route>, sysid: int, c: int) {
    var m := Match(routes, sysid, c);
    m.Some? && m.value.compid.Exactly? && Defect(r, m.value).Some?
  }

  lemma {:induction false} MatchConcat(a: seq<Route>, b: seq<Route>, sysid: int, c: int)
    ensures Match(a + b, sysid, c) == if Match(a, sysid, c).Some? then Match(a, sysid, c) else Match(b, sysid, c)
  {
    if a == [] {
      assert a + b == b;
    } else {
      assert (a + b)[1..] == a[1..] + b;
      MatchConcat(a[1..], b, sysid, c);
    }
  }

  /** A component that is not shadowed has met no route yet. */
  lemma UnshadowedIsUnmatched(r: Router, sysid: int, seen: seq<Route>, shadowed: set<int>, c: int)
    requires Scanned(r, sysid, seen, shadowed) && c != 0 && c !in shadowed
    ensures Match(seen, sysid, c).None?
  {
    MatchIsFirst(seen, sysid, c);
  }

  lemma ScannedGrows(r: Router, sysid: int, seen: seq<Route>, shadowed: set<int>, route: Route)
    requires Scanned(r, sysid, seen, shadowed)
    requires route.compid.Exactly? && 0 <= route.compid.id <= 255
    requires !Concerns(route, sysid) || route.compid.id in shadowed || Defect(r, route).Some?
    ensures Scanned(r, sysid, seen + [route], if Concerns(route, sysid) then shadowed + {route.compid.id} else shadowed)
  {
    var after := if Concerns(route, sysid) then shadowed + {route.compid.id} else shadowed;
    forall c | c in after ensures RealComponent(c) && BrokenIn(r, seen + [route], sysid, c) {
      MatchConcat(seen, [route], sysid, c);
      if c !in shadowed {
        UnshadowedIsUnmatched(r, sysid, seen, shadowed, c);
      }
    }
  }

  lemma ScannedSkips(r: Router, sysid: int, seen: seq<Route>, shadowed: set<int>, route: Route)
    requires Scanned(r, sysid, seen, shadowed) && !Concerns(route, sysid)
    ensures Scanned(r, sysid, seen + [route], shadowed)
  {
    forall c | c in shadowed ensures BrokenIn(r, seen + [route], sysid, c) {
      MatchConcat(seen, [route], sysid, c);
    }
  }

  lemma BrokenIsNotAdmitted(r: Router, sysid: int, c: int)
    requires r.mode.Routed? && BrokenExactly(r, sysid, c)
    ensures !Admits(r, sysid, c)
  {
  }

  /** What the scan returns, told by what each component would get. */
  ghost predicate Verdict(r: Router, sysid: int, d: Decision) {
    if d.Accepted? then
      || (exists c :: RealComponent(c) && Admits(r, sysid, c) && RoutePacket(r, sysid, c).profile == d.profile)
      || (UnnamedAccepted(r, sysid) && (AllBroken(r, sysid) || OnlyUnusableDefault(r, sysid)))
    else
      !Viable(r, sysid) && !UnnamedAccepted(r, sysid)
  }

  lemma Lookup(r: Router, sysid: int, seen: seq<Route>, rest: seq<Route>, shadowed: set<int>, c: int)
    requires r.routes == seen + rest && Scanned(r, sysid, seen, shadowed) && c != 0
    ensures c in shadowed ==> BrokenExactly(r, sysid, c)
    ensures c !in shadowed ==> Match(r.routes, sysid, c) == Match(rest, sysid, c)
  {
    MatchConcat(seen, rest, sysid, c);
    if c !in shadowed {
      UnshadowedIsUnmatched(r, sysid, seen, shadowed, c);
    }
  }

  lemma EndVerdict(r: Router, sysid: int, shadowed: set<int>, blocked: Option<Reason>)
    requires r.mode.Routed? && ValidIds(r) && Scanned(r, sysid, r.routes, shadowed)
    ensures Verdict(r, sysid, Scan(r, sysid, [], shadowed, blocked))
  {
    assert r.routes == r.routes + [];
    forall c | c != 0 ensures if c in shadowed then BrokenExactly(r, sysid, c) else Match(r.routes, sysid, c).None? {
      Lookup(r, sysid, r.routes, [], shadowed, c);
    }
    assert Match(r.routes, sysid, UNNAMED_COMPONENT).None?;
    forall c | RealComponent(c) && c !in shadowed && FallsToDefault(r)
      ensures RoutePacket(r, sysid, c) == Accepted(r.defaultProfile, Some(UnmatchedDefault))
    {
    }
    forall c | RealComponent(c) && Admits(r, sysid, c) ensures FallsToDefault(r) {
      if c in shadowed {
        BrokenIsNotAdmitted(r, sysid, c);
      }
    }
  }

  lemma WildcardVerdict(
      r: Router, sysid: int, seen: seq<Route>, rest: seq<Route>, shadowed: set<int>, blocked: Option<Reason>)
    requires r.mode.Routed? && ValidIds(r) && r.routes == seen + rest && Scanned(r, sysid, seen, shadowed)
    requires rest != [] && Concerns(rest[0], sysid) && rest[0].compid.Any?
    ensures Verdict(r, sysid, Scan(r, sysid, rest, shadowed, blocked))
  {
    var route := rest[0];
    forall c | c != 0
      ensures if c in shadowed then BrokenExactly(r, sysid, c) else Match(r.routes, sysid, c) == Some(route)
    {
      Lookup(r, sysid, seen, rest, shadowed, c);
    }
    assert Match(r.routes, sysid, UNNAMED_COMPONENT) == Some(route);
    if Defect(r, route).None? {
      if c :| RealComponent(c) && c !in shadowed {
        assert Admits(r, sysid, c);
      }
    } else {
      forall c | RealComponent(c) ensures !Admits(r, sysid, c) {
        if c in shadowed {
          BrokenIsNotAdmitted(r, sysid, c);
        }
      }
    }
  }

  lemma {:induction false} ScanVerdict(
      r: Router, sysid: int, seen: seq<Route>, rest: seq<Route>, shadowed: set<int>, blocked: Option<Reason>)
    requires r.mode.Routed? && ValidIds(r) && r.routes == seen + rest && Scanned(r, sysid, seen, shadowed)
    ensures Verdict(r, sysid, Scan(r, sysid, rest, shadowed, blocked))
    decreases |rest|
  {
    if rest == [] {
      assert r.routes == seen;
      EndVerdict(r, sysid, shadowed, blocked);
      return;
    }
    var route := rest[0];
    assert route in r.routes;
    assert seen + rest == (seen + [route]) + rest[1..];
    if Concerns(route, sysid) && route.compid.Any? {
      WildcardVerdict(r, sysid, seen, rest, shadowed, blocked);
    } else if !Concerns(route, sysid) {
      ScannedSkips(r, sysid, seen, shadowed, route);
      ScanVerdict(r, sysid, seen + [route], rest[1..], shadowed, blocked);
    } else if route.compid.id in shadowed {
      ScannedGrows(r, sysid, seen, shadowed, route);
      assert shadowed + {route.compid.id} == shadowed;
      ScanVerdict(r, sysid, seen + [route], rest[1..], shadowed, blocked);
    } else if Defect(r, route).Some? {
      ScannedGrows(r, sysid, seen, shadowed, route);
      ScanVerdict(r, sysid, seen + [route], rest[1..], shadowed + {route.compid.id}, Defect(r, route));
    } else {
      Lookup(r, sysid, seen, rest, shadowed, route.compid.id);
      assert Admits(r, sysid, route.compid.id);
    }
  }

  /** The one-pass scan decides whether some real component can answer, and decides it correctly exactly
      outside the two misjudged configurations.  For an addressed component the answer is the packet decision,
      made strict about usability. */
  lemma WorkflowTargetDecidesViability(r: Router, sysid: int)
    requires ValidIds(r)
    ensures (WorkflowTarget(r, sysid, 0).Accepted? <==> Viable(r, sysid)) <==> !Misjudged(r, sysid)
    ensures WorkflowTarget(r, sysid, 0).Accepted? && !Misjudged(r, sysid) ==>
      exists c :: RealComponent(c) && Admits(r, sysid, c)
                  && RoutePacket(r, sysid, c).profile == WorkflowTarget(r, sysid, 0).profile
    ensures forall c | c != 0 ::
      && (WorkflowTarget(r, sysid, c).Accepted? <==> Admits(r, sysid, c))
      && (WorkflowTarget(r, sysid, c).Accepted? ==> WorkflowTarget(r, sysid, c) == RoutePacket(r, sysid, c))
  {
    if r.mode.Routed? {
      assert [] + r.routes == r.routes;
      ScanVerdict(r, sysid, [], r.routes, {}, None);
      if UnnamedAccepted(r, sysid) && (AllBroken(r, sysid) || OnlyUnusableDefault(r, sysid)) {
        forall c | RealComponent(c) ensures !Admits(r, sysid, c) {
          if BrokenExactly(r, sysid, c) {
            BrokenIsNotAdmitted(r, sysid, c);
          }
        }
      }
    } else if WorkflowTarget(r, sysid, 0).Accepted? {
      var c := if r.acceptedCompids == [] then 1 else
        var c :| c in r.acceptedCompids && c != 0; c;
      assert RealComponent(c) && RoutePacket(r, sysid, c) == Accepted(r.defaultProfile, None);
    }
  }

  /** A usable default profile, and one component without a broken route of its own, are enough. */
  lemma UsableDefaultSuffices(r: Router, sysid: int, c: int)
    requires ValidIds(r) && Usable(r.defaultProfile)
    requires RealComponent(c) && !BrokenExactly(r, sysid, c)
    ensures WorkflowTarget(r, sysid, 0).Accepted? <==> Viable(r, sysid)
  {
    WorkflowTargetDecidesViability(r, sysid);
  }

  /** The route's profile cannot be had, for this reason. */
  predicate Lacks(r: Router, route: Route, why: Reason) {
    match why
    case ProfileUnresolved => route.profile !in r.resolve
    case ProfileInvalid => route.profile in r.resolve && !r.resolve[route.profile].usable
    case _ => false
  }

  /** Why a scan rejects: a defect of a route that concerns the system, or that none does. */
  lemma {:induction false} ScanSaysWhy(
      r: Router, sysid: int, rest: seq<Route>, shadowed: set<int>, blocked: Option<Reason>)
    requires blocked.None? ==> shadowed == {}
    ensures var d := Scan(r, sysid, rest, shadowed, blocked);
      d.Rejected? ==>
        && (d.why == UnmatchedReject || d.why == ProfileUnresolved || d.why == ProfileInvalid || blocked == Some(d.why))
        && (d.why == UnmatchedReject && blocked != Some(UnmatchedReject) ==>
              blocked.None? && forall route :: route in rest ==> !Concerns(route, sysid))
        && (d.why != UnmatchedReject ==>
              blocked == Some(d.why)
              || exists route :: route in rest && Concerns(route, sysid) && Lacks(r, route, d.why))
  {
    if rest != [] {
      var route := rest[0];
      var defect := Defect(r, route);
      assert rest == [route] + rest[1..];
      if !Concerns(route, sysid) || (route.compid.Exactly? && route.compid.id in shadowed) {
        ScanSaysWhy(r, sysid, rest[1..], shadowed, blocked);
      } else if defect.Some? && route.compid.Exactly? {
        ScanSaysWhy(r, sysid, rest[1..], shadowed + {route.compid.id}, defect);
      }
    }
  }

  /** The reason of a rejected component broadcast is real: unmatched means that no route concerns the system, any
      other that such a route is broken in this way. */
  lemma RejectionSaysWhy(r: Router, sysid: int)
    requires r.mode.Routed? && WorkflowTarget(r, sysid, 0).Rejected?
    ensures var why := WorkflowTarget(r, sysid, 0).why;
      if why == UnmatchedReject then forall route :: route in r.routes ==> !Concerns(route, sysid)
      else exists route :: route in r.routes && Concerns(route, sysid) && Lacks(r, route, why)
  {
    ScanSaysWhy(r, sysid, r.routes, {}, None);
  }

  /** Misjudged: unrouted responders fall to a default profile that cannot decode them. */
  lemma UnusableDefaultIsAccepted()
    ensures var r := Router(Routed, Some(Profile("broken", false)), [], [], true, map[], []);
      ValidIds(r) && WorkflowTarget(r, 1, 0).Accepted? && !Viable(r, 1)
  {
  }

  /** A route to a missing profile for every component there is. */
  function BrokenRoutes(): (r: seq<Route>)
    ensures |r| == 255 && forall i :: 0 <= i < 255 ==> r[i] == Route(Any, Exactly(i + 1), "gone", i)
  {
    seq(255, i requires 0 <= i < 255 => Route(Any, Exactly(i + 1), "gone", i))
  }

  /** Misjudged: with a broken route for each of the 255 components, the wildcard route serves nobody. */
  lemma AllBrokenIsAccepted()
    ensures var table := BrokenRoutes() + [Route(Any, Any, "ok", 255)];
      var r := Router(Routed, None, [], [], false, map["ok" := Profile("ok", true)], table);
      ValidIds(r) && Ordered(TableOrder(), table) && WorkflowTarget(r, 1, 0).Accepted? && !Viable(r, 1)
  {
    var wildcard := Route(Any, Any, "ok", 255);
    var table := BrokenRoutes() + [wildcard];
    var r := Router(Routed, None, [], [], false, map["ok" := Profile("ok", true)], table);
    forall c | RealComponent(c) ensures BrokenExactly(r, 1, c) {
      assert BrokenRoutes()[c - 1] in BrokenRoutes() && Matches(BrokenRoutes()[c - 1], 1, c);
      MatchIsFirst(BrokenRoutes(), 1, c);
      MatchConcat(BrokenRoutes(), [wildcard], 1, c);
    }
    MatchIsFirst(BrokenRoutes(), 1, UNNAMED_COMPONENT);
    MatchConcat(BrokenRoutes(), [wildcard], 1, UNNAMED_COMPONENT);
    WorkflowTargetDecidesViability(r, 1);
    forall c | RealComponent(c) ensures !Admits(r, 1, c) {
      BrokenIsNotAdmitted(r, 1, c);
    }
  }
}
