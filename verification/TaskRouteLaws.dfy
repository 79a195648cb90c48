/**
  What becomes of a launched background task: told of every hook, in both directions, from the maps
  before it alone.
 */
module TaskRouteLaws {
  import opened Wrappers
  import opened OrderedMap
  import opened TaskRoutes

  // ----- what a completion addresses -----

  /** The routes a hook finds unexpired. */
  function Unspent(s: State, now: int): map<Key, Route> {
    map r | r in s.routes.at && s.routes.at[r].expiresAt > now :: s.routes.at[r]
  }

  /**
    Completion n of a session takes route r of these: by its tool, if that has a route, and then a task id given
    besides must be an alias of it, or an alias of no route while it has none; else by an alias.
   */
  ghost predicate Takes(routes: map<Key, Route>, session: Name, n: Notification, r: Key) {
    && r in routes
    && if n.tool.Some? && Key(session, n.tool.value) in routes then
         && r == Key(session, n.tool.value)
         && (n.task.Some? && Key(session, n.task.value) !in routes[r].aliases ==>
               routes[r].aliases == {} && forall l :: l in routes ==> Key(session, n.task.value) !in routes[l].aliases)
       else
         n.task.Some? && Key(session, n.task.value) in routes[r].aliases
  }

  /** The routes left are these, in the order they had, with exactly their aliases. */
  ghost predicate RoutesLeft(s: State, next: State, keep: set<Key>) {
    && next.routes == Only(s.routes, keep) && next.routes.at.Keys == keep
    && next.aliases == map a | a in s.aliases && s.aliases[a] in keep :: s.aliases[a]
  }

  lemma LiveIs(s: State, now: int)
    requires s.routes.Valid() && |s.routes.keys| <= MAX_BACKGROUND_TASK_ROUTES
    ensures Live(s.routes, now) == Unspent(s, now).Keys
  {
    var p := Unexpired(s.routes.at, now);
    FilterMembers(s.routes.keys, p);
    FilterNested(s.routes.keys, In(s.routes.at.Keys), p);
    FilterAll(s.routes.keys, In(s.routes.at.Keys));
  }

  lemma FewerRoutesSane(s: State, p: State)
    requires Sane(s) && p == s.(routes := p.routes, aliases := AliasesOf(s.aliases, p.routes))
    requires p.routes.Valid() && |p.routes.keys| <= |s.routes.keys|
    requires forall l :: l in p.routes.at ==> l in s.routes.at && p.routes.at[l] == s.routes.at[l]
    ensures Sane(p)
  {
    PruneKeepsPending(s.turns, s.routes, p.routes);
    FewerRouted(s, p);
    FewerConsumed(s, p);
    FewerInverse(s, p);
    hide Pending, WellRouted, Consumed, Inverse, TurnsOk;
  }

  lemma FewerRouted(s: State, p: State)
    requires WellRouted(s.routes, s.issued)
    requires forall l :: l in p.routes.at ==> l in s.routes.at && p.routes.at[l] == s.routes.at[l]
    ensures WellRouted(p.routes, s.issued)
  {
    forall l | l in p.routes.at ensures RouteOk(l, p.routes.at[l], s.issued) {
      assert RouteOk(l, s.routes.at[l], s.issued);
    }
  }

  lemma FewerConsumed(s: State, p: State)
    requires Consumed(s.routes, s.consumed, s.issued)
    requires forall l :: l in p.routes.at ==> l in s.routes.at && p.routes.at[l] == s.routes.at[l]
    ensures Consumed(p.routes, s.consumed, s.issued)
  {
  }

  lemma FewerInverse(s: State, p: State)
    requires Inverse(s.routes, s.aliases) && p.aliases == AliasesOf(s.aliases, p.routes)
    requires forall l :: l in p.routes.at ==> l in s.routes.at && p.routes.at[l] == s.routes.at[l]
    ensures Inverse(p.routes, p.aliases)
  {
  }

  lemma PrunedLeaves(s: State, now: int)
    requires Sane(s)
    ensures var p := Pruned(s, now);
      && RoutesLeft(s, p, Unspent(s, now).Keys) && p.routes.at == Unspent(s, now)
      && Sane(p) && p == s.(routes := p.routes, aliases := p.aliases)
  {
    hide Live, Filter, Pending, WellRouted, Consumed, Inverse, TurnsOk;
    LiveIs(s, now);
    OnlyValid(s.routes, Live(s.routes, now));
    FewerRoutesSane(s, Pruned(s, now));
  }

  lemma RouteInIs(p: State, session: Name, n: Notification, r: Key)
    requires Inverse(p.routes, p.aliases)
    ensures RouteIn(p, session, n) == Some(r) <==> Takes(p.routes.at, session, n, r)
  {
  }

  // ----- which turns stay -----

  /** How many of these turns are of one kind. */
  function Rivals(keys: seq<Key>, at: map<Key, Turn>, active: bool): nat {
    if keys == [] then 0
    else Rivals(keys[1..], at, active) + if keys[0] in at && IsActiveBackground(at[keys[0]]) == active then 1 else 0
  }

  /**
    Fewer than 16 turns with background work, or fewer than 32 others, are newer than the turn of that kind under l.
   */
  ghost predicate Outlives(turns: Turns, l: Key)
    requires l in turns.at
  {
    var active := IsActiveBackground(turns.at[l]);
    exists i :: 0 <= i < |turns.keys| && turns.keys[i] == l && Rivals(turns.keys[i + 1..], turns.at, active) <
        if active then MAX_ACTIVE_BACKGROUND_TURNS else MAX_RETAINED_TURNS
  }

  /** Only the newest of each kind are left, in the order they had. */
  ghost predicate Evicted(turns: Turns, next: Turns) {
    next == Only(turns, set l | l in turns.at && Outlives(turns, l))
  }

  lemma {:induction false} RivalsAre(keys: seq<Key>, at: map<Key, Turn>, active: bool)
    ensures Rivals(keys, at, active) == |Filter(keys, Kind(at, active))|
  {
    if keys != [] { RivalsAre(keys[1..], at, active); }
  }

  /** Being among the newest n of a kind is having fewer than n newer ones. */
  lemma AmongNewest(keys: seq<Key>, p: Key -> bool, n: nat, i: nat)
    requires Distinct(keys) && i < |keys| && p(keys[i])
    ensures keys[i] in Newest(Filter(keys, p), n) <==> |Filter(keys[i + 1..], p)| < n
  {
    var k, front, back := keys[i], Filter(keys[..i], p), Filter(keys[i + 1..], p);
    var f := Filter(keys, p);
    assert keys == keys[..i] + ([k] + keys[i + 1..]);
    FilterConcat(keys[..i], [k] + keys[i + 1..], p);
    FilterConcat([k], keys[i + 1..], p);
    FilterDistinct(keys, p);
    assert Filter([k], p) == [k];
    hide Filter;
    assert f == front + ([k] + back) && f[|front|] == k;
    if |f| > n {
      if |back| < n { assert Newest(f, n)[|front| - (|f| - n)] == k; }
    }
  }

  function Limit(active: bool): nat { if active then MAX_ACTIVE_BACKGROUND_TURNS else MAX_RETAINED_TURNS }

  lemma OutlivesAt(turns: Turns, i: nat)
    requires Distinct(turns.keys) && i < |turns.keys| && turns.keys[i] in turns.at
    ensures var active := IsActiveBackground(turns.at[turns.keys[i]]);
      Outlives(turns, turns.keys[i]) <==> Rivals(turns.keys[i + 1..], turns.at, active) < Limit(active)
  {
    hide Rivals, IsActiveBackground;
  }

  lemma RetainedOfKind(turns: Turns, l: Key)
    requires turns.Valid() && l in turns.at
    ensures var active := IsActiveBackground(turns.at[l]);
      l in Retained(turns) <==> l in Newest(Filter(turns.keys, Kind(turns.at, active)), Limit(active))
  {
    hide Filter, Newest, IsActiveBackground;
    FilterMembers(turns.keys, Kind(turns.at, true));
    FilterMembers(turns.keys, Kind(turns.at, false));
    NewestAmong(Filter(turns.keys, Kind(turns.at, true)), MAX_ACTIVE_BACKGROUND_TURNS);
    NewestAmong(Filter(turns.keys, Kind(turns.at, false)), MAX_RETAINED_TURNS);
  }

  lemma RetainedMeans(turns: Turns, l: Key)
    requires turns.Valid() && l in turns.at
    ensures l in Retained(turns) <==> Outlives(turns, l)
  {
    hide Filter, Newest, IsActiveBackground, Outlives, Retained, Rivals, Distinct;
    var active := IsActiveBackground(turns.at[l]);
    var i :| 0 <= i < |turns.keys| && turns.keys[i] == l;
    RetainedOfKind(turns, l);
    AmongNewest(turns.keys, Kind(turns.at, active), Limit(active), i);
    RivalsAre(turns.keys[i + 1..], turns.at, active);
    OutlivesAt(turns, i);
  }

  lemma NewestAmong(f: seq<Key>, n: nat)
    ensures forall k :: k in Newest(f, n) ==> k in f
  {
  }

  lemma RetainedEvicts(turns: Turns)
    requires turns.Valid()
    ensures Evicted(turns, Only(turns, Retained(turns)))
  {
    hide Retained, Outlives, Filter;
    forall l | l in turns.at ensures l in Retained(turns) <==> Outlives(turns, l) { RetainedMeans(turns, l); }
    var keep := set l | l in turns.at && Outlives(turns, l);
    FilterAgree(turns.keys, In(Retained(turns)), In(keep));
  }

  /** The turns with t, bound under k as the newest. */
  function With(turns: Turns, k: Key, t: Turn): Turns { OrdMap(Drop(turns.keys, k) + [k], turns.at[k := t]) }

  lemma PlacedEvicts(s: State, k: Key, t: Turn)
    requires s.turns.Valid() && !IsActiveBackground(t)
    ensures Evicted(With(s.turns, k, t), Placed(s, k, t).turns)
    ensures k in Placed(s, k, t).turns.at && Placed(s, k, t).turns.at[k] == t
    ensures Placed(s, k, t) == s.(turns := Placed(s, k, t).turns, issued := s.issued + 1)
  {
    hide Retained, Filter, Drop, Outlives, Evicted;
    var turns := s.turns.Delete(k).Put(k, t);
    DeleteValid(s.turns, k);
    PutValid(s.turns.Delete(k), k, t);
    assert turns == With(s.turns, k, t);
    RetainedEvicts(turns);
    NewestOutlives(turns, k);
    RetainedMeans(turns, k);
  }

  lemma NewestOutlives(turns: Turns, k: Key)
    requires turns.keys != [] && turns.keys[|turns.keys| - 1] == k && k in turns.at
    ensures Outlives(turns, k)
  {
    assert turns.keys[|turns.keys| - 1 + 1..] == [];
  }

  // ----- binding a prompt -----

  /** The turns once the owner of r has been told that it is over: it waits for it no longer, and its agent stops. */
  function Told(turns: Turns, r: Route, agent: Option<Name>): Turns {
    OrdMap(turns.keys, map l | l in turns.at ::
      if l == r.owner then
        var t := turns.at[l];
        t.(pending := t.pending - {r.tool},
           agents := if agent.Some? && agent.value in t.agents then t.agents[agent.value := false] else t.agents)
      else turns.at[l])
  }

  /**
    A completion that takes a route, is authorised and finds it unexpired still uses it up, and is bound in its
    chat as the newest turn.
   */
  lemma CompletionBinds(s: State, k: Key, n: Notification, now: int, later: int, r: Key)
    requires Sane(s) && Takes(Unspent(s, now), k.session, n, r) && s.routes.at[r].expiresAt > later
    ensures var next := Next(s, BindTurn(k, Task(n), true, now, later));
      var route := s.routes.at[r];
      var bound := Turn(s.issued, route.chat, route.quote, true, route.depth, Foreground, {}, map[]);
      var agent := if n.task.Some? && Key(k.session, n.task.value) in route.aliases then n.task else None;
      && next.consumed == s.consumed + [route.serial] && next.issued == s.issued + 1
      && RoutesLeft(s, next, Unspent(s, now).Keys - {r})
      && k in next.turns.at && next.turns.at[k] == bound
      && Evicted(With(Told(s.turns, route, agent), k, bound), next.turns)
  {
    hide Live, Pruned, Placed, Evicted, Takes, Sane, RouteIn, Told, Only, Ended, TakenUp;
    var p := Pruned(s, now);
    PrunedLeaves(s, now);
    SaneParts(p);
    RouteInIs(p, k.session, n, r);
    TakesOneOf(Unspent(s, now), k.session, n, r);
    TakenUpIs(p, k, n, later, r);
    OnlyDelete(s.routes, Unspent(s, now).Keys, r);
  }

  lemma TakesOneOf(routes: map<Key, Route>, session: Name, n: Notification, r: Key)
    requires Takes(routes, session, n, r)
    ensures r in routes
  {
  }

  lemma TakenUpIs(p: State, k: Key, n: Notification, later: int, r: Key)
    requires Sane(p) && RouteIn(p, k.session, n) == Some(r) && r in p.routes.at && p.routes.at[r].expiresAt > later
    ensures var next := TakenUp(p, k, n, true, later);
      var route := p.routes.at[r];
      var bound := Turn(p.issued, route.chat, route.quote, true, route.depth, Foreground, {}, map[]);
      var agent := if n.task.Some? && Key(k.session, n.task.value) in route.aliases then n.task else None;
      && next.consumed == p.consumed + [route.serial] && next.issued == p.issued + 1
      && next.routes == p.routes.Delete(r)
      && next.aliases == (map a | a in p.aliases && p.aliases[a] != r :: p.aliases[a])
      && k in next.turns.at && next.turns.at[k] == bound
      && Evicted(With(Told(p.turns, route, agent), k, bound), next.turns)
  {
    hide Placed, Evicted, Sane, RouteIn, Told;
    SaneParts(p);
    var route := p.routes.at[r];
    var agent := if n.task.Some? && Key(k.session, n.task.value) in route.aliases then n.task else None;
    var bound := Turn(p.issued, route.chat, route.quote, true, route.depth, Foreground, {}, map[]);
    ToldIs(p.turns, route, agent);
    var ended := Ended(p, r).(turns := Told(p.turns, route, agent), consumed := p.consumed + [route.serial]);
    PlacedEvicts(ended, k, bound);
    assert TakenUp(p, k, n, true, later) == Placed(ended, k, bound);
  }

  lemma SaneParts(s: State)
    requires Sane(s)
    ensures s.turns.Valid() && s.routes.Valid() && Inverse(s.routes, s.aliases)
    ensures |s.routes.keys| <= MAX_BACKGROUND_TASK_ROUTES
  {
  }

  lemma ToldIs(turns: Turns, r: Route, agent: Option<Name>)
    requires turns.Valid()
    ensures var released := Released(turns, r);
      Told(turns, r, agent) == if agent.Some? then Stopped(released, r.owner, agent.value) else released
    ensures Told(turns, r, agent).Valid()
  {
    var told, released := Told(turns, r, agent), Released(turns, r);
    if r.owner in turns.at {
      var t := Without(turns.at[r.owner], r.tool);
      assert released == OrdMap(turns.keys, turns.at[r.owner := t]);
      if agent.Some? && agent.value in t.agents {
        var stopped := t.(agents := t.agents[agent.value := false]);
        assert told.at == turns.at[r.owner := stopped];
        if !t.agents[agent.value] { assert stopped.agents == t.agents; }
      } else {
        assert told.at == turns.at[r.owner := t];
      }
    } else {
      assert told.at == turns.at;
    }
  }

  /**
    A completion that takes no route, or one that has expired since, or is not authorised, binds nothing and uses up
    nothing.
   */
  lemma CompletionIgnored(s: State, k: Key, n: Notification, authorized: bool, now: int, later: int)
    requires Sane(s)
    requires forall r :: Takes(Unspent(s, now), k.session, n, r) ==> !authorized || s.routes.at[r].expiresAt <= later
    ensures var next := Next(s, BindTurn(k, Task(n), authorized, now, later));
      RoutesLeft(s, next, Unspent(s, now).Keys) && next == s.(routes := next.routes, aliases := next.aliases)
  {
    hide Live, Placed, Takes, Sane;
    var p := Pruned(s, now);
    PrunedLeaves(s, now);
    SaneParts(p);
    var route := RouteIn(p, k.session, n);
    if route.Some? { RouteInIs(p, k.session, n, route.value); }
    hide RouteIn;
  }

  /**
    A direct prompt other than a control command retires the older foreground turns of its chat and is the newest turn.
   */
  lemma DirectBinds(s: State, k: Key, chat: Name, quote: Name, now: int, later: int)
    requires Sane(s)
    ensures var next := Next(s, BindTurn(k, Direct(chat, quote, false), true, now, later));
      var bound := Turn(s.issued, chat, quote, false, 0, Foreground, {}, map[]);
      var others := set l | l in s.turns.at &&
        (s.turns.at[l].chat != chat || s.turns.at[l].background || IsActiveBackground(s.turns.at[l]));
      && RoutesLeft(s, next, Unspent(s, now).Keys) && next.consumed == s.consumed && next.issued == s.issued + 1
      && k in next.turns.at && next.turns.at[k] == bound
      && Evicted(With(Only(s.turns, others), k, bound), next.turns)
  {
    hide Live, Placed, Evicted, Sane;
    var p := Pruned(s, now);
    PrunedLeaves(s, now);
    SaneParts(p);
    var others := set l | l in s.turns.at &&
      (s.turns.at[l].chat != chat || s.turns.at[l].background || IsActiveBackground(s.turns.at[l]));
    assert Newer(s.turns, chat) == Only(s.turns, others) by {
      forall l | l in s.turns.at ensures Survives(s.turns.at, chat)(l) <==> l in others {
        SurvivesAt(s.turns.at, chat, l);
      }
      assert others == set l | l in s.turns.at && Survives(s.turns.at, chat)(l);
    }
    OnlyValid(s.turns, others);
    PlacedEvicts(p.(turns := Newer(p.turns, chat)), k, Turn(p.issued, chat, quote, false, 0, Foreground, {}, map[]));
  }

  /** Every other prompt only lets the expired routes go. */
  lemma OthersBindNothing(s: State, k: Key, prompt: Prompt, authorized: bool, now: int, later: int)
    requires Sane(s) && (prompt == Other || (prompt.Direct? && (prompt.control || !authorized)))
    ensures var next := Next(s, BindTurn(k, prompt, authorized, now, later));
      RoutesLeft(s, next, Unspent(s, now).Keys) && next == s.(routes := next.routes, aliases := next.aliases)
  {
    PrunedLeaves(s, now);
  }

  // ----- the recording hooks -----

  /** A turn object changes in its place. */
  function Changed(turns: Turns, k: Key, t: Turn): Turns { OrdMap(turns.keys, turns.at[k := t]) }

  ghost predicate MayLaunch(s: State, k: Key, tool: Name) {
    && k in s.turns.at && s.turns.at[k].depth < MAX_BACKGROUND_CHAIN_DEPTH && Key(k.session, tool) !in s.routes.at
    && tool !in s.turns.at[k].pending && |s.turns.at[k].pending| < MAX_BACKGROUND_TASK_IDS
  }

  /** The newest 127 of the unexpired routes. */
  function Older(s: State, now: int): seq<Key> {
    Newest(Filter(s.routes.keys, In(Unspent(s, now).Keys)), MAX_BACKGROUND_TASK_ROUTES - 1)
  }

  function LaunchRoute(s: State, k: Key, t: Turn, tool: Name, now: int): Route {
    Route(s.issued, t.serial, t.chat, t.quote, k, tool, {}, t.depth + 1, now + 6 * 60 * 60 * 1000)
  }

  /**
    A launch that is admitted is pending in its turn and has the newest route, one level deeper and open for six
    hours; of the other routes the expired ones go, and the oldest if 128 are left.
   */
  lemma LaunchRemembered(s: State, k: Key, tool: Name, now: int)
    requires Sane(s) && MayLaunch(s, k, tool)
    ensures var next := Next(s, ToolUse(k, tool, true, now));
      var r, t, older := Key(k.session, tool), s.turns.at[k], Older(s, now);
      && next.turns == Changed(s.turns, k, t.(pending := t.pending + {tool}))
      && next.routes.keys == older + [r]
      && next.routes.at ==
          (map l | l in s.routes.at && l in older :: s.routes.at[l])[r := LaunchRoute(s, k, t, tool, now)]
      && next.aliases == (map a | a in s.aliases && s.aliases[a] in older :: s.aliases[a])
      && next.issued == s.issued + 1 && next.consumed == s.consumed
  {
    hide Pruned, Older, Inverse, Sane, Next, Changed, LaunchRoute;
    SaneParts(s);
    var r, t, older := Key(k.session, tool), s.turns.at[k], Older(s, now);
    var route := LaunchRoute(s, k, t, tool, now);
    var launched := State(Changed(s.turns, k, t.(pending := t.pending + {tool})), s.routes.Put(r, route), s.aliases,
      s.issued + 1, s.consumed);
    LaunchIs(s, k, tool, now);
    PutValid(s.routes, r, route);
    LaunchPruned(s, r, route, now);
    PrunedTo(launched, now, older + [r]);
    OlderKnown(s, now);
    AliasesNotOf(s, r);
    LaunchLeft(s, Pruned(launched, now), r, route, older);
  }

  lemma LaunchLeft(s: State, p: State, r: Key, route: Route, older: seq<Key>)
    requires r !in s.routes.at && (forall l :: l in older ==> l in s.routes.at) && s.routes.Put(r, route).Valid()
    requires p.routes.at == map l | l in s.routes.Put(r, route).at && l in older + [r] :: s.routes.Put(r, route).at[l]
    requires p.aliases == map a | a in s.aliases && s.aliases[a] in p.routes.at :: s.aliases[a]
    requires forall a :: a in s.aliases ==> s.aliases[a] != r
    ensures p.routes.at == (map l | l in s.routes.at && l in older :: s.routes.at[l])[r := route]
    ensures p.aliases == map a | a in s.aliases && s.aliases[a] in older :: s.aliases[a]
  {
    assert forall l :: l in older + [r] <==> l in older || l == r;
  }

  lemma LaunchIs(s: State, k: Key, tool: Name, now: int)
    requires MayLaunch(s, k, tool)
    ensures Key(k.session, tool) !in s.routes.at && LaunchRoute(s, k, s.turns.at[k], tool, now).expiresAt > now
    ensures var t := s.turns.at[k];
      Next(s, ToolUse(k, tool, true, now)) == Pruned(State(Changed(s.turns, k, t.(pending := t.pending + {tool})),
        s.routes.Put(Key(k.session, tool), LaunchRoute(s, k, t, tool, now)), s.aliases, s.issued + 1, s.consumed), now)
  {
    hide Pruned;
  }

  lemma OlderKnown(s: State, now: int)
    requires s.routes.Valid()
    ensures forall l :: l in Older(s, now) ==> l in s.routes.at
  {
    hide Filter, Newest;
    FilterMembers(s.routes.keys, In(Unspent(s, now).Keys));
    NewestAmong(Filter(s.routes.keys, In(Unspent(s, now).Keys)), MAX_BACKGROUND_TASK_ROUTES - 1);
  }

  lemma LaunchPruned(s: State, r: Key, route: Route, now: int)
    requires s.routes.Valid() && r !in s.routes.at && route.expiresAt > now
    ensures var routes := s.routes.Put(r, route);
      Newest(Filter(routes.keys, Unexpired(routes.at, now)), MAX_BACKGROUND_TASK_ROUTES) == Older(s, now) + [r]
  {
    hide Filter, Newest, Distinct;
    var live, routes := Unspent(s, now).Keys, s.routes.Put(r, route);
    var p := Unexpired(routes.at, now);
    FilterLast(s.routes.keys, r, p);
    FilterAgree(s.routes.keys, p, In(live));
    NewestLast(Filter(s.routes.keys, In(live)), r, MAX_BACKGROUND_TASK_ROUTES);
  }

  lemma PrunedTo(s: State, now: int, left: seq<Key>)
    requires s.routes.Valid()
    requires left == Newest(Filter(s.routes.keys, Unexpired(s.routes.at, now)), MAX_BACKGROUND_TASK_ROUTES)
    ensures var p := Pruned(s, now);
      && p.routes.keys == left && p.routes.at == (map l | l in s.routes.at && l in left :: s.routes.at[l])
      && p.aliases == (map a | a in s.aliases && s.aliases[a] in p.routes.at :: s.aliases[a])
      && p == s.(routes := p.routes, aliases := p.aliases)
  {
    hide Filter, Newest, Distinct;
    FilterNewest(s.routes.keys, Unexpired(s.routes.at, now), MAX_BACKGROUND_TASK_ROUTES);
    assert forall l :: l in Live(s.routes, now) <==> l in left;
  }

  lemma AliasesNotOf(s: State, r: Key)
    requires Inverse(s.routes, s.aliases) && r !in s.routes.at
    ensures forall a :: a in s.aliases ==> s.aliases[a] != r
  {
  }

  lemma NewestLast(f: seq<Key>, r: Key, n: nat)
    requires n > 0
    ensures Newest(f + [r], n) == Newest(f, n - 1) + [r]
  {
  }

  lemma LaunchIgnored(s: State, k: Key, tool: Name, launches: bool, now: int)
    requires !launches || !MayLaunch(s, k, tool)
    ensures Next(s, ToolUse(k, tool, launches, now)) == s
  {
  }

  /** A launch that reports its task id gives its route that name, unless it is the name of another. */
  lemma LaunchNamed(s: State, k: Key, tool: Name, stopped: bool, task: Option<Name>)
    requires Sane(s)
    ensures var next, r := Next(s, ToolResult(k, tool, true, stopped, task)), Key(k.session, tool);
      if k in s.turns.at && task.Some? && r in s.routes.at &&
        forall l :: l in s.routes.at && l != r ==> Key(k.session, task.value) !in s.routes.at[l].aliases
      then
        var a := Key(k.session, task.value);
        var route := s.routes.at[r];
        next == s.(routes := OrdMap(s.routes.keys, s.routes.at[r := route.(aliases := route.aliases + {a})]),
          aliases := s.aliases[a := r])
      else next == s
  {
    SaneParts(s);
    hide Sane;
  }

  /** The route that a result or a TaskStop ends. */
  ghost predicate EndedBy(s: State, session: Name, tool: Name, stopped: bool, task: Option<Name>, r: Key) {
    && r in s.routes.at
    && if stopped && task.Some? then Key(session, task.value) in s.routes.at[r].aliases else r == Key(session, tool)
  }

  /** Route r is over for a reason that may stop an agent. */
  ghost predicate Over(s: State, next: State, r: Key, stop: Option<Name>)
    requires r in s.routes.at
  {
    && RoutesLeft(s, next, s.routes.at.Keys - {r}) && next.turns == Told(s.turns, s.routes.at[r], stop)
    && next == s.(turns := next.turns, routes := next.routes, aliases := next.aliases)
  }

  lemma EndedOver(s: State, r: Key, stop: Option<Name>)
    requires s.turns.Valid() && s.routes.Valid() && Inverse(s.routes, s.aliases) && r in s.routes.at
    ensures var ended := Ended(s, r);
      Over(s, if stop.Some? then ended.(turns := Stopped(ended.turns, s.routes.at[r].owner, stop.value))
          else ended, r, stop)
  {
    hide Told, Filter, Stopped, Released, Drop, Distinct;
    OnlySelf(s.routes);
    OnlyDelete(s.routes, s.routes.at.Keys, r);
    ToldIs(s.turns, s.routes.at[r], stop);
  }

  /**
    Any other result ends its own route, a TaskStop the one its task id names, and the owner waits for it no longer.
   */
  lemma ResultEnds(s: State, k: Key, tool: Name, stopped: bool, task: Option<Name>, r: Key)
    requires Sane(s) && k in s.turns.at && EndedBy(s, k.session, tool, stopped, task, r)
    ensures Over(s, Next(s, ToolResult(k, tool, false, stopped, task)), r, if stopped then task else None)
  {
    SaneParts(s);
    EndedOver(s, r, if stopped then task else None);
    hide Over, Sane, Ended, Stopped;
  }

  lemma ResultEndsNothing(s: State, k: Key, tool: Name, stopped: bool, task: Option<Name>)
    requires Sane(s)
    requires k in s.turns.at ==> forall r :: !EndedBy(s, k.session, tool, stopped, task, r)
    ensures Next(s, ToolResult(k, tool, false, stopped, task)) == s
  {
    SaneParts(s);
    hide Sane, Stopped, Released;
    if k in s.turns.at {
      if stopped && task.Some? {
        var a := Key(k.session, task.value);
        assert a in s.aliases ==> EndedBy(s, k.session, tool, stopped, task, s.aliases[a]);
      } else {
        assert !EndedBy(s, k.session, tool, stopped, task, Key(k.session, tool));
      }
    }
  }

  /** An agent starts once per turn, below the depth limit and the bound, and stops. */
  lemma AgentsStartAndStop(s: State, k: Key, agent: Name)
    ensures var started, stopped := Next(s, SubagentStart(k, agent)), Next(s, SubagentStop(k, agent));
      && (if k in s.turns.at && s.turns.at[k].depth < MAX_BACKGROUND_CHAIN_DEPTH && agent !in s.turns.at[k].agents &&
            |s.turns.at[k].agents| < MAX_BACKGROUND_AGENTS
          then started ==
              s.(turns := Changed(s.turns, k, s.turns.at[k].(agents := s.turns.at[k].agents[agent := true])))
          else started == s)
      && (if k in s.turns.at && agent in s.turns.at[k].agents && s.turns.at[k].agents[agent]
          then stopped ==
              s.(turns := Changed(s.turns, k, s.turns.at[k].(agents := s.turns.at[k].agents[agent := false])))
          else stopped == s)
  {
  }

  // ----- the life of a route -----

  /** A hook takes route r away: it expires, is used up, makes room for the 128 newest, or its task is over. */
  ghost predicate Loses(s: State, h: Hook, r: Key)
    requires r in s.routes.at
  {
    match h
    case BindTurn(k, prompt, authorized, now, later) =>
      || s.routes.at[r].expiresAt <= now
      || (prompt.Task? && authorized && Takes(Unspent(s, now), k.session, prompt.notification, r)
          && s.routes.at[r].expiresAt > later)
    case ToolUse(k, tool, launches, now) => launches && MayLaunch(s, k, tool) && r !in Older(s, now)
    case ToolResult(k, tool, launched, stopped, task) =>
      k in s.turns.at && !launched && EndedBy(s, k.session, tool, stopped, task, r)
    case _ => false
  }

  /** The same route, perhaps with further names. */
  ghost predicate Same(r: Route, later: Route) {
    later == r.(aliases := later.aliases) && r.aliases <= later.aliases
  }

  ghost predicate Usable(s: State, session: Name, n: Notification, authorized: bool, now: int, later: int, r: Key) {
    r in s.routes.at && Takes(Unspent(s, now), session, n, r) && authorized && s.routes.at[r].expiresAt > later
  }

  lemma BindLoses(s: State, k: Key, prompt: Prompt, authorized: bool, now: int, later: int, r: Key)
    requires Sane(s) && r in s.routes.at
    ensures var h := BindTurn(k, prompt, authorized, now, later);
      && (r in Next(s, h).routes.at <==> !Loses(s, h, r))
      && (r in Next(s, h).routes.at ==> Next(s, h).routes.at[r] == s.routes.at[r])
  {
    hide Takes, Sane, Next, Filter, Evicted, Told;
    match prompt
    case Task(n) =>
      if q :| Usable(s, k.session, n, authorized, now, later, q) {
        CompletionBinds(s, k, n, now, later, q);
        if Takes(Unspent(s, now), k.session, n, r) { TakesOne(Unspent(s, now), k.session, n, q, r, s); }
      } else {
        forall q | Takes(Unspent(s, now), k.session, n, q)
          ensures q in s.routes.at && (!authorized || s.routes.at[q].expiresAt <= later)
        {
          TakesOneOf(Unspent(s, now), k.session, n, q);
          assert !Usable(s, k.session, n, authorized, now, later, q);
        }
        CompletionIgnored(s, k, n, authorized, now, later);
      }
    case Direct(chat, quote, control) =>
      if authorized && !control { DirectBinds(s, k, chat, quote, now, later); }
      else { OthersBindNothing(s, k, prompt, authorized, now, later); }
    case Other => OthersBindNothing(s, k, prompt, authorized, now, later);
  }

  lemma AliasOf(s: State, a: Key, q: Key)
    requires Sane(s) && q in s.routes.at && a in s.routes.at[q].aliases
    ensures a in s.aliases && s.aliases[a] == q
  {
  }

  /** A completion takes one route at most. */
  lemma TakesOne(routes: map<Key, Route>, session: Name, n: Notification, q: Key, r: Key, s: State)
    requires Sane(s) && (forall l :: l in routes ==> l in s.routes.at && s.routes.at[l] == routes[l])
    requires Takes(routes, session, n, q) && Takes(routes, session, n, r)
    ensures q == r
  {
    hide Sane;
    if q != r {
      var a := Key(session, n.task.value);
      AliasOf(s, a, q);
      AliasOf(s, a, r);
    }
  }

  /** A route is lost by such hooks alone, and nothing else of it changes but its names. */
  lemma RouteLost(s: State, h: Hook, r: Key)
    requires Sane(s) && r in s.routes.at
    ensures r in Next(s, h).routes.at <==> !Loses(s, h, r)
    ensures r in Next(s, h).routes.at ==> Same(s.routes.at[r], Next(s, h).routes.at[r])
  {
    match h
    case BindTurn(k, prompt, authorized, now, later) => BindLoses(s, k, prompt, authorized, now, later, r);
    case ToolUse(k, tool, launches, now) => LaunchLoses(s, k, tool, launches, now, r);
    case ToolResult(k, tool, launched, stopped, task) => ResultLoses(s, k, tool, launched, stopped, task, r);
    case _ =>
  }

  lemma LaunchLoses(s: State, k: Key, tool: Name, launches: bool, now: int, r: Key)
    requires Sane(s) && r in s.routes.at
    ensures var h := ToolUse(k, tool, launches, now);
      && (r in Next(s, h).routes.at <==> !Loses(s, h, r))
      && (r in Next(s, h).routes.at ==> Next(s, h).routes.at[r] == s.routes.at[r])
  {
    hide Older, Next, Sane;
    if launches && MayLaunch(s, k, tool) { LaunchRemembered(s, k, tool, now); }
    else { LaunchIgnored(s, k, tool, launches, now); }
  }

  lemma ResultLoses(s: State, k: Key, tool: Name, launched: bool, stopped: bool, task: Option<Name>, r: Key)
    requires Sane(s) && r in s.routes.at
    ensures var h := ToolResult(k, tool, launched, stopped, task);
      && (r in Next(s, h).routes.at <==> !Loses(s, h, r))
      && (r in Next(s, h).routes.at ==> Same(s.routes.at[r], Next(s, h).routes.at[r]))
  {
    hide Next, Told, Filter, Sane;
    if launched {
      LaunchNamed(s, k, tool, stopped, task);
    } else if q :| EndedBy(s, k.session, tool, stopped, task, q) && k in s.turns.at {
      ResultEnds(s, k, tool, stopped, task, q);
      EndsOne(s, k.session, tool, stopped, task, q, r);
    } else {
      ResultEndsNothing(s, k, tool, stopped, task);
    }
  }

  lemma EndsOne(s: State, session: Name, tool: Name, stopped: bool, task: Option<Name>, q: Key, r: Key)
    requires Sane(s) && EndedBy(s, session, tool, stopped, task, q)
    ensures EndedBy(s, session, tool, stopped, task, r) ==> q == r
  {
    hide Sane;
    if EndedBy(s, session, tool, stopped, task, r) && stopped && task.Some? {
      AliasOf(s, Key(session, task.value), q);
      AliasOf(s, Key(session, task.value), r);
    }
  }

  lemma {:induction false} RouteLasts(hooks: seq<Hook>, trail: seq<State>, i: nat, j: nat, r: Key)
    requires Follows(hooks, trail) && i <= j < |trail| && r in trail[i].routes.at
    requires forall m :: i <= m < j && r in trail[m].routes.at ==> !Loses(trail[m], hooks[m], r)
    ensures r in trail[j].routes.at && Same(trail[i].routes.at[r], trail[j].routes.at[r])
  {
    hide Loses, Next, Sane;
    if i < j {
      RouteLasts(hooks, trail, i, j - 1, r);
      assert StepAt(hooks, trail, j - 1);
      RouteLost(trail[j - 1], hooks[j - 1], r);
    }
  }

  /**
    A completion finds the chat of its task. A task is launched from a turn, the launch reports a task id that no other
    route bears while its turn is there, and no hook loses the route; then the completion that names the task id within
    six hours of the launch binds a turn in the chat of that turn, quoting the same message, one level deeper.
   */
  lemma CompletionFindsItsChat(
    hooks: seq<Hook>, trail: seq<State>, i: nat, j: nat, m: nat, k: Key, tool: Name, task: Name, began: int,
    stopped: bool, bound: Key, status: Status, now: int, later: int)
    requires Follows(hooks, trail) && i < j < m < |trail| - 1
    requires hooks[i] == ToolUse(k, tool, true, began) && MayLaunch(trail[i], k, tool)
    requires hooks[j] == ToolResult(k, tool, true, stopped, Some(task)) && k in trail[j].turns.at
    requires forall l :: l in trail[j].routes.at && l != Key(k.session, tool) ==>
               Key(k.session, task) !in trail[j].routes.at[l].aliases
    requires var r := Key(k.session, tool);
      forall h :: i < h < m && r in trail[h].routes.at ==> !Loses(trail[h], hooks[h], r)
    requires hooks[m] == BindTurn(bound, Task(Notification(None, Some(task), status)), true, now, later)
    requires bound.session == k.session && now < began + 6 * 60 * 60 * 1000 && later < began + 6 * 60 * 60 * 1000
    ensures var t := trail[i].turns.at[k];
      && bound in trail[m + 1].turns.at
      && trail[m + 1].turns.at[bound] ==
          Turn(trail[m].issued, t.chat, t.quote, true, t.depth + 1, Foreground, {}, map[])
      && Key(k.session, tool) !in trail[m + 1].routes.at
  {
    var r := Key(k.session, tool);
    hide Loses, Next, Sane, Older, Told, Evicted, Filter, MayLaunch;
    assert StepAt(hooks, trail, i) && StepAt(hooks, trail, j) && StepAt(hooks, trail, m);
    LaunchRemembered(trail[i], k, tool, began);
    RouteLasts(hooks, trail, i + 1, j, r);
    LaunchNamed(trail[j], k, tool, stopped, Some(task));
    RouteLasts(hooks, trail, j + 1, m, r);
    CompletionBinds(trail[m], bound, Notification(None, Some(task), status), now, later, r);
  }
}
