/**
  Which Telegram turns are retained, and the routes by which a background task's completion finds
  its way back to the chat that started it. The maps are mutated by every hook.
 */
module TaskRoutes {
  import opened Wrappers
  import opened OrderedMap

  const MAX_RETAINED_TURNS := 32
  const MAX_ACTIVE_BACKGROUND_TURNS := 16
  const MAX_BACKGROUND_CHAIN_DEPTH := 2
  const BACKGROUND_TASK_ROUTE_TTL_MS := 6 * 60 * 60 * 1000
  const MAX_BACKGROUND_TASK_ROUTES := 128
  const MAX_BACKGROUND_AGENTS := 16
  const MAX_BACKGROUND_TASK_IDS := 16

  /** Chats, prompts, tools and tasks are told apart by number. */
  type Name = nat
  /** session/prompt, session/tool or session/task. */
  datatype Key = Key(session: Name, id: Name)

  datatype Phase = Foreground | BackgroundAgents
  datatype Status = Completed | Failed | Killed

  /** serial tells apart the turn objects bound one after another under one key. */
  datatype Turn = Turn(
    serial: nat, chat: Name, quote: Name, background: bool, depth: nat, phase: Phase,
    pending: set<Name>, agents: map<Name, bool>)

  /** recorder: the serial of the turn object that launched the task; serial: of this insertion. */
  datatype Route = Route(
    serial: nat, recorder: nat, chat: Name, quote: Name, owner: Key, tool: Name,
    aliases: set<Key>, depth: nat, expiresAt: int)

  datatype Notification = Notification(tool: Option<Name>, task: Option<Name>, status: Status)
  datatype Prompt = Direct(chat: Name, quote: Name, control: bool) | Task(notification: Notification) | Other

  type Turns = OrdMap<Key, Turn>
  type Routes = OrdMap<Key, Route>
  type Aliases = map<Key, Key>

  predicate HasActive(t: Turn) { exists a :: a in t.agents && t.agents[a] }

  predicate IsActiveBackground(t: Turn) { t.pending != {} || (t.phase == BackgroundAgents && HasActive(t)) }

  /** The turn object with this serial is the one under k. */
  predicate Present(turns: Turns, k: Key, serial: nat) { k in turns.at && turns.at[k].serial == serial }

  // ----- invariants -----

  /** The alias map and the routes' alias sets are exact inverses. */
  ghost predicate Inverse(routes: Routes, aliases: Aliases) {
    && (forall a :: a in aliases ==> aliases[a] in routes.at && a in routes.at[aliases[a]].aliases)
    && (forall k, a :: k in routes.at && a in routes.at[k].aliases ==> a in aliases && aliases[a] == k)
  }

  /** Every route is named by its session and tool, and one level below the turn that launched it. */
  ghost predicate WellRouted(routes: Routes, issued: nat) {
    forall k :: k in routes.at ==> RouteOk(k, routes.at[k], issued)
  }

  ghost predicate RouteOk(k: Key, r: Route, issued: nat) {
    k == Key(r.owner.session, r.tool) && 1 <= r.depth <= MAX_BACKGROUND_CHAIN_DEPTH && r.serial < issued &&
        r.recorder < issued
  }

  /** A route whose recording turn is still the live one has its tool pending there. */
  ghost predicate Pending(turns: Turns, routes: Routes) {
    forall k :: k in routes.at ==> RoutePending(turns, routes.at[k])
  }

  ghost predicate RoutePending(turns: Turns, r: Route) {
    r.owner in turns.at && turns.at[r.owner].serial == r.recorder ==> r.tool in turns.at[r.owner].pending
  }

  ghost predicate TurnsOk(turns: Turns, issued: nat) {
    forall k :: k in turns.at ==> turns.at[k].depth <= MAX_BACKGROUND_CHAIN_DEPTH && turns.at[k].serial < issued
  }

  /** Insertions are consumed at most once: consumed serials are distinct and no longer routed. */
  ghost predicate Consumed(routes: Routes, consumed: seq<nat>, issued: nat) {
    && (forall i, j :: 0 <= i < j < |consumed| ==> consumed[i] != consumed[j])
    && (forall s :: s in consumed ==> s < issued)
    && (forall k :: k in routes.at ==> routes.at[k].serial !in consumed)
    && (forall k, l :: k in routes.at && l in routes.at && routes.at[k].serial == routes.at[l].serial ==> k == l)
  }

  ghost predicate TableOk(routes: Routes, aliases: Aliases, consumed: seq<nat>, issued: nat) {
    routes.Valid() && Inverse(routes, aliases) && WellRouted(routes, issued) && Consumed(routes, consumed, issued)
  }

  lemma DeleteKeepsInverse(routes: Routes, aliases: Aliases, k: Key)
    requires Inverse(routes, aliases)
    ensures Inverse(routes.Delete(k), AliasesWithout(aliases, k))
    ensures k !in routes.at ==> AliasesWithout(aliases, k) == aliases
  {
    if k !in routes.at { assert AliasesWithout(aliases, k) == aliases; }
  }

  lemma DeleteKeepsConsumed(routes: Routes, consumed: seq<nat>, issued: nat, k: Key)
    requires Consumed(routes, consumed, issued) && WellRouted(routes, issued)
    ensures Consumed(routes.Delete(k), consumed, issued) && WellRouted(routes.Delete(k), issued)
  {
    var at := routes.Delete(k).at;
    assert forall l :: l in at ==> l in routes.at && at[l] == routes.at[l];
  }

  lemma DeleteKeepsTable(routes: Routes, aliases: Aliases, consumed: seq<nat>, issued: nat, k: Key)
    requires TableOk(routes, aliases, consumed, issued)
    ensures TableOk(routes.Delete(k), AliasesWithout(aliases, k), consumed, issued)
    ensures |routes.Delete(k).keys| == |routes.keys| - if k in routes.at then 1 else 0
    ensures k !in routes.at ==> routes.Delete(k) == routes && AliasesWithout(aliases, k) == aliases
  {
    hide Inverse, Consumed, WellRouted;
    DeleteValid(routes, k);
    DeleteKeepsInverse(routes, aliases, k);
    DeleteKeepsConsumed(routes, consumed, issued, k);
    if k !in routes.at { DropAbsent(routes.keys, k); }
  }

  function AliasesWithout(aliases: Aliases, k: Key): Aliases { map a | a in aliases && aliases[a] != k :: aliases[a] }

  function Unexpired(at: map<Key, Route>, now: int): Key -> bool { k => k in at && at[k].expiresAt > now }

  function Without(t: Turn, tool: Name): Turn { t.(pending := t.pending - {tool}) }

  // ----- what each hook does -----

  /** consumed: the serials of the routes that completions have used up. */
  datatype State = State(turns: Turns, routes: Routes, aliases: Aliases, issued: nat, consumed: seq<nat>)

  function Start(): State { State(Empty(), Empty(), map[], 0, []) }

  /** The newest 128 of the routes that have not expired. */
  function Live(routes: Routes, now: int): set<Key> {
    Elements(Newest(Filter(routes.keys, Unexpired(routes.at, now)), MAX_BACKGROUND_TASK_ROUTES))
  }

  function AliasesOf(aliases: Aliases, routes: Routes): Aliases {
    map a | a in aliases && aliases[a] in routes.at :: aliases[a]
  }

  function Pruned(s: State, now: int): State {
    var routes := Only(s.routes, Live(s.routes, now));
    s.(routes := routes, aliases := AliasesOf(s.aliases, routes))
  }

  /** The newest 16 turns with background work and the newest 32 others. */
  function Retained(turns: Turns): set<Key> {
    Elements(Newest(Filter(turns.keys, Kind(turns.at, true)), MAX_ACTIVE_BACKGROUND_TURNS))
    + Elements(Newest(Filter(turns.keys, Kind(turns.at, false)), MAX_RETAINED_TURNS))
  }

  /** A fresh turn object under its key, and the surplus gone. */
  function Placed(s: State, k: Key, t: Turn): State {
    var turns := s.turns.Delete(k).Put(k, t);
    s.(turns := Only(turns, Retained(turns)), issued := s.issued + 1)
  }

  predicate AdmitsIn(s: State, owner: Key, tool: Name) {
    && owner in s.turns.at && s.turns.at[owner].depth < MAX_BACKGROUND_CHAIN_DEPTH
    && Key(owner.session, tool) !in s.routes.at
    && tool !in s.turns.at[owner].pending && |s.turns.at[owner].pending| < MAX_BACKGROUND_TASK_IDS
  }

  function RouteOf(s: State, owner: Key, tool: Name, now: int): Route
    requires owner in s.turns.at
  {
    var t := s.turns.at[owner];
    Route(s.issued, t.serial, t.chat, t.quote, owner, tool, {}, t.depth + 1, now + BACKGROUND_TASK_ROUTE_TTL_MS)
  }

  /** A launch that is admitted leaves its route, pending in its turn. */
  function Launched(s: State, owner: Key, tool: Name, now: int): State {
    if !AdmitsIn(s, owner, tool) then s
    else
      var t := s.turns.at[owner];
      var turns := s.turns.Put(owner, t.(pending := t.pending + {tool}));
      var routes := s.routes.Put(Key(owner.session, tool), RouteOf(s, owner, tool, now));
      Pruned(State(turns, routes, s.aliases, s.issued + 1, s.consumed), now)
  }

  /** A task id becomes another name of a route, if it names no other one. */
  function Named(s: State, session: Name, tool: Name, task: Name): State {
    var k, a := Key(session, tool), Key(session, task);
    if k in s.routes.at && (a in s.aliases ==> s.aliases[a] == k) then
      var r := s.routes.at[k];
      s.(routes := s.routes.Put(k, r.(aliases := r.aliases + {a})), aliases := s.aliases[a := k])
    else s
  }

  /** A route goes with its aliases, and its owner no longer waits for it. */
  function Ended(s: State, k: Key): State {
    if k !in s.routes.at then s
    else
      s.(turns := Released(s.turns, s.routes.at[k]), routes := s.routes.Delete(k),
          aliases := AliasesWithout(s.aliases, k))
  }

  /** The route named by a stopped task goes, and its agent stops. */
  function StoppedTask(s: State, session: Name, task: Name): State {
    var a := Key(session, task);
    if a in s.aliases && s.aliases[a] in s.routes.at then
      var ended := Ended(s, s.aliases[a]);
      ended.(turns := Stopped(ended.turns, s.routes.at[s.aliases[a]].owner, task))
    else s
  }

  /** Without the older idle foreground turns of the chat. */
  function Newer(turns: Turns, chat: Name): Turns {
    Only(turns, set k | k in turns.at && Survives(turns.at, chat)(k))
  }

  /** The route a completion may consume. */
  function RouteIn(s: State, session: Name, n: Notification): Option<Key> {
    var direct := if n.tool.Some? then Some(Key(session, n.tool.value)) else None;
    var supplied := if n.task.Some? then Some(Key(session, n.task.value)) else None;
    var viaAlias := if supplied.Some? && supplied.value in s.aliases then Some(s.aliases[supplied.value]) else None;
    if direct.Some? && direct.value in s.routes.at then
      var route := s.routes.at[direct.value];
      if supplied.Some? && route.aliases != {} && supplied.value !in route.aliases then None
      else if supplied.Some? && viaAlias.Some? && viaAlias != direct then None
      else direct
    else viaAlias
  }

  /** A completion uses up its route and binds a turn of its own. */
  function TakenUp(s: State, k: Key, n: Notification, authorized: bool, later: int): State {
    var route := RouteIn(s, k.session, n);
    if route.Some? && route.value in s.routes.at && s.routes.at[route.value].expiresAt > later && authorized then
      var r := s.routes.at[route.value];
      var ended := Ended(s, route.value);
      var turns := if n.task.Some? && Key(k.session, n.task.value) in r.aliases
        then Stopped(ended.turns, r.owner, n.task.value) else ended.turns;
      Placed(ended.(turns := turns, consumed := s.consumed + [r.serial]), k,
        Turn(s.issued, r.chat, r.quote, true, r.depth, Foreground, {}, map[]))
    else s
  }

  function Bound(s: State, k: Key, prompt: Prompt, authorized: bool, now: int, later: int): State {
    var p := Pruned(s, now);
    match prompt
    case Other => p
    case Direct(chat, quote, control) =>
      if control || !authorized then p
      else Placed(p.(turns := Newer(p.turns, chat)), k, Turn(p.issued, chat, quote, false, 0, Foreground, {}, map[]))
    case Task(n) => TakenUp(p, k, n, authorized, later)
  }

  function Started(turns: Turns, k: Key, agent: Name): Turns {
    if k in turns.at && turns.at[k].depth < MAX_BACKGROUND_CHAIN_DEPTH && agent !in turns.at[k].agents
      && |turns.at[k].agents| < MAX_BACKGROUND_AGENTS
    then turns.Put(k, turns.at[k].(agents := turns.at[k].agents[agent := true])) else turns
  }

  function Finished(s: State, k: Key, tool: Name, launched: bool, stopped: bool, task: Option<Name>): State {
    if k !in s.turns.at then s
    else if launched then if task.Some? then Named(s, k.session, tool, task.value) else s
    else if stopped && task.Some? then StoppedTask(s, k.session, task.value)
    else Ended(s, Key(k.session, tool))
  }

  class Disclosure {
    var turns: Turns
    var routes: Routes
    var aliases: Aliases
    var issued: nat
    ghost var consumed: seq<nat>

    constructor ()
      ensures Valid() && turns == Empty() && routes == Empty() && consumed == [] && Now() == Start()
    {
      turns, routes, aliases, issued, consumed := Empty(), Empty(), map[], 0, [];
    }

    ghost function Now(): State
      reads this
    {
      State(turns, routes, aliases, issued, consumed)
    }

    ghost predicate RoutesValid()
      reads this
    {
      TableOk(routes, aliases, consumed, issued)
    }

    ghost predicate Valid()
      reads this
    {
      && RoutesValid() && |routes.keys| <= MAX_BACKGROUND_TASK_ROUTES
      && turns.Valid() && TurnsOk(turns, issued) && Pending(turns, routes)
      && |turns.keys| <= MAX_RETAINED_TURNS + MAX_ACTIVE_BACKGROUND_TURNS
    }

    // ----- routes -----

    /** deleteBackgroundTaskRoute: the route and exactly its aliases go. */
    method DeleteRoute(k: Key) returns (r: Option<Route>)
      requires RoutesValid()
      modifies this`routes, this`aliases
      ensures RoutesValid()
      ensures routes == old(routes).Delete(k)
      ensures routes.keys == Drop(old(routes).keys, k) && routes.at == old(routes).at - {k}
      ensures aliases == AliasesWithout(old(aliases), k)
      ensures r == if k in old(routes).at then Some(old(routes).at[k]) else None
      ensures |routes.keys| == |old(routes).keys| - if k in old(routes).at then 1 else 0
    {
      hide Consumed, WellRouted, TableOk;
      DeleteKeepsTable(routes, aliases, consumed, issued, k);
      if k !in routes.at { return None; }
      var route := routes.at[k];
      assert Inverse(routes, aliases) by { TableParts(routes, aliases, consumed, issued); }
      routes := routes.Delete(k);
      DropAliases(route.aliases, k);
      assert aliases == AliasesWithout(old(aliases), k);
      return Some(route);
    }

    method DropAliases(gone: set<Key>, k: Key)
      modifies this`aliases
      ensures aliases == map a | a in old(aliases) && (old(aliases)[a] != k || a !in gone) :: old(aliases)[a]
    {
      var todo := gone;
      while todo != {}
        modifies this`aliases
        invariant todo <= gone
        invariant aliases == map a | a in old(aliases) &&
                    (old(aliases)[a] != k || a !in gone || a in todo) :: old(aliases)[a]
        decreases todo
      {
        var a :| a in todo;
        if a in aliases && aliases[a] == k { aliases := aliases - {a}; }
        todo := todo - {a};
      }
    }

    /** The first loop of pruning. */
    method DropExpired(now: int)
      requires RoutesValid()
      modifies this`routes, this`aliases
      ensures RoutesValid()
      ensures routes.keys == Filter(old(routes).keys, Unexpired(old(routes).at, now))
      ensures Shrunk(old(routes).at, old(aliases), routes.at, aliases)
    {
      var ks := routes.keys;
      ghost var at, live := routes.at, Unexpired(routes.at, now);
      hide Consumed, WellRouted, Inverse, Shrunk, Filter, Newest, Drop, Distinct, Unexpired, TableOk, AliasesWithout;
      hide Sifted;
      SiftEnds(ks, live);
      ShrunkNot(routes, aliases, consumed, issued);
      var i := 0;
      while i < |ks|
        modifies this`routes, this`aliases
        invariant 0 <= i <= |ks|
        invariant RoutesValid()
        invariant routes.keys == Sifted(ks, i, live)
        invariant Shrunk(at, old(aliases), routes.at, aliases)
      {
        ghost var was, names := routes.at, aliases;
        TableParts(routes, aliases, consumed, issued);
        SiftStep(ks, i, live);
        ShrunkAt(at, old(aliases), routes.at, aliases, ks[i], now);
        if routes.at[ks[i]].expiresAt <= now {
          var _ := DeleteRoute(ks[i]);
          ShrunkMore(at, old(aliases), was, names, ks[i], routes.at, aliases);
        }
        i := i + 1;
      }
    }

    /** The second loop. */
    method DropSurplus()
      requires RoutesValid()
      modifies this`routes, this`aliases
      ensures RoutesValid() && |routes.keys| <= MAX_BACKGROUND_TASK_ROUTES
      ensures routes.keys == Newest(old(routes).keys, MAX_BACKGROUND_TASK_ROUTES)
      ensures Shrunk(old(routes).at, old(aliases), routes.at, aliases)
    {
      hide Consumed, WellRouted, Inverse, Shrunk, Filter, Newest, Drop, Distinct, TableOk, AliasesWithout;
      ghost var kept, n := routes.keys, 0;
      assert kept[0..] == kept;
      ShrunkNot(routes, aliases, consumed, issued);
      while |routes.keys| > MAX_BACKGROUND_TASK_ROUTES
        modifies this`routes, this`aliases
        invariant RoutesValid()
        invariant n <= |kept| && routes.keys == kept[n..]
        invariant n == 0 || |kept| - n >= MAX_BACKGROUND_TASK_ROUTES
        invariant Shrunk(old(routes).at, old(aliases), routes.at, aliases)
        decreases |routes.keys|
      {
        ghost var was, names, oldest := routes.at, aliases, routes.keys[0];
        TableParts(routes, aliases, consumed, issued);
        DropFirst(kept, n);
        var _ := DeleteRoute(routes.keys[0]);
        ShrunkMore(old(routes).at, old(aliases), was, names, oldest, routes.at, aliases);
        n := n + 1;
      }
      NewestSuffix(kept, n);
    }

    /** pruneBackgroundTaskRoutes: expired routes go, then the oldest beyond the limit. */
    method PruneRoutes(now: int)
      requires RoutesValid()
      modifies this`routes, this`aliases
      ensures RoutesValid() && |routes.keys| <= MAX_BACKGROUND_TASK_ROUTES
      ensures routes.keys ==
                Newest(Filter(old(routes).keys, Unexpired(old(routes).at, now)), MAX_BACKGROUND_TASK_ROUTES)
      ensures Shrunk(old(routes).at, old(aliases), routes.at, aliases)
      ensures Now() == Pruned(old(Now()), now)
    {
      hide Consumed, WellRouted, Inverse, Shrunk, Filter, Newest, Drop, Distinct, Unexpired, TableOk, Pruned;
      TableParts(routes, aliases, consumed, issued);
      DropExpired(now);
      ghost var was, names := routes.at, aliases;
      DropSurplus();
      ShrunkTwice(old(routes).at, old(aliases), was, names, routes.at, aliases);
      TableParts(routes, aliases, consumed, issued);
      PrunedIs(old(Now()), Now(), now);
    }

    /** The new route and its pending mark, before pruning. */
    method AddRoute(owner: Key, tool: Name, now: int)
      requires Valid() && owner in turns.at && Admits(owner, tool)
      modifies this`turns, this`routes, this`issued
      ensures RoutesValid() && turns.Valid() && TurnsOk(turns, issued) && Pending(turns, routes)
      ensures routes == old(routes).Put(Key(owner.session, tool), old(NewRoute(owner, tool, now)))
      ensures routes.keys == old(routes).keys + [Key(owner.session, tool)]
      ensures turns == old(turns).Put(owner, old(turns).at[owner].(pending := old(turns).at[owner].pending + {tool}))
      ensures |turns.keys| == |old(turns).keys| && issued == old(issued) + 1
    {
      hide TableOk, Consumed, WellRouted, Inverse;
      var t := turns.at[owner];
      var k, route := Key(owner.session, tool), NewRoute(owner, tool, now);
      PutKeepsTable(routes, aliases, consumed, issued, k, route);
      PutValid(turns, owner, t.(pending := t.pending + {tool}));
      turns := turns.Put(owner, t.(pending := t.pending + {tool}));
      routes := routes.Put(k, route);
      issued := issued + 1;
    }

    /** rememberBackgroundTaskRoute: at most one level below the limit, once per tool id. */
    method RememberRoute(owner: Key, tool: Name, now: int)
      requires Valid() && owner in turns.at
      modifies this`turns, this`routes, this`aliases, this`issued
      ensures Valid()
      ensures forall k :: k in routes.at && k != Key(owner.session, tool) ==>
                k in old(routes).at && routes.at[k] == old(routes).at[k]
      ensures old(Admits(owner, tool)) ==>
                && Key(owner.session, tool) in routes.at
                && routes.at[Key(owner.session, tool)] == old(NewRoute(owner, tool, now))
                && turns ==
                    old(turns).Put(owner, old(turns).at[owner].(pending := old(turns).at[owner].pending + {tool}))
      ensures !old(Admits(owner, tool)) ==> unchanged(this)
      ensures Now() == Launched(old(Now()), owner, tool, now)
    {
      hide Pruned, Shrunk, Unexpired, TurnsOk, Distinct, Pending;
      hide TableOk, Consumed, WellRouted, Inverse, RouteOk, Filter, Newest;
      var t := turns.at[owner];
      if t.depth >= MAX_BACKGROUND_CHAIN_DEPTH { return; }
      var k := Key(owner.session, tool);
      if k in routes.at { return; }
      if tool in t.pending || |t.pending| >= MAX_BACKGROUND_TASK_IDS { return; }
      AddRoute(owner, tool, now);
      ghost var inserted, names := routes, aliases;
      PruneRoutes(now);
      ShrunkEntries(inserted.at, names, routes.at, aliases);
      PruneKeepsPending(turns, inserted, routes);
      NewestKept(inserted.keys, inserted.at, now, k);
      TableParts(routes, aliases, consumed, issued);
      assert k in routes.keys;
    }

    predicate Admits(owner: Key, tool: Name)
      requires owner in turns.at
      reads this
    {
      && turns.at[owner].depth < MAX_BACKGROUND_CHAIN_DEPTH
      && Key(owner.session, tool) !in routes.at
      && tool !in turns.at[owner].pending && |turns.at[owner].pending| < MAX_BACKGROUND_TASK_IDS
    }

    function NewRoute(owner: Key, tool: Name, now: int): Route
      requires owner in turns.at
      reads this
    {
      var t := turns.at[owner];
      Route(issued, t.serial, t.chat, t.quote, owner, tool, {}, t.depth + 1, now + BACKGROUND_TASK_ROUTE_TTL_MS)
    }

    /** rememberBackgroundTaskAlias: a task id names one route only, and never creates one. */
    method RememberAlias(session: Name, tool: Name, task: Name)
      requires Valid()
      modifies this`routes, this`aliases
      ensures Valid()
      ensures var k, a := Key(session, tool), Key(session, task);
        if k in old(routes).at && (a in old(aliases) ==> old(aliases)[a] == k)
        then aliases == old(aliases)[a := k] &&
            routes == old(routes).Put(k, old(routes).at[k].(aliases := old(routes).at[k].aliases + {a}))
        else aliases == old(aliases) && routes == old(routes)
      ensures Now() == Named(old(Now()), session, tool, task)
    {
      var k := Key(session, tool);
      if k !in routes.at { return; }
      var a := Key(session, task);
      if a in aliases && aliases[a] != k { return; }
      AliasKeepsTable(routes, aliases, consumed, issued, k, a);
      aliases := aliases[a := k];
      routes := routes.Put(k, routes.at[k].(aliases := routes.at[k].aliases + {a}));
    }

    /** The owner, if still there, no longer waits for the tool of a route that is gone. */
    method ClearPending(r: Route)
      requires RoutesValid() && turns.Valid() && TurnsOk(turns, issued) && Pending(turns, routes)
      requires Key(r.owner.session, r.tool) !in routes.at
      modifies this`turns
      ensures turns.Valid() && TurnsOk(turns, issued) && Pending(turns, routes)
      ensures turns == if r.owner in old(turns).at then old(turns).Put(r.owner, Without(old(turns).at[r.owner], r.tool))
                else old(turns)
      ensures |turns.keys| == |old(turns).keys|
    {
      if r.owner !in turns.at { return; }
      var t := Without(turns.at[r.owner], r.tool);
      PutValid(turns, r.owner, t);
      TableParts(routes, aliases, consumed, issued);
      assert forall k :: k in routes.at ==> RouteOk(k, routes.at[k], issued);
      turns := turns.Put(r.owner, t);
    }

    /** terminalizeBackgroundTaskRoute: true if the owner was waiting for the tool. */
    method TerminalizeRoute(session: Name, tool: Name) returns (changed: bool)
      requires Valid()
      modifies this`turns, this`routes, this`aliases
      ensures Valid()
      ensures var k := Key(session, tool);
        && routes == old(routes).Delete(k)
        && aliases == AliasesWithout(old(aliases), k)
        && (k !in old(routes).at ==> turns == old(turns) && !changed)
        && (k in old(routes).at ==>
              turns == Released(old(turns), old(routes).at[k]) && (changed <==> Awaits(old(turns), old(routes).at[k])))
      ensures Now() == Ended(old(Now()), Key(session, tool))
    {
      var k := Key(session, tool);
      TableParts(routes, aliases, consumed, issued);
      DeleteKeepsTable(routes, aliases, consumed, issued, k);
      var route := DeleteRoute(k);
      if route == None { return false; }
      changed := route.value.owner in turns.at && route.value.tool in turns.at[route.value.owner].pending;
      ClearPending(route.value);
    }

    /** terminalizeBackgroundTaskAlias, for a TaskStop: the route the alias names goes, and its agent is stopped. */
    method TerminalizeAlias(session: Name, task: Name)
      requires Valid()
      modifies this`turns, this`routes, this`aliases
      ensures Valid()
      ensures var a := Key(session, task);
        if a in old(aliases) then
          var k := old(aliases)[a];
          var r := old(routes).at[k];
          && routes == old(routes).Delete(k)
          && aliases == AliasesWithout(old(aliases), k)
          && turns == Stopped(Released(old(turns), r), r.owner, task)
        else unchanged(this)
      ensures Now() == StoppedTask(old(Now()), session, task)
    {
      var a := Key(session, task);
      TableParts(routes, aliases, consumed, issued);
      if a !in aliases { return; }
      var k := aliases[a];
      var route := DeleteRoute(k);
      if route == None || a !in route.value.aliases { return; }
      ClearPending(route.value);
      StopAgent(route.value.owner, task);
    }

    /** recordAgentTerminal: a running agent stops; nothing else changes. */
    method StopAgent(owner: Key, agent: Name)
      requires turns.Valid() && TurnsOk(turns, issued) && Pending(turns, routes)
      modifies this`turns
      ensures turns.Valid() && TurnsOk(turns, issued) && Pending(turns, routes)
      ensures turns == Stopped(old(turns), owner, agent)
      ensures |turns.keys| == |old(turns).keys|
    {
      if owner !in turns.at { return; }
      var t := turns.at[owner];
      if agent !in t.agents || !t.agents[agent] { return; }
      PutValid(turns, owner, t.(agents := t.agents[agent := false]));
      turns := turns.Put(owner, t.(agents := t.agents[agent := false]));
    }

    // ----- retention -----

    /** Drops the oldest turn of one kind; false if there is none. */
    method EvictOldest(active: bool) returns (evicted: bool)
      requires turns.Valid()
      modifies this`turns
      ensures var kind := Filter(old(turns).keys, Kind(old(turns).at, active));
        && (evicted <==> kind != [])
        && turns == if evicted then old(turns).Delete(kind[0]) else old(turns)
    {
      var i := 0;
      ghost var kind := Kind(turns.at, active);
      assert turns.keys[..0] == [];
      while i < |turns.keys|
        invariant 0 <= i <= |turns.keys|
        invariant turns == old(turns)
        invariant Filter(turns.keys[..i], kind) == []
      {
        var k := turns.keys[i];
        assert turns.keys[..i + 1] == turns.keys[..i] + [k];
        FilterConcat(turns.keys[..i], [k], kind);
        if IsActiveBackground(turns.at[k]) == active {
          assert turns.keys == turns.keys[..i + 1] + turns.keys[i + 1..];
          FilterConcat(turns.keys[..i + 1], turns.keys[i + 1..], kind);
          turns := turns.Delete(k);
          return true;
        }
        i := i + 1;
      }
      assert turns.keys[..i] == turns.keys;
      return false;
    }

    /** One of the two loops of evict. */
    method EvictBeyond(active: bool, limit: nat)
      requires turns.Valid()
      modifies this`turns
      ensures turns.Valid() && FewerTurns(old(turns), turns)
      ensures Filter(turns.keys, Kind(old(turns).at, active)) ==
                Newest(Filter(old(turns).keys, Kind(old(turns).at, active)), limit)
      ensures Filter(turns.keys, Kind(old(turns).at, !active)) == Filter(old(turns).keys, Kind(old(turns).at, !active))
      ensures turns.at.Keys <= old(turns).at.Keys && turns == Only(old(turns), turns.at.Keys)
    {
      hide Filter, Drop, Kind, Only;
      OnlySelf(turns);
      ghost var was, n := turns, 0;
      ghost var all, others := Filter(turns.keys, Kind(turns.at, active)), Filter(turns.keys, Kind(turns.at, !active));
      while |Filter(turns.keys, Kind(turns.at, active))| > limit
        invariant turns.Valid() && FewerTurns(was, turns)
        invariant turns.at.Keys <= was.at.Keys && turns == Only(was, turns.at.Keys)
        invariant n <= |all| && (n == 0 || |all| - n >= limit)
        invariant Filter(turns.keys, Kind(was.at, active)) == all[n..]
        invariant Filter(turns.keys, Kind(was.at, !active)) == others
        invariant Filter(turns.keys, Kind(turns.at, active)) == all[n..]
        decreases |turns.keys|
      {
        EvictStep(was, turns, active);
        ghost var before, kind := turns, Filter(turns.keys, Kind(turns.at, active));
        var more := EvictOldest(active);
        if !more { break; }
        OnlyDelete(was, before.at.Keys, kind[0]);
        assert turns.at.Keys == before.at.Keys - {kind[0]};
        n := n + 1;
      }
    }

    /** evict: the newest turns of each kind stay, whatever the other kind needs. */
    method Evict()
      requires turns.Valid()
      modifies this`turns
      ensures turns.Valid() && FewerTurns(old(turns), turns)
      ensures Filter(turns.keys, Kind(old(turns).at, true)) ==
                Newest(Filter(old(turns).keys, Kind(old(turns).at, true)), MAX_ACTIVE_BACKGROUND_TURNS)
      ensures Filter(turns.keys, Kind(old(turns).at, false)) ==
                Newest(Filter(old(turns).keys, Kind(old(turns).at, false)), MAX_RETAINED_TURNS)
      ensures |turns.keys| <= MAX_RETAINED_TURNS + MAX_ACTIVE_BACKGROUND_TURNS
      ensures turns == Only(old(turns), Retained(old(turns)))
    {
      hide Filter, Kind, Only, Distinct, Retained;
      EvictBeyond(true, MAX_ACTIVE_BACKGROUND_TURNS);
      ghost var middle := turns;
      KindsAgree(old(turns), middle, middle);
      EvictBeyond(false, MAX_RETAINED_TURNS);
      KindsAgree(old(turns), middle, turns);
      KindsCover(old(turns), turns);
      OnlyOnly(old(turns), middle.at.Keys, turns.at.Keys);
      RetainedIs(old(turns), turns);
    }

    // ----- binding a prompt -----

    /** The route a completion may consume: its own tool's, unless the task id contradicts it, or else its task's. */
    function RouteFor(session: Name, n: Notification): (r: Option<Key>)
      requires Inverse(routes, aliases)
      reads this
      ensures r.Some? ==> r.value in routes.at && Names(routes.at[r.value], r.value, session, n)
      ensures n.tool.Some? && n.task == None ==>
                r == if Key(session, n.tool.value) in routes.at then Some(Key(session, n.tool.value)) else None
    {
      var direct := if n.tool.Some? then Some(Key(session, n.tool.value)) else None;
      var supplied := if n.task.Some? then Some(Key(session, n.task.value)) else None;
      var viaAlias := if supplied.Some? && supplied.value in aliases then Some(aliases[supplied.value]) else None;
      if direct.Some? && direct.value in routes.at then
        var route := routes.at[direct.value];
        if supplied.Some? &&
            ((route.aliases != {} && supplied.value !in route.aliases) || (viaAlias.Some? && viaAlias != direct))
                then None
        else direct
      else viaAlias
    }

    /** Consumes a route for one completion turn and settles its owner. */
    method ConsumeRoute(session: Name, n: Notification, k: Key) returns (route: Route)
      requires Valid() && k in routes.at
      modifies this`turns, this`routes, this`aliases, this`consumed
      ensures Valid()
      ensures route == old(routes).at[k]
      ensures routes == old(routes).Delete(k) && aliases == AliasesWithout(old(aliases), k)
      ensures consumed == old(consumed) + [route.serial]
      ensures |turns.keys| == |old(turns).keys|
      ensures turns ==
              var released := Released(old(turns), route);
              if n.task.Some? && Key(session, n.task.value) in route.aliases
                  then Stopped(released, route.owner, n.task.value) else released
    {
      TableParts(routes, aliases, consumed, issued);
      var deleted := DeleteRoute(k);
      route := deleted.value;
      ConsumeKeepsTable(old(routes), routes, aliases, consumed, issued, k);
      consumed := consumed + [route.serial];
      ClearPending(route);
      if n.task.Some? && Key(session, n.task.value) in route.aliases { StopAgent(route.owner, n.task.value); }
    }

    /** A newer direct prompt retires the older foreground turns of its chat. */
    method RetireOlder(chat: Name)
      requires turns.Valid()
      modifies this`turns
      ensures turns.Valid() && FewerTurns(old(turns), turns)
      ensures turns.keys == Filter(old(turns).keys, Survives(old(turns).at, chat))
      ensures turns == Newer(old(turns), chat)
    {
      hide Filter, Drop, Sifted, Only, Survives;
      var ks := turns.keys;
      ghost var was, p := turns, Survives(turns.at, chat);
      SiftEnds(ks, p);
      var i := 0;
      while i < |ks|
        invariant 0 <= i <= |ks|
        invariant turns.Valid() && FewerTurns(was, turns)
        invariant turns.keys == Sifted(ks, i, p)
      {
        SiftStep(ks, i, p);
        var t := turns.at[ks[i]];
        SurvivesAt(was.at, chat, ks[i]);
        if t.chat == chat && !t.background && !IsActiveBackground(t) {
          DeleteValid(turns, ks[i]);
          turns := turns.Delete(ks[i]);
        }
        i := i + 1;
      }
      NewerIs(was, turns, chat);
    }

    /** A fresh turn object under its key, the newest of all; the surplus is evicted. */
    method Place(k: Key, t: Turn)
      requires RoutesValid() && |routes.keys| <= MAX_BACKGROUND_TASK_ROUTES
      requires turns.Valid() && TurnsOk(turns, issued) && Pending(turns, routes)
      requires t.serial == issued && t.depth <= MAX_BACKGROUND_CHAIN_DEPTH && !IsActiveBackground(t)
      modifies this`turns, this`issued
      ensures Valid() && issued == old(issued) + 1
      ensures k in turns.at && turns.at[k] == t
      ensures forall l :: l in turns.at && l != k ==> l in old(turns).at && turns.at[l] == old(turns).at[l]
      ensures Now() == Placed(old(Now()), k, t)
    {
      hide Only, Retained;
      hide TableOk, Filter, Newest, Pending, TurnsOk, Distinct, Kind;
      PlaceKeeps(turns, routes, aliases, consumed, issued, k, t);
      turns := turns.Delete(k);
      turns := turns.Put(k, t);
      issued := issued + 1;
      ghost var placed := turns;
      Evict();
      NewestTurnKept(placed, k);
      FilterMembers(turns.keys, Kind(placed.at, false));
      FewerKeeps(placed, turns, routes, issued);
    }

    /** bindTurn for a direct Telegram prompt. */
    method BindDirect(k: Key, chat: Name, quote: Name)
      requires Valid()
      modifies this`turns, this`issued
      ensures Valid()
      ensures k in turns.at && turns.at[k] == Turn(old(issued), chat, quote, false, 0, Foreground, {}, map[])
      ensures forall l :: l in turns.at && l != k ==>
                && l in old(turns).at && turns.at[l] == old(turns).at[l]
                && (turns.at[l].chat == chat ==> turns.at[l].background || IsActiveBackground(turns.at[l]))
      ensures var was := old(Now());
        Now() ==
        Placed(was.(turns := Newer(was.turns, chat)), k, Turn(was.issued, chat, quote, false, 0, Foreground, {}, map[]))
    {
      hide Newer, Placed;
      ghost var was := turns;
      RetireOlder(chat);
      FilterMembers(was.keys, Survives(was.at, chat));
      assert forall l :: l in turns.at ==> l in turns.keys;
      FewerKeeps(was, turns, routes, issued);
      Place(k, Turn(issued, chat, quote, false, 0, Foreground, {}, map[]));
    }

    /**
      bindTurn for an internal completion: it binds only through a route that exists, and that
      route is consumed before anything else happens. later: the clock when expiry is rechecked.
     */
    method BindCompletion(k: Key, n: Notification, authorized: bool, later: int)
      requires Valid()
      modifies this`turns, this`routes, this`aliases, this`issued, this`consumed
      ensures Valid()
      ensures var route := old(RouteFor(k.session, n));
        if route.Some? && old(routes).at[route.value].expiresAt > later && authorized then
          var r := old(routes).at[route.value];
          && routes == old(routes).Delete(route.value)
          && consumed == old(consumed) + [r.serial]
          && k in turns.at && turns.at[k] == Turn(old(issued), r.chat, r.quote, true, r.depth, Foreground, {}, map[])
        else unchanged(this)
      ensures Now() == TakenUp(old(Now()), k, n, authorized, later)
    {
      hide Placed, TurnsOk, Pending, Consumed, Filter;
      ghost var was := Now();
      TableParts(routes, aliases, consumed, issued);
      var route := RouteFor(k.session, n);
      if route == None { return; }
      if routes.at[route.value].expiresAt <= later { return; }
      if !authorized { return; }
      assert RouteOk(route.value, routes.at[route.value], issued);
      var r := ConsumeRoute(k.session, n, route.value);
      Place(k, Turn(issued, r.chat, r.quote, true, r.depth, Foreground, {}, map[]));
    }

    /** bindTurn. Control commands and prompts that are neither direct nor a completion bind nothing. */
    method Bind(k: Key, prompt: Prompt, authorized: bool, now: int, later: int)
      requires Valid()
      modifies this`turns, this`routes, this`aliases, this`issued, this`consumed
      ensures Valid()
      ensures prompt == Other || (prompt.Direct? && (prompt.control || !authorized)) ==>
                turns == old(turns) && consumed == old(consumed)
      ensures prompt.Direct? && !prompt.control && authorized ==>
                k in turns.at &&
                    turns.at[k] == Turn(old(issued), prompt.chat, prompt.quote, false, 0, Foreground, {}, map[]) &&
                        consumed == old(consumed)
      ensures prompt.Task? ==>
                || (turns == old(turns) && consumed == old(consumed))
                || exists r :: Binds(old(routes), r, k, prompt.notification, now, later) &&
                    consumed == old(consumed) + [old(routes).at[r].serial] &&
                     r !in routes.at && k in turns.at && turns.at[k].background &&
                         turns.at[k].chat == old(routes).at[r].chat
      ensures Now() == Bound(old(Now()), k, prompt, authorized, now, later)
    {
      hide Pruned, Placed, Newer, TakenUp;
      hide TableOk, TurnsOk, Pending, Filter, Consumed, Inverse, WellRouted;
      TableParts(routes, aliases, consumed, issued);
      ghost var table := routes;
      PruneRoutes(now);
      PruneKeepsPending(turns, table, routes);
      match prompt
      case Other =>
      case Direct(chat, quote, control) =>
        if !control && authorized { BindDirect(k, chat, quote); }
      case Task(n) =>
        TableParts(routes, aliases, consumed, issued);
        ghost var route := RouteFor(k.session, n);
        if route.Some? {
          FilterMembers(table.keys, Unexpired(table.at, now));
          assert route.value in routes.keys;
          assert Binds(old(routes), route.value, k, n, now, later) || routes.at[route.value].expiresAt <= later;
        }
        BindCompletion(k, n, authorized, later);
    }

    // ----- the recording hooks -----

    /** recordTool, as far as routes are concerned: Skill, Task and Agent launches are remembered. */
    method RecordTool(k: Key, tool: Name, launches: bool, now: int)
      requires Valid()
      modifies this`turns, this`routes, this`aliases, this`issued
      ensures Valid()
      ensures k !in old(turns).at || !launches || !old(Admits(k, tool)) ==> unchanged(this)
      ensures k in old(turns).at && launches && old(Admits(k, tool)) ==>
                Key(k.session, tool) in routes.at && routes.at[Key(k.session, tool)] == old(NewRoute(k, tool, now))
      ensures Now() == if launches then Launched(old(Now()), k, tool, now) else old(Now())
    {
      if k !in turns.at || !launches { return; }
      RememberRoute(k, tool, now);
    }

    method RecordSubagentStart(k: Key, agent: Name)
      requires Valid()
      modifies this`turns
      ensures Valid()
      ensures turns == Started(old(turns), k, agent)
    {
      if k !in turns.at { return; }
      var t := turns.at[k];
      if t.depth >= MAX_BACKGROUND_CHAIN_DEPTH || agent in t.agents || |t.agents| >= MAX_BACKGROUND_AGENTS { return; }
      UpdateTurn(k, t.(agents := t.agents[agent := true]));
    }

    method RecordSubagentStop(k: Key, agent: Name)
      requires Valid()
      modifies this`turns
      ensures Valid()
      ensures turns == Stopped(old(turns), k, agent)
    {
      StopAgent(k, agent);
    }

    /**
      recordSuccess and recordFailure: a launch adds an alias, a TaskStop ends one by its alias, anything else ends its
      own route.
     */
    method RecordResult(k: Key, tool: Name, launched: bool, stopped: bool, task: Option<Name>)
      requires Valid()
      modifies this`turns, this`routes, this`aliases
      ensures Valid()
      ensures k !in old(turns).at ==> unchanged(this)
      ensures launched ==> turns == old(turns) && routes.keys == old(routes).keys
      ensures k in old(turns).at && !launched && stopped && task.Some? ==>
                routes == if Key(k.session, task.value) in old(aliases)
                    then old(routes).Delete(old(aliases)[Key(k.session, task.value)]) else old(routes)
      ensures k in old(turns).at && !launched && !(stopped && task.Some?) ==>
                routes == old(routes).Delete(Key(k.session, tool))
      ensures Now() == Finished(old(Now()), k, tool, launched, stopped, task)
    {
      hide Named, StoppedTask, Ended;
      if k !in turns.at { return; }
      if launched {
        if task.Some? { RememberAlias(k.session, tool, task.value); }
      } else if stopped && task.Some? {
        TerminalizeAlias(k.session, task.value);
      } else {
        var _ := TerminalizeRoute(k.session, tool);
      }
    }

    /**
      beginBackgroundAgentDisclosure on a turn object that a hook has held across its awaits: it stays
      for its running agents. The answer reaches the hook only after another await.
     */
    method BeginBackground(k: Key, serial: nat) returns (began: bool)
      requires Valid()
      modifies this`turns
      ensures Valid()
      ensures began <==> Present(old(turns), k, serial) && HasActive(old(turns).at[k])
      ensures turns == if began then old(turns).Put(k, old(turns).at[k].(phase := BackgroundAgents)) else old(turns)
    {
      if k !in turns.at || turns.at[k].serial != serial || !HasActive(turns.at[k]) { return false; }
      UpdateTurn(k, turns.at[k].(phase := BackgroundAgents));
      return true;
    }

    /**
      The turn object goes, if it is still the one under its key: after a final text, a failure, or the
      completion of a killed task, whatever has become of its agents meanwhile.
     */
    method DropTurn(k: Key, serial: nat)
      requires Valid()
      modifies this`turns
      ensures Valid()
      ensures turns == if Present(old(turns), k, serial) then old(turns).Delete(k) else old(turns)
    {
      if k !in turns.at || turns.at[k].serial != serial { return; }
      DeleteValid(turns, k);
      FewerKeeps(turns, turns.Delete(k), routes, issued);
      turns := turns.Delete(k);
    }

    /** A turn object changes without losing a pending task. */
    method UpdateTurn(k: Key, t: Turn)
      requires Valid() && k in turns.at
      requires t.serial == turns.at[k].serial && t.depth == turns.at[k].depth && t.pending == turns.at[k].pending
      modifies this`turns
      ensures Valid() && turns == old(turns).Put(k, t)
    {
      PutValid(turns, k, t);
      turns := turns.Put(k, t);
    }
  }

  datatype Hook =
    | BindTurn(k: Key, prompt: Prompt, authorized: bool, now: int, later: int)
    | ToolUse(k: Key, tool: Name, launches: bool, now: int)
    | SubagentStart(k: Key, agent: Name)
    | SubagentStop(k: Key, agent: Name)
    | ToolResult(k: Key, tool: Name, launched: bool, stopped: bool, task: Option<Name>)
    | Background(k: Key, serial: nat)
    | Retire(k: Key, serial: nat)

  function Next(s: State, h: Hook): State {
    match h
    case BindTurn(k, prompt, authorized, now, later) => Bound(s, k, prompt, authorized, now, later)
    case ToolUse(k, tool, launches, now) => if launches then Launched(s, k, tool, now) else s
    case SubagentStart(k, agent) => s.(turns := Started(s.turns, k, agent))
    case SubagentStop(k, agent) => s.(turns := Stopped(s.turns, k, agent))
    case ToolResult(k, tool, launched, stopped, task) => Finished(s, k, tool, launched, stopped, task)
    case Background(k, serial) =>
      if Present(s.turns, k, serial) && HasActive(s.turns.at[k])
      then s.(turns := s.turns.Put(k, s.turns.at[k].(phase := BackgroundAgents))) else s
    case Retire(k, serial) => if Present(s.turns, k, serial) then s.(turns := s.turns.Delete(k)) else s
  }

  /**
    Aliases and routes are exact inverses, at most 128 routes and 48 turns are kept, no chain is deeper
    than two, no inserted route was consumed twice or is still there after it was consumed, and every
    route whose recording turn lives is pending in it.
   */
  ghost predicate Sane(s: State) {
    && s.turns.Valid() && s.routes.Valid() && Inverse(s.routes, s.aliases) && Pending(s.turns, s.routes)
    && |s.routes.keys| <= MAX_BACKGROUND_TASK_ROUTES
    && |s.turns.keys| <= MAX_RETAINED_TURNS + MAX_ACTIVE_BACKGROUND_TURNS
    && TurnsOk(s.turns, s.issued) && WellRouted(s.routes, s.issued) && Consumed(s.routes, s.consumed, s.issued)
  }

  ghost predicate StepAt(hooks: seq<Hook>, trail: seq<State>, i: nat)
    requires i < |hooks| && i + 1 < |trail|
  {
    trail[i + 1] == Next(trail[i], hooks[i])
  }

  /** The hooks lead along the trail, and every state of it is sane. */
  ghost predicate Follows(hooks: seq<Hook>, trail: seq<State>) {
    && 0 < |trail| <= |hooks| + 1 && trail[0] == Start()
    && (forall i :: 0 <= i < |trail| - 1 ==> StepAt(hooks, trail, i))
    && forall i :: 0 <= i < |trail| ==> Sane(trail[i])
  }

  lemma FollowsOn(hooks: seq<Hook>, trail: seq<State>, s: State)
    requires Follows(hooks, trail) && |trail| <= |hooks| && Sane(s) && s == Next(trail[|trail| - 1], hooks[|trail| - 1])
    ensures Follows(hooks, trail + [s])
  {
    hide Next, Sane;
    forall i | 0 <= i < |trail| ensures StepAt(hooks, trail + [s], i) {
      if i < |trail| - 1 { assert StepAt(hooks, trail, i); }
    }
  }

  lemma FollowsParts(hooks: seq<Hook>, trail: seq<State>)
    requires Follows(hooks, trail)
    ensures 0 < |trail| <= |hooks| + 1
  {
  }

  lemma StartsSane(hooks: seq<Hook>)
    ensures Follows(hooks, [Start()])
  {
  }

  /**
    Any sequence of hooks, where a hook that waits is cut at its awaits into several, and turns may be
    retired at any time: each does what Next says, and every state they lead to is sane.
   */
  method Run(hooks: seq<Hook>) returns (turns: Turns, routes: Routes, aliases: Aliases, ghost trail: seq<State>)
    ensures |trail| == |hooks| + 1 && Follows(hooks, trail)
    ensures var last := trail[|hooks|]; turns == last.turns && routes == last.routes && aliases == last.aliases
  {
    hide Follows, Next, Inverse, WellRouted, Consumed, TurnsOk, Pending, TableOk, Sane;
    var d := new Disclosure();
    trail := [d.Now()];
    StartsSane(hooks);
    for i := 0 to |hooks|
      invariant fresh(d) && d.Valid()
      invariant |trail| == i + 1 && trail[i] == d.Now() && Follows(hooks, trail)
    {
      Perform(d, hooks[i]);
      FollowsOn(hooks, trail, d.Now());
      trail := trail + [d.Now()];
    }
    turns, routes, aliases := d.turns, d.routes, d.aliases;
  }

  method Perform(d: Disclosure, hook: Hook)
    requires d.Valid()
    modifies d
    ensures d.Valid() && d.Now() == Next(old(d.Now()), hook) && Sane(d.Now())
  {
    hide Inverse, WellRouted, Consumed, TurnsOk, Pending, Bound, Launched, Started, Stopped, Finished, HasActive;
    match hook {
      case BindTurn(k, prompt, authorized, now, later) => d.Bind(k, prompt, authorized, now, later);
      case ToolUse(k, tool, launches, now) => d.RecordTool(k, tool, launches, now);
      case SubagentStart(k, agent) => d.RecordSubagentStart(k, agent);
      case SubagentStop(k, agent) => d.RecordSubagentStop(k, agent);
      case ToolResult(k, tool, launched, stopped, task) => d.RecordResult(k, tool, launched, stopped, task);
      case Background(k, serial) => var _ := d.BeginBackground(k, serial);
      case Retire(k, serial) => d.DropTurn(k, serial);
    }
    TableParts(d.routes, d.aliases, d.consumed, d.issued);
  }

  /** A route is consumed by an authorized completion that names it and finds it unexpired, and in no other way. */
  lemma Consumption(s: State, h: Hook) returns (r: Option<Key>)
    requires Sane(s)
    ensures r == None ==> Next(s, h).consumed == s.consumed
    ensures r.Some? ==>
              && h.BindTurn? && h.prompt.Task? && h.authorized
              && Binds(s.routes, r.value, h.k, h.prompt.notification, h.now, h.later)
              && Next(s, h).consumed == s.consumed + [s.routes.at[r.value].serial] && r.value !in Next(s, h).routes.at
  {
    hide Placed, Newer, Filter, Newest, Live;
    r := None;
    PlacedElsewhere();
    if h.BindTurn? && h.prompt.Task? {
      var p := Pruned(s, h.now);
      var route := RouteIn(p, h.k.session, h.prompt.notification);
      if route.Some? && route.value in p.routes.at && p.routes.at[route.value].expiresAt > h.later && h.authorized {
        r := route;
        LiveUnexpired(s.routes, h.now, route.value);
      }
    }
  }

  lemma LiveUnexpired(routes: Routes, now: int, k: Key)
    requires k in Live(routes, now)
    ensures k in routes.at && routes.at[k].expiresAt > now
  {
    var live := Filter(routes.keys, Unexpired(routes.at, now));
    FilterMembers(routes.keys, Unexpired(routes.at, now));
    assert k in Newest(live, MAX_BACKGROUND_TASK_ROUTES) && k in live;
  }

  /** Placing a turn concerns turns alone. */
  lemma PlacedElsewhere()
    ensures forall t: State, k: Key, turn: Turn ::
              Placed(t, k, turn).routes == t.routes && Placed(t, k, turn).consumed == t.consumed
  {
  }

  /** A route that is there afterwards was there before, or an admitted launch has just inserted it. */
  lemma Insertion(s: State, h: Hook, k: Key)
    requires k in Next(s, h).routes.at
    ensures (k in s.routes.at && Next(s, h).routes.at[k].serial == s.routes.at[k].serial) ||
            (h.ToolUse? && h.launches && AdmitsIn(s, h.k, h.tool) && k == Key(h.k.session, h.tool) &&
              Next(s, h).routes.at[k] == RouteOf(s, h.k, h.tool, h.now))
  {
    hide Retained, Newer, Live, Filter, Drop, Newest;
  }

  /** Completion n, bound as k, may consume route r of a table that is pruned first. */
  ghost predicate Binds(routes: Routes, r: Key, k: Key, n: Notification, now: int, later: int) {
    r in routes.at && routes.at[r].expiresAt > now && routes.at[r].expiresAt > later &&
        Names(routes.at[r], r, k.session, n)
  }

  lemma ShrunkEntries(at: map<Key, Route>, aliases: Aliases, at': map<Key, Route>, aliases': Aliases)
    requires Shrunk(at, aliases, at', aliases')
    ensures forall k :: k in at' ==> k in at && at'[k] == at[k]
  {
  }

  lemma ShrunkTwice(
    at: map<Key, Route>, aliases: Aliases, at': map<Key, Route>, aliases': Aliases, at'': map<Key, Route>,
    aliases'': Aliases)
    requires Shrunk(at, aliases, at', aliases') && Shrunk(at', aliases', at'', aliases'')
    ensures Shrunk(at, aliases, at'', aliases'')
  {
  }

  lemma PrunedIs(was: State, s: State, now: int)
    requires s == was.(routes := s.routes, aliases := s.aliases)
    requires was.routes.Valid() && s.routes.Valid() && Shrunk(was.routes.at, was.aliases, s.routes.at, s.aliases)
    requires s.routes.keys ==
             Newest(Filter(was.routes.keys, Unexpired(was.routes.at, now)), MAX_BACKGROUND_TASK_ROUTES)
    ensures s == Pruned(was, now)
  {
    FilterNewest(was.routes.keys, Unexpired(was.routes.at, now), MAX_BACKGROUND_TASK_ROUTES);
    hide Filter, Newest, Elements, Distinct, Unexpired;
    OnlyIs(was.routes, s.routes, Live(was.routes, now));
  }

  /** What is left of each kind is all that is left. */
  lemma RetainedIs(was: Turns, turns: Turns)
    requires turns.Valid() && FewerTurns(was, turns) && turns == Only(was, turns.at.Keys)
    requires Filter(turns.keys, Kind(was.at, true)) ==
             Newest(Filter(was.keys, Kind(was.at, true)), MAX_ACTIVE_BACKGROUND_TURNS)
    requires Filter(turns.keys, Kind(was.at, false)) ==
               Newest(Filter(was.keys, Kind(was.at, false)), MAX_RETAINED_TURNS)
    ensures turns == Only(was, Retained(was))
  {
    hide Filter, Newest, Only;
    FilterMembers(turns.keys, Kind(was.at, true));
    FilterMembers(turns.keys, Kind(was.at, false));
    assert forall k :: k in turns.at <==> k in turns.keys;
    assert turns.at.Keys == Retained(was);
  }

  lemma SurvivesAt(at: map<Key, Turn>, chat: Name, k: Key)
    requires k in at
    ensures Survives(at, chat)(k) <==> !(at[k].chat == chat && !at[k].background && !IsActiveBackground(at[k]))
  {
  }

  lemma NewerIs(was: Turns, turns: Turns, chat: Name)
    requires was.Valid() && turns.Valid() && FewerTurns(was, turns)
    requires turns.keys == Filter(was.keys, Survives(was.at, chat))
    ensures turns == Newer(was, chat)
  {
    var keep := set k | k in was.at && Survives(was.at, chat)(k);
    FilterAgree(was.keys, Survives(was.at, chat), In(keep));
    OnlyIs(was, turns, keep);
  }

  lemma PruneKeepsPending(turns: Turns, was: Routes, routes: Routes)
    requires Pending(turns, was)
    requires forall k :: k in routes.at ==> k in was.at && routes.at[k] == was.at[k]
    ensures Pending(turns, routes)
  {
    forall k | k in routes.at
      ensures RoutePending(turns, routes.at[k])
    {
      assert RoutePending(turns, was.at[k]);
    }
  }

  /** A turn object never seen before fits under any key: no route was recorded by it. */
  lemma PlaceKeeps(turns: Turns, routes: Routes, aliases: Aliases, consumed: seq<nat>, issued: nat, k: Key, t: Turn)
    requires TableOk(routes, aliases, consumed, issued)
    requires turns.Valid() && TurnsOk(turns, issued) && Pending(turns, routes)
    requires t.serial == issued && t.depth <= MAX_BACKGROUND_CHAIN_DEPTH
    ensures TableOk(routes, aliases, consumed, issued + 1)
    ensures var next := turns.Delete(k).Put(k, t);
      && next.Valid() && TurnsOk(next, issued + 1) && Pending(next, routes)
      && next.keys == turns.Delete(k).keys + [k] && next.at == turns.at[k := t]
  {
    DeleteValid(turns, k);
    PutValid(turns.Delete(k), k, t);
    var next := turns.Delete(k).Put(k, t);
    assert forall l :: l in routes.at ==> RouteOk(l, routes.at[l], issued);
    forall l | l in routes.at
      ensures RoutePending(next, routes.at[l])
    {
      assert RoutePending(turns, routes.at[l]);
    }
  }

  lemma FewerKeeps(was: Turns, turns: Turns, routes: Routes, issued: nat)
    requires FewerTurns(was, turns) && TurnsOk(was, issued) && Pending(was, routes)
    ensures TurnsOk(turns, issued) && Pending(turns, routes)
  {
    forall l | l in routes.at
      ensures RoutePending(turns, routes.at[l])
    {
      assert RoutePending(was, routes.at[l]);
    }
  }

  function Survives(at: map<Key, Turn>, chat: Name): Key -> bool {
    k => k in at && !(at[k].chat == chat && !at[k].background && !IsActiveBackground(at[k]))
  }

  lemma NewestTurnKept(turns: Turns, k: Key)
    requires turns.keys != [] && turns.keys[|turns.keys| - 1] == k && k in turns.at && !IsActiveBackground(turns.at[k])
    ensures k in Newest(Filter(turns.keys, Kind(turns.at, false)), MAX_RETAINED_TURNS)
  {
    var p := Kind(turns.at, false);
    assert turns.keys == turns.keys[..|turns.keys| - 1] + [k];
    FilterConcat(turns.keys[..|turns.keys| - 1], [k], p);
    var f := Filter(turns.keys, p);
    assert f[|f| - 1] == k;
    var n := Newest(f, MAX_RETAINED_TURNS);
    assert n[|n| - 1] == k;
  }

  /** The completion names the route: by its tool, or by a task id recorded as its alias. */
  predicate Names(r: Route, k: Key, session: Name, n: Notification) {
    || (n.tool.Some? && k == Key(session, n.tool.value))
    || (n.task.Some? && Key(session, n.task.value) in r.aliases)
  }

  lemma ConsumeKeepsTable(was: Routes, routes: Routes, aliases: Aliases, consumed: seq<nat>, issued: nat, k: Key)
    requires k in was.at && Consumed(was, consumed, issued) && WellRouted(was, issued)
    requires routes == was.Delete(k) && TableOk(routes, aliases, consumed, issued)
    ensures TableOk(routes, aliases, consumed + [was.at[k].serial], issued)
  {
    assert RouteOk(k, was.at[k], issued);
    assert forall l :: l in routes.at ==> l in was.at && routes.at[l] == was.at[l];
  }

  /** Turns have only disappeared. */
  ghost predicate FewerTurns(was: Turns, turns: Turns) {
    forall k :: k in turns.at ==> k in was.at && turns.at[k] == was.at[k]
  }

  lemma EvictStep(was: Turns, turns: Turns, active: bool)
    requires turns.Valid() && FewerTurns(was, turns)
    ensures var kind := Filter(turns.keys, Kind(was.at, active));
      && Filter(turns.keys, Kind(turns.at, active)) == kind
      && (kind != [] ==>
            var next := turns.Delete(kind[0]);
            && next.Valid() && |next.keys| < |turns.keys|
            && Filter(next.keys, Kind(was.at, active)) == kind[1..]
            && Filter(next.keys, Kind(next.at, active)) == kind[1..]
            && Filter(next.keys, Kind(was.at, !active)) == Filter(turns.keys, Kind(was.at, !active)))
  {
    hide Filter, Drop;
    var p, q := Kind(was.at, active), Kind(was.at, !active);
    var kind := Filter(turns.keys, p);
    FilterAgree(turns.keys, Kind(turns.at, active), p);
    if kind != [] {
      var k := kind[0];
      FilterMembers(turns.keys, p);
      FilterMembers(turns.keys, q);
      FilterDistinct(turns.keys, p);
      DeleteValid(turns, k);
      FilterDrop(turns.keys, k, p);
      FilterDrop(turns.keys, k, q);
      DropAt(kind, 0);
      DropAbsent(Filter(turns.keys, q), k);
      var next := turns.Delete(k);
      FilterAgree(next.keys, Kind(next.at, active), p);
    }
  }

  lemma KindsAgree(was: Turns, middle: Turns, turns: Turns)
    requires FewerTurns(was, middle) && FewerTurns(middle, turns) && turns.Valid() && middle.Valid()
    ensures forall b :: Filter(turns.keys, Kind(middle.at, b)) == Filter(turns.keys, Kind(was.at, b))
    ensures forall b :: Filter(middle.keys, Kind(middle.at, b)) == Filter(middle.keys, Kind(was.at, b))
  {
    forall b
      ensures Filter(turns.keys, Kind(middle.at, b)) == Filter(turns.keys, Kind(was.at, b))
      ensures Filter(middle.keys, Kind(middle.at, b)) == Filter(middle.keys, Kind(was.at, b))
    {
      FilterAgree(turns.keys, Kind(middle.at, b), Kind(was.at, b));
      FilterAgree(middle.keys, Kind(middle.at, b), Kind(was.at, b));
    }
  }

  /** Every turn is of one of the two kinds. */
  lemma KindsCover(was: Turns, turns: Turns)
    requires FewerTurns(was, turns) && turns.Valid()
    ensures |turns.keys| == |Filter(turns.keys, Kind(was.at, true))| + |Filter(turns.keys, Kind(was.at, false))|
  {
    FilterSplit(turns.keys, Kind(was.at, true), Kind(was.at, false));
  }

  function Kind(at: map<Key, Turn>, active: bool): Key -> bool { k => k in at && IsActiveBackground(at[k]) == active }

  function Stopped(turns: Turns, owner: Key, agent: Name): Turns {
    if owner in turns.at && agent in turns.at[owner].agents && turns.at[owner].agents[agent]
    then turns.Put(owner, turns.at[owner].(agents := turns.at[owner].agents[agent := false]))
    else turns
  }

  /** The turns once the owner of r no longer waits for r. */
  function Released(turns: Turns, r: Route): Turns {
    if r.owner in turns.at then turns.Put(r.owner, Without(turns.at[r.owner], r.tool)) else turns
  }

  predicate Awaits(turns: Turns, r: Route) { r.owner in turns.at && r.tool in turns.at[r.owner].pending }

  lemma PutKeepsTable(routes: Routes, aliases: Aliases, consumed: seq<nat>, issued: nat, k: Key, r: Route)
    requires TableOk(routes, aliases, consumed, issued) && k !in routes.at
    requires RouteOk(k, r, issued + 1) && r.serial == issued && r.aliases == {}
    ensures TableOk(routes.Put(k, r), aliases, consumed, issued + 1)
    ensures |routes.Put(k, r).keys| == |routes.keys| + 1
  {
    hide Inverse, WellRouted, Consumed, RouteOk;
    PutValid(routes, k, r);
    PutKeepsInverse(routes, aliases, k, r);
    PutKeepsRouted(routes, issued, k, r);
    PutKeepsConsumed(routes, consumed, issued, k, r);
  }

  lemma PutKeepsInverse(routes: Routes, aliases: Aliases, k: Key, r: Route)
    requires Inverse(routes, aliases) && k !in routes.at && r.aliases == {}
    ensures Inverse(routes.Put(k, r), aliases)
  {
  }

  lemma PutKeepsRouted(routes: Routes, issued: nat, k: Key, r: Route)
    requires WellRouted(routes, issued) && RouteOk(k, r, issued + 1)
    ensures WellRouted(routes.Put(k, r), issued + 1)
  {
    var next := routes.Put(k, r);
    forall l | l in next.at
      ensures RouteOk(l, next.at[l], issued + 1)
    {
      if l != k { assert RouteOk(l, routes.at[l], issued); }
    }
  }

  lemma PutKeepsConsumed(routes: Routes, consumed: seq<nat>, issued: nat, k: Key, r: Route)
    requires Consumed(routes, consumed, issued) && WellRouted(routes, issued) && k !in routes.at && r.serial == issued
    ensures Consumed(routes.Put(k, r), consumed, issued + 1)
  {
    var next := routes.Put(k, r);
    assert issued !in consumed;
    forall l, m | l in next.at && m in next.at && next.at[l].serial == next.at[m].serial
      ensures l == m
    {
      if l in routes.at { assert RouteOk(l, routes.at[l], issued); }
      if m in routes.at { assert RouteOk(m, routes.at[m], issued); }
    }
  }

  lemma AliasKeepsInverse(routes: Routes, aliases: Aliases, k: Key, a: Key)
    requires Inverse(routes, aliases) && k in routes.at && (a in aliases ==> aliases[a] == k)
    ensures Inverse(routes.Put(k, routes.at[k].(aliases := routes.at[k].aliases + {a})), aliases[a := k])
  {
  }

  lemma AliasKeepsSerials(routes: Routes, consumed: seq<nat>, issued: nat, k: Key, a: Key)
    requires WellRouted(routes, issued) && Consumed(routes, consumed, issued) && k in routes.at
    ensures var next := routes.Put(k, routes.at[k].(aliases := routes.at[k].aliases + {a}));
            WellRouted(next, issued) && Consumed(next, consumed, issued)
  {
    var next := routes.Put(k, routes.at[k].(aliases := routes.at[k].aliases + {a}));
    assert forall l :: l in next.at ==>
        l in routes.at && next.at[l].serial == routes.at[l].serial &&
            next.at[l] == routes.at[l].(aliases := next.at[l].aliases);
    assert forall l :: l in next.at ==> RouteOk(l, next.at[l], issued) by {
      assert forall l :: l in routes.at ==> RouteOk(l, routes.at[l], issued);
    }
  }

  lemma AliasKeepsTable(routes: Routes, aliases: Aliases, consumed: seq<nat>, issued: nat, k: Key, a: Key)
    requires TableOk(routes, aliases, consumed, issued) && k in routes.at
    requires a in aliases ==> aliases[a] == k
    ensures var next := routes.Put(k, routes.at[k].(aliases := routes.at[k].aliases + {a}));
      TableOk(next, aliases[a := k], consumed, issued) && next.keys == routes.keys
  {
    AliasKeepsInverse(routes, aliases, k, a);
    AliasKeepsSerials(routes, consumed, issued, k, a);
    hide Inverse, WellRouted, Consumed;
    PutValid(routes, k, routes.at[k].(aliases := routes.at[k].aliases + {a}));
  }

  lemma NewestKept(keys: seq<Key>, at: map<Key, Route>, now: int, k: Key)
    requires keys != [] && keys[|keys| - 1] == k && k in at && at[k].expiresAt > now
    ensures k in Newest(Filter(keys, Unexpired(at, now)), MAX_BACKGROUND_TASK_ROUTES)
  {
    hide Filter;
    assert keys == keys[..|keys| - 1] + [k];
    FilterLast(keys[..|keys| - 1], k, Unexpired(at, now));
    var u := Filter(keys, Unexpired(at, now));
    assert u[|u| - 1] == k;
    var n := Newest(u, MAX_BACKGROUND_TASK_ROUTES);
    assert n[|n| - 1] == k;
  }

  lemma TableParts(routes: Routes, aliases: Aliases, consumed: seq<nat>, issued: nat)
    requires TableOk(routes, aliases, consumed, issued)
    ensures Inverse(routes, aliases) && routes.Valid() && WellRouted(routes, issued) &&
              Consumed(routes, consumed, issued)
    ensures Distinct(routes.keys) && forall k :: k in routes.keys <==> k in routes.at
  {
  }

  lemma DropFirst(keys: seq<Key>, n: nat)
    requires n < |keys| && Distinct(keys[n..])
    ensures keys[n..][0] in keys[n..] && Drop(keys[n..], keys[n..][0]) == keys[n + 1..]
  {
    DropAt(keys[n..], 0);
    assert keys[n..][1..] == keys[n + 1..];
  }

  lemma NewestSuffix(keys: seq<Key>, n: nat)
    requires n <= |keys| && |keys| - n <= MAX_BACKGROUND_TASK_ROUTES &&
               (n == 0 || |keys| - n >= MAX_BACKGROUND_TASK_ROUTES)
    ensures Newest(keys, MAX_BACKGROUND_TASK_ROUTES) == keys[n..]
  {
  }

  lemma ShrunkMore(
    at: map<Key, Route>, aliases: Aliases, at': map<Key, Route>, aliases': Aliases, k: Key, at'': map<Key, Route>,
    aliases'': Aliases)
    requires Shrunk(at, aliases, at', aliases') && at'' == at' - {k} && aliases'' == AliasesWithout(aliases', k)
    ensures Shrunk(at, aliases, at'', aliases'')
  {
  }

  /** Entries have only disappeared, and an alias exactly when its route did. */
  ghost predicate Shrunk(at: map<Key, Route>, aliases: Aliases, at': map<Key, Route>, aliases': Aliases) {
    && (forall k :: k in at' ==> k in at && at'[k] == at[k])
    && (forall a :: a in aliases' <==> a in aliases && aliases[a] in at')
    && (forall a :: a in aliases' ==> aliases'[a] == aliases[a])
  }

  lemma ShrunkNot(routes: Routes, aliases: Aliases, consumed: seq<nat>, issued: nat)
    requires TableOk(routes, aliases, consumed, issued)
    ensures Shrunk(routes.at, aliases, routes.at, aliases)
  {
  }

  lemma ShrunkAt(at: map<Key, Route>, aliases: Aliases, at': map<Key, Route>, aliases': Aliases, k: Key, now: int)
    requires Shrunk(at, aliases, at', aliases') && k in at'
    ensures k in at && at'[k] == at[k]
    ensures Unexpired(at, now)(k) <==> at[k].expiresAt > now
  {
  }
}
