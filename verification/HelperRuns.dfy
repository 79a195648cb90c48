/** Whole runs of the root helper: a request is claimed, then the service is switched, then the receipt is closed. */
module HelperRuns {
  import opened Wrappers
  import RequestClaims
  import opened SwitchHelper

  /**
    One run. newSession: the fresh session's id; claimFaults, ticks: what befalls the steps of the claim and of the
    switch.
   */
  datatype Request = Request(
    elapsed: nat, id: string, chat: string, action: RequestClaims.Action, current: string, newSession: string,
    patience: nat, recovery: nat, claimFaults: seq<Fault>, ticks: seq<Tick>, nonce: nat)

  /** outcome: how the switch ended, if the run got as far. */
  datatype Report = Report(time: int, id: string, outcome: Option<Flow<Outcome>>)

  function ModelOf(name: string): Model { if name == "inherit" then None else Some(name) }

  /** What a switch nothing interferes with comes to. */
  function Announced(request: Request, unit: Unit): Outcome {
    match request.action
    case Reset => if unit.marked then Completed else Failed(true)
    case Resume(target) => if target != request.current then Completed else Failed(true)
    case SetModel(_) => Completed
  }

  /** The switch of one run. */
  method Switch(service: Service, request: Request) returns (r: Flow<Outcome>)
    modifies service
    ensures r.Return? ==> service.Settled(old(service.unit))
    ensures r.Throw? ==> service.unit == old(service.unit)
    ensures r == Return(Completed) ==> service.unit == old(service.unit)
    ensures r == Return(Completed) ==>
              match request.action
              case Reset => service.proven == Some(Fresh(request.newSession))
              case Resume(target) => service.process.start == Start.Resume(target)
              case SetModel(name) =>
                service.process.model == service.modelEnv == if name == "inherit" then None else Some(name)
    ensures Arrives(request.ticks) ==> !r.Die? && service.unit == old(service.unit)
    ensures request.ticks == [] && request.patience > 0 && request.recovery > 0 &&
              old(service.unit).start == Continue ==>
              r == Return(Announced(request, old(service.unit)))
  {
    service.schedule := request.ticks;
    match request.action
    case Reset => r := service.ResetSession(request.current, request.newSession, request.patience, request.recovery);
    case Resume(target) => r := service.ResumeSession(target, request.current, request.patience, request.recovery);
    case SetModel(name) => r := service.ModelSession(ModelOf(name), request.patience);
  }

  /** The run died in its switch, or its last write of the original unit had no effect. */
  ghost predicate Lost(report: Report, original: Unit, lastWrite: Option<(Unit, bool)>) {
    report.outcome.Some? && (report.outcome.value.Die? || lastWrite == Some((original, false)))
  }

  /** A run starts the switch only if it holds the claim, which it does exactly if there is room when nothing fails. */
  method RunHelper(state: RequestClaims.RequestState, service: Service, request: Request) returns (report: Report)
    requires state.Valid()
    modifies state, service
    ensures state.Valid() && state.clock == old(state.clock) + request.elapsed
    ensures report.time == state.clock && report.id == request.id
    ensures report.outcome.Some? ==>
              && (request.id in old(state.claimedAt) ==>
                    report.time - old(state.claimedAt)[request.id] >= RequestClaims.REQUEST_RETENTION_SECONDS)
              && state.claimedAt == old(state.claimedAt)[request.id := report.time]
    ensures report.outcome == None ==> unchanged(service) && state.claimedAt == old(state.claimedAt)
    ensures !Lost(report, old(service.unit), service.lastWrite) ==> service.unit == old(service.unit)
    ensures Arrives(request.ticks) ==> service.unit == old(service.unit)
    ensures request.claimFaults == [] && RequestClaims.Final(request.id) !in old(state.entries) ==>
              (report.outcome.Some? <==> RequestClaims.Room(old(state.entries), report.time))
    ensures report.outcome.Some? && request.ticks == [] && request.patience > 0 && request.recovery > 0 &&
              old(service.unit).start == Continue ==>
              report.outcome == Some(Return(Announced(request, old(service.unit))))
  {
    state.Wait(request.elapsed);
    state.schedule := request.claimFaults;
    var claim := state.ClaimRequest(request.id, request.chat, request.action);
    if !claim.Return? || !claim.value.claimed { return Report(state.clock, request.id, None); }
    service.lastWrite := None;
    var outcome := Switch(service, request);
    if outcome.Return? {
      var status := if outcome.value == Completed then RequestClaims.Complete else RequestClaims.Status.Failed;
      var _ := state.FinishRequest(request.id, status, request.nonce);
    }
    return Report(state.clock, request.id, Some(outcome));
  }

  /** Two switches for one request lie at least the retention time apart. */
  ghost predicate Apart(reports: seq<Report>) {
    forall i, j :: 0 <= i < j < |reports| ==>
      reports[i].outcome.Some? && reports[j].outcome.Some? && reports[i].id == reports[j].id ==>
      reports[j].time - reports[i].time >= RequestClaims.REQUEST_RETENTION_SECONDS
  }

  ghost predicate Recorded(reports: seq<Report>, claimedAt: map<string, int>) {
    forall i :: 0 <= i < |reports| && reports[i].outcome.Some? ==>
        reports[i].id in claimedAt && reports[i].time <= claimedAt[reports[i].id]
  }

  /** Each report is made its request's seconds after the one before it. */
  ghost predicate OnTime(start: int, requests: seq<Request>, reports: seq<Report>, i: nat)
    requires i < |reports| <= |requests|
  {
    reports[i].id == requests[i].id && reports[i].time == requests[i].elapsed + if i == 0 then start
        else reports[i - 1].time
  }

  /** What a run leaves behind: its unit, what it last tried to write there, and the receipts. */
  datatype Mark = Mark(
    unit: Unit, lastWrite: Option<(Unit, bool)>, entries: map<RequestClaims.Name, RequestClaims.Entry>)

  /** One run from one mark to the next. */
  ghost predicate Follows(request: Request, report: Report, before: Mark, after: Mark) {
    && (!Lost(report, before.unit, after.lastWrite) ==> after.unit == before.unit)
    && (Arrives(request.ticks) ==> after.unit == before.unit)
    && (request.claimFaults == [] && RequestClaims.Final(request.id) !in before.entries ==>
          (report.outcome.Some? <==> RequestClaims.Room(before.entries, report.time)))
    && (report.outcome.Some? && request.ticks == [] && request.patience > 0 && request.recovery > 0 &&
          before.unit.start == Continue ==>
          report.outcome == Some(Return(Announced(request, before.unit))))
  }

  lemma StaysApart(reports: seq<Report>, was: map<string, int>, report: Report, claimedAt: map<string, int>)
    requires Apart(reports) && Recorded(reports, was)
    requires report.outcome.Some? ==>
               && (report.id in was ==> report.time - was[report.id] >= RequestClaims.REQUEST_RETENTION_SECONDS)
               && claimedAt == was[report.id := report.time]
    requires report.outcome == None ==> claimedAt == was
    ensures Apart(reports + [report]) && Recorded(reports + [report], claimedAt)
  {
  }

  ghost predicate FollowsAt(requests: seq<Request>, reports: seq<Report>, trail: seq<Mark>, i: nat)
    requires i < |reports| <= |requests| && |trail| == |reports| + 1
  {
    Follows(requests[i], reports[i], trail[i], trail[i + 1])
  }

  /** The runs lead along the trail, each at its time, and no request is carried out again too early. */
  ghost predicate Course(start: int, requests: seq<Request>, reports: seq<Report>, trail: seq<Mark>) {
    && |reports| <= |requests| && |trail| == |reports| + 1 && Apart(reports)
    && forall i :: 0 <= i < |reports| ==> OnTime(start, requests, reports, i) && FollowsAt(requests, reports, trail, i)
  }

  /**
    Every call of the i-th run arrived, or at least it neither died in its switch nor lost its last write of the unit.
   */
  ghost predicate Spared(requests: seq<Request>, reports: seq<Report>, trail: seq<Mark>, i: nat)
    requires i < |reports| <= |requests| && |trail| == |reports| + 1
  {
    Arrives(requests[i].ticks) || !Lost(reports[i], trail[i].unit, trail[i + 1].lastWrite)
  }

  lemma CourseGoesOn(
    start: int, requests: seq<Request>, reports: seq<Report>, trail: seq<Mark>, report: Report, mark: Mark)
    requires Course(start, requests, reports, trail) && |reports| < |requests|
    requires Follows(requests[|reports|], report, trail[|reports|], mark) && report.id == requests[|reports|].id
    requires report.time == requests[|reports|].elapsed + if reports == [] then start else reports[|reports| - 1].time
    requires Apart(reports + [report])
    ensures Course(start, requests, reports + [report], trail + [mark])
  {
    hide Follows, Apart;
    var more, longer := reports + [report], trail + [mark];
    forall i | 0 <= i < |more| ensures OnTime(start, requests, more, i) && FollowsAt(requests, more, longer, i) {
      if i < |reports| { assert OnTime(start, requests, reports, i) && FollowsAt(requests, reports, trail, i); }
    }
  }

  /** Runs that were spared hand the unit on. */
  lemma {:induction false} UnitStays(start: int, requests: seq<Request>, reports: seq<Report>, trail: seq<Mark>, n: nat)
    requires Course(start, requests, reports, trail) && n <= |reports|
    requires forall i :: 0 <= i < n ==> Spared(requests, reports, trail, i)
    ensures trail[n].unit == trail[0].unit
  {
    if n > 0 {
      UnitStays(start, requests, reports, trail, n - 1);
      assert FollowsAt(requests, reports, trail, n - 1) && Spared(requests, reports, trail, n - 1);
    }
  }

  /**
    Any sequence of requests, each run failing or dying wherever it may: no request is carried out
    twice within the retention time, the receipts stay within their bound, and the unit is the one the
    service started with as long as every run was spared.
   */
  method Serve(unit: Unit, process: Process, env: Model, start: int, requests: seq<Request>)
    returns (reports: seq<Report>, last: Unit, entries: map<RequestClaims.Name, RequestClaims.Entry>,
        ghost trail: seq<Mark>)
    ensures |reports| == |requests| && Course(start, requests, reports, trail)
    ensures trail[0] == Mark(unit, None, map[])
    ensures last == trail[|requests|].unit && entries == trail[|requests|].entries
    ensures (forall i :: 0 <= i < |requests| ==> Spared(requests, reports, trail, i)) ==> last == unit
    ensures |RequestClaims.Finals(entries)| <= RequestClaims.MAX_REQUEST_RECEIPTS
  {
    hide Lost, Apart, Recorded, Announced, Course, RequestClaims.Sound, RequestClaims.Room, Arrives;
    var service := new Service(unit, process, env);
    var state := new RequestClaims.RequestState(start);
    reports, trail := [], [Mark(service.unit, service.lastWrite, state.entries)];
    NoReports(start, requests, trail, state.claimedAt);
    for i := 0 to |requests|
      invariant fresh(service) && fresh(state) && state.Valid()
      invariant |reports| == i && Recorded(reports, state.claimedAt)
      invariant state.clock == if i == 0 then start else reports[i - 1].time
      invariant |trail| == i + 1 && trail[0] == Mark(unit, None, map[]) &&
                  trail[i] == Mark(service.unit, service.lastWrite, state.entries)
      invariant Course(start, requests, reports, trail)
    {
      ghost var was := state.claimedAt;
      CourseParts(start, requests, reports, trail);
      var report := RunHelper(state, service, requests[i]);
      StaysApart(reports, was, report, state.claimedAt);
      ghost var mark := Mark(service.unit, service.lastWrite, state.entries);
      CourseGoesOn(start, requests, reports, trail, report, mark);
      reports, trail := reports + [report], trail + [mark];
    }
    CourseParts(start, requests, reports, trail);
    if forall i :: 0 <= i < |requests| ==> Spared(requests, reports, trail, i) {
      UnitStays(start, requests, reports, trail, |requests|);
    }
    RequestClaims.SoundBound(state.entries, state.clock, state.claimedAt);
    last, entries := service.unit, state.entries;
  }

  lemma CourseParts(start: int, requests: seq<Request>, reports: seq<Report>, trail: seq<Mark>)
    requires Course(start, requests, reports, trail)
    ensures |reports| <= |requests| && |trail| == |reports| + 1 && Apart(reports)
  {
  }

  lemma NoReports(start: int, requests: seq<Request>, trail: seq<Mark>, claimedAt: map<string, int>)
    requires |trail| == 1
    ensures Course(start, requests, [], trail) && Recorded([], claimedAt)
  {
  }
}
