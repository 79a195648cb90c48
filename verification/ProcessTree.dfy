/** The search below the service's main process for the programs it must be running. */
module ProcessTree {

  type Pid = nat
  datatype Row = Row(pid: Pid, parent: Pid, command: string)

  /** A process table; nothing is assumed of the parent links, which may form cycles. */
  ghost predicate DistinctPids(rows: seq<Row>) { forall i, j :: 0 <= i < j < |rows| ==> rows[i].pid != rows[j].pid }

  /** row is reached from main by following n parent links upwards. */
  ghost predicate Below(rows: seq<Row>, main: Pid, pid: Pid, n: nat)
    decreases n
  {
    if n == 0 then pid == main
    else exists i :: 0 <= i < |rows| && rows[i].pid == pid && Below(rows, main, rows[i].parent, n - 1)
  }

  ghost predicate Descends(rows: seq<Row>, main: Pid, pid: Pid) { exists n: nat :: Below(rows, main, pid, n) }

  function Pids(rows: seq<Row>): set<Pid> { set i | 0 <= i < |rows| :: rows[i].pid }

  /** Everything below main is seen once seen holds main and the children of all it holds. */
  lemma {:induction false} ClosedHoldsAll(rows: seq<Row>, main: Pid, seen: set<Pid>, pid: Pid, n: nat)
    requires main in seen && forall i :: 0 <= i < |rows| && rows[i].parent in seen ==> rows[i].pid in seen
    requires Below(rows, main, pid, n)
    ensures pid in seen
    decreases n
  {
    if n > 0 {
      var i :| 0 <= i < |rows| && rows[i].pid == pid && Below(rows, main, rows[i].parent, n - 1);
      ClosedHoldsAll(rows, main, seen, rows[i].parent, n - 1);
    }
  }

  lemma ChildDescends(rows: seq<Row>, main: Pid, i: nat)
    requires i < |rows| && Descends(rows, main, rows[i].parent)
    ensures Descends(rows, main, rows[i].pid)
  {
    var n: nat :| Below(rows, main, rows[i].parent, n);
    assert Below(rows, main, rows[i].pid, n + 1);
  }

  function PidsOf(rows: seq<Row>): seq<Pid> { seq(|rows|, i requires 0 <= i < |rows| => rows[i].pid) }

  lemma PidsSnoc(rows: seq<Row>, row: Row)
    ensures Pids(rows + [row]) == Pids(rows) + {row.pid}
  {
    var all := rows + [row];
    assert all[|rows|] == row && forall i :: 0 <= i < |rows| ==> all[i] == rows[i];
  }

  /** The unseen rows with this parent. */
  ghost predicate AreKids(rows: seq<Row>, parent: Pid, seen: set<Pid>, kids: seq<Row>) {
    && DistinctPids(kids)
    && forall row :: row in kids <==> row in rows && row.parent == parent && row.pid !in seen
  }

  /** The inner loop: one process's children join the worklist, in the order of the table. */
  method Adopt(rows: seq<Row>, parent: Pid, seen: set<Pid>) returns (kids: seq<Row>)
    requires DistinctPids(rows)
    ensures AreKids(rows, parent, seen, kids)
  {
    kids := [];
    var all := seen;
    for k := 0 to |rows|
      invariant all == seen + Pids(kids)
      invariant AreKids(rows[..k], parent, seen, kids)
    {
      var row := rows[k];
      assert rows[..k + 1] == rows[..k] + [row] && row !in rows[..k];
      assert forall i :: 0 <= i < |kids| ==> kids[i] in rows[..k];
      if row.parent == parent && row.pid !in all {
        PidsSnoc(kids, row);
        all, kids := all + {row.pid}, kids + [row];
      }
    }
    assert rows[..|rows|] == rows;
  }

  /** What the worklist knows at any time. */
  ghost predicate Searching(rows: seq<Row>, main: Pid, frontier: seq<Pid>, seen: set<Pid>, found: seq<Row>) {
    && main in seen && seen <= Pids(rows) + {main}
    && (forall p :: p in frontier ==> p in seen)
    && (forall p :: p in seen ==> Descends(rows, main, p))
    && (forall i :: 0 <= i < |rows| && rows[i].parent in seen && rows[i].parent !in frontier ==> rows[i].pid in seen)
    && DistinctPids(found)
    && (forall row :: row in found <==> row in rows && row.pid != main && row.pid in seen)
  }

  lemma StillDistinct(found: seq<Row>, kids: seq<Row>, seen: set<Pid>)
    requires DistinctPids(found) && DistinctPids(kids)
    requires (forall row :: row in found ==> row.pid in seen) && (forall row :: row in kids ==> row.pid !in seen)
    ensures DistinctPids(found + kids)
  {
    forall i, j | 0 <= i < j < |found + kids| ensures (found + kids)[i].pid != (found + kids)[j].pid {
      if i < |found| <= j {
        assert found[i] in found && kids[j - |found|] in kids;
      }
    }
  }

  lemma FoundMore(rows: seq<Row>, main: Pid, parent: Pid, seen: set<Pid>, found: seq<Row>, kids: seq<Row>)
    requires DistinctPids(rows) && main in seen && AreKids(rows, parent, seen, kids)
    requires forall row :: row in found <==> row in rows && row.pid != main && row.pid in seen
    ensures forall row :: row in found + kids <==> row in rows && row.pid != main && row.pid in seen + Pids(kids)
  {
    forall row | row in rows && row.pid in Pids(kids) ensures row in kids {
      var k :| 0 <= k < |kids| && kids[k].pid == row.pid;
      assert kids[k] in kids;
    }
    forall row | row in kids ensures row.pid in Pids(kids) {
      var k :| 0 <= k < |kids| && kids[k] == row;
    }
  }

  lemma SearchGoesOn(
    rows: seq<Row>, main: Pid, frontier: seq<Pid>, parent: Pid, seen: set<Pid>, found: seq<Row>, kids: seq<Row>)
    requires DistinctPids(rows) && Searching(rows, main, frontier + [parent], seen, found) &&
               AreKids(rows, parent, seen, kids)
    ensures Searching(rows, main, frontier + PidsOf(kids), seen + Pids(kids), found + kids)
    ensures kids == [] || (exists p :: p in Pids(rows) && p !in seen && p in Pids(kids))
  {
    hide Descends;
    var all, front := seen + Pids(kids), frontier + PidsOf(kids);
    assert parent in frontier + [parent];
    forall p | p in Pids(kids) ensures p in front && p in Pids(rows) && Descends(rows, main, p) {
      var i :| 0 <= i < |kids| && kids[i].pid == p;
      assert front[|frontier| + i] == p && kids[i] in kids;
      var k :| 0 <= k < |rows| && rows[k] == kids[i];
      ChildDescends(rows, main, k);
    }
    forall i | 0 <= i < |rows| && rows[i].parent in all && rows[i].parent !in front ensures rows[i].pid in all {
      if rows[i].parent == parent && rows[i].pid !in seen {
        assert rows[i] in kids;
        var k :| 0 <= k < |kids| && kids[k] == rows[i];
        assert kids[k].pid in Pids(kids);
      } else if rows[i].parent in seen {
        assert rows[i].parent in frontier + [parent] ==> rows[i].parent in frontier || rows[i].parent == parent;
      }
    }
    FoundMore(rows, main, parent, seen, found, kids);
    StillDistinct(found, kids, seen);
    if kids != [] {
      assert kids[0] in kids && kids[0].pid in Pids(kids);
    }
  }

  /**
    The worklist of _service_health: exactly the processes below main, other than main itself, each
    once, for every table.
   */
  method Descendants(rows: seq<Row>, main: Pid) returns (found: seq<Row>)
    requires DistinctPids(rows)
    ensures DistinctPids(found)
    ensures forall row :: row in found <==> row in rows && row.pid != main && Descends(rows, main, row.pid)
  {
    found := [];
    var frontier, seen := [main], {main};
    assert Below(rows, main, main, 0);
    while frontier != []
      invariant Searching(rows, main, frontier, seen, found)
      decreases Pids(rows) + {main} - seen, |frontier|
    {
      var parent := frontier[|frontier| - 1];
      assert frontier == frontier[..|frontier| - 1] + [parent];
      frontier := frontier[..|frontier| - 1];
      var kids := Adopt(rows, parent, seen);
      SearchGoesOn(rows, main, frontier, parent, seen, found, kids);
      seen, frontier, found := seen + Pids(kids), frontier + PidsOf(kids), found + kids;
    }
    forall row | row in rows && Descends(rows, main, row.pid) ensures row.pid in seen {
      var n: nat :| Below(rows, main, row.pid, n);
      ClosedHoldsAll(rows, main, seen, row.pid, n);
    }
  }

  /** What the health check asks of the commands it finds. */
  datatype Markers = Markers(session: string -> bool, poller: string -> bool, required: seq<string -> bool>)

  ghost predicate Runs(rows: seq<Row>, main: Pid, marker: string -> bool) {
    exists row :: row in rows && row.pid != main && Descends(rows, main, row.pid) && marker(row.command)
  }

  method AnyCommand(found: seq<Row>, marker: string -> bool) returns (any: bool)
    ensures any == exists row :: row in found && marker(row.command)
  {
    for k := 0 to |found|
      invariant forall i :: 0 <= i < k ==> !marker(found[i].command)
    {
      if marker(found[k].command) { return true; }
    }
    return false;
  }

  /** _service_health for an active service. */
  method ServiceHealth(rows: seq<Row>, main: Pid, markers: Markers, requireWorkers: bool) returns (healthy: bool)
    requires DistinctPids(rows)
    ensures healthy == (Runs(rows, main, markers.session) && (requireWorkers ==>
                        Runs(rows, main, markers.poller) && forall m :: m in markers.required ==> Runs(rows, main, m)))
  {
    var found := Descendants(rows, main);
    var claude := AnyCommand(found, markers.session);
    var poller := AnyCommand(found, markers.poller);
    var required := true;
    for k := 0 to |markers.required|
      invariant required == forall i :: 0 <= i < k ==> Runs(rows, main, markers.required[i])
    {
      var any := AnyCommand(found, markers.required[k]);
      required := required && any;
    }
    healthy := claude && (!requireWorkers || (poller && required));
  }
}
