/** Two independent cost aggregations of one session's log: the projection's, which keeps a row per
    invocation, and the transcript's, which remembers the invocations it has counted. */
module CostTotals {
  import opened Prelude
  import opened Events

  datatype Totals = Totals(calls: nat, tokensIn: int, tokensOut: int, usd: real, missing: nat)

  const NO_COST := Totals(0, 0, 0, 0.0, 0)

  function IntOr0(n: Option<int>): int {
    if n.Some? then n.value else 0
  }

  function AddCost(t: Totals, cost: Cost): Totals {
    match cost
    case CostObject(tokensIn, tokensOut, usd) =>
      t.(tokensIn := t.tokensIn + IntOr0(tokensIn), tokensOut := t.tokensOut + IntOr0(tokensOut),
         usd := t.usd + if usd.Some? then usd.value else 0.0)
    case _ => t.(missing := t.missing + 1)
  }

  // ---- The projection --------------------------------------------------------------------

  datatype RunnerRow = RunnerRow(member: string, attempt: int, status: string, startedId: string, terminalId: string,
                                 aggregated: bool, cost: Cost)

  datatype Projection = Projection(rows: map<string, RunnerRow>, totals: Totals)

  const NO_PROJECTION := Projection(map[], NO_COST)

  /** The runner's invocation id, or else the payload's. */
  function InvocationOf(e: Event): string
    requires e.runner.Some?
  {
    if e.runner.value.invocationId != "" then e.runner.value.invocationId else e.payload.runner.invocationId
  }

  function FreshRow(e: Event): RunnerRow
    requires e.runner.Some?
  {
    RunnerRow(e.runner.value.member, e.runner.value.attempt, "started", e.id, "", false, CostOmitted)
  }

  function RowStatus(e: Event): string
    requires e.runner.Some?
  {
    if e.typ == RunnerFailed then
      if e.runner.value.status != "" then e.runner.value.status else if e.payload.reason != "" then e.payload.reason else "failed"
    else if e.typ == RunnerDiscarded then "discarded_after_cancel"
    else "succeeded"
  }

  function ClosedRow(row: RunnerRow, e: Event): RunnerRow
    requires e.runner.Some?
  {
    row.(status := RowStatus(e), terminalId := e.id, aggregated := true, cost := if row.aggregated then row.cost else e.cost)
  }

  function Project(p: Projection, e: Event): Projection {
    if e.runner == None || InvocationOf(e) == "" then p
    else
      var id := InvocationOf(e);
      if e.typ == RunnerStarted then Projection(p.rows[id := FreshRow(e)], p.totals.(calls := p.totals.calls + 1))
      else
        var row := if id in p.rows then p.rows[id] else FreshRow(e);
        Projection(p.rows[id := ClosedRow(row, e)], if row.aggregated then p.totals else AddCost(p.totals, e.cost))
  }

  function Projected(log: Log): Projection {
    if log == [] then NO_PROJECTION else Project(Projected(log[..|log| - 1]), log[|log| - 1])
  }

  /** The replayed projection state of one session. */
  class ProjectionState {
    var rows: map<string, RunnerRow>
    var totals: Totals

    ghost function Contents(): Projection
      reads this
    {
      Projection(rows, totals)
    }

    constructor ()
      ensures Contents() == NO_PROJECTION
    {
      rows, totals := map[], NO_COST;
    }

    method ApplyRunnerEvent(e: Event)
      modifies this
      ensures Contents() == Project(old(Contents()), e)
    {
      if e.runner == None {
        return;
      }
      var id := e.runner.value.invocationId;
      if id == "" {
        id := e.payload.runner.invocationId;
      }
      if id == "" {
        return;
      }
      if e.typ == RunnerStarted {
        rows := rows[id := FreshRow(e)];
        totals := totals.(calls := totals.calls + 1);
        return;
      }
      if id !in rows {
        rows := rows[id := FreshRow(e)];
      }
      var counted := rows[id].aggregated;
      rows := rows[id := ClosedRow(rows[id], e)];
      if !counted {
        totals := AddCost(totals, e.cost);
      }
    }
  }

  method ReplayProjection(log: Log) returns (state: ProjectionState)
    ensures fresh(state) && state.Contents() == Projected(log)
  {
    hide Project;
    state := new ProjectionState();
    for i := 0 to |log|
      invariant fresh(state) && state.Contents() == Projected(log[..i])
    {
      assert log[..i + 1][..i] == log[..i];
      state.ApplyRunnerEvent(log[i]);
    }
    assert log[..|log|] == log;
  }

  // ---- The transcript --------------------------------------------------------------------

  datatype Summary = Summary(counted: set<string>, totals: Totals)

  function Summarize(s: Summary, e: Event): Summary {
    if e.runner == None then s
    else if e.typ == RunnerStarted then s.(totals := s.totals.(calls := s.totals.calls + 1))
    else
      var id := e.runner.value.invocationId;
      if id != "" && id in s.counted then s
      else Summary(if id == "" then s.counted else s.counted + {id}, AddCost(s.totals, e.cost))
  }

  function Summarized(log: Log): Summary {
    if log == [] then Summary({}, NO_COST) else Summarize(Summarized(log[..|log| - 1]), log[|log| - 1])
  }

  method TranscriptCostSummary(log: Log) returns (totals: Totals)
    ensures totals == Summarized(log).totals
  {
    totals := NO_COST;
    var counted: set<string> := {};
    for i := 0 to |log|
      invariant Summary(counted, totals) == Summarized(log[..i])
    {
      assert log[..i + 1][..i] == log[..i];
      var e := log[i];
      if e.runner == None {
        continue;
      }
      if e.typ == RunnerStarted {
        totals := totals.(calls := totals.calls + 1);
        continue;
      }
      var id := e.runner.value.invocationId;
      if id != "" {
        if id in counted {
          continue;
        }
        counted := counted + {id};
      }
      totals := AddCost(totals, e.cost);
    }
    assert log[..|log|] == log;
  }

  // ---- What each of them counts ----------------------------------------------------------

  predicate Starts(e: Event, id: string) {
    e.runner.Some? && e.typ == RunnerStarted && e.runner.value.invocationId == id
  }

  /** An event other than the start that carries an invocation's result, and its cost. */
  predicate Reports(e: Event, id: string) {
    e.runner.Some? && e.typ != RunnerStarted && e.runner.value.invocationId == id
  }

  predicate ReportedBefore(log: Log, id: string) {
    exists j :: 0 <= j < |log| && Reports(log[j], id)
  }

  /** Some report of the invocation has not been followed by another start. */
  predicate OpenReport(log: Log, id: string) {
    exists j :: 0 <= j < |log| && Reports(log[j], id) && !StartedAfter(log, j, id)
  }

  predicate StartedAfter(log: Log, j: int, id: string) {
    exists s :: j < s < |log| && 0 <= s && Starts(log[s], id)
  }

  /** Payloads do not name an invocation that the runner field leaves out. */
  predicate RunnerNamed(log: Log) {
    forall k :: 0 <= k < |log| && log[k].runner.Some? && log[k].runner.value.invocationId == "" ==>
      log[k].payload.runner.invocationId == ""
  }

  lemma {:induction false} TranscriptRemembers(log: Log, id: string)
    requires id != ""
    ensures id in Summarized(log).counted <==> ReportedBefore(log, id)
  {
    if log != [] {
      var init, e := log[..|log| - 1], log[|log| - 1];
      TranscriptRemembers(init, id);
      if ReportedBefore(init, id) {
        var j :| 0 <= j < |init| && Reports(init[j], id);
        assert Reports(log[j], id);
      }
      if Reports(e, id) {
        assert Reports(log[|log| - 1], id);
      } else if ReportedBefore(log, id) {
        var j :| 0 <= j < |log| && Reports(log[j], id);
        assert Reports(init[j], id);
      }
    }
  }

  lemma OpenReportStep(log: Log, e: Event, id: string)
    ensures OpenReport(log + [e], id) <==> (Reports(e, id) || (!Starts(e, id) && OpenReport(log, id)))
  {
    var longer := log + [e];
    if Reports(e, id) {
      assert Reports(longer[|log|], id) && !StartedAfter(longer, |log|, id);
    } else if !Starts(e, id) && OpenReport(log, id) {
      var j :| 0 <= j < |log| && Reports(log[j], id) && !StartedAfter(log, j, id);
      assert Reports(longer[j], id) && !StartedAfter(longer, j, id);
    }
    if OpenReport(longer, id) && !Reports(e, id) {
      var j :| 0 <= j < |longer| && Reports(longer[j], id) && !StartedAfter(longer, j, id);
      StartFollows(log, e, j, id);
      assert Reports(log[j], id);
      if StartedAfter(log, j, id) {
        var s :| j < s < |log| && 0 <= s && Starts(log[s], id);
        assert Starts(longer[s], id);
      }
    }
  }

  lemma StartFollows(log: Log, e: Event, j: nat, id: string)
    requires j < |log|
    ensures Starts(e, id) ==> StartedAfter(log + [e], j, id)
  {
    assert (log + [e])[|log|] == e;
  }

  predicate Aggregated(p: Projection, id: string) {
    id in p.rows && p.rows[id].aggregated
  }

  lemma AggregatedStep(p: Projection, e: Event, id: string)
    requires id != ""
    requires e.runner.Some? && e.runner.value.invocationId == "" ==> e.payload.runner.invocationId == ""
    ensures Aggregated(Project(p, e), id) <==> (Reports(e, id) || (!Starts(e, id) && Aggregated(p, id)))
  {
    hide AddCost, RowStatus;
  }

  lemma {:induction false} ProjectionRemembers(log: Log, id: string)
    requires id != "" && RunnerNamed(log)
    ensures Aggregated(Projected(log), id) <==> OpenReport(log, id)
  {
    hide Project, Aggregated, OpenReport, Reports, Starts;
    if log == [] {
      NothingOpen(id);
      NothingAggregated(id);
    } else {
      var init, e := log[..|log| - 1], log[|log| - 1];
      assert forall k :: 0 <= k < |init| ==> init[k] == log[k];
      ProjectionRemembers(init, id);
      OpenReportStep(init, e, id);
      assert log == init + [e];
      AggregatedStep(Projected(init), e, id);
    }
  }

  lemma NothingAggregated(id: string)
    ensures !Aggregated(Projected([]), id)
  {
  }

  lemma NothingOpen(id: string)
    ensures !OpenReport([], id)
  {
  }

  /** Does the projection count this event on top of an earlier log? */
  predicate ProjectionCounts(prior: Log, e: Event) {
    e.runner.Some? && InvocationOf(e) != "" && (e.typ == RunnerStarted || !Aggregated(Projected(prior), InvocationOf(e)))
  }

  predicate TranscriptCounts(prior: Log, e: Event) {
    e.runner.Some?
    && (e.typ == RunnerStarted || e.runner.value.invocationId == "" || e.runner.value.invocationId !in Summarized(prior).counted)
  }

  // ---- When the two agree ----------------------------------------------------------------

  /** Every runner event names its invocation. */
  predicate NoAnonymous(log: Log) {
    forall k :: 0 <= k < |log| && log[k].runner.Some? ==> log[k].runner.value.invocationId != ""
  }

  /** An invocation that was started again after a report has reported once more. */
  predicate Recounted(log: Log, j: int, s: int, k: int, id: string) {
    0 <= j < s < k < |log| && Reports(log[j], id) && Starts(log[s], id) && Reports(log[k], id)
  }

  ghost predicate NoRecount(log: Log) {
    forall j, s, k, id :: !Recounted(log, j, s, k, id)
  }

  ghost predicate Agree(log: Log) {
    forall k :: 0 <= k < |log| ==> ProjectionCounts(log[..k], log[k]) == TranscriptCounts(log[..k], log[k])
  }

  lemma NamedPrefix(log: Log, n: nat)
    requires RunnerNamed(log) && n <= |log|
    ensures RunnerNamed(log[..n])
  {
    forall k | 0 <= k < n && log[..n][k].runner.Some? && log[..n][k].runner.value.invocationId == ""
      ensures log[..n][k].payload.runner.invocationId == ""
    {
      assert log[..n][k] == log[k];
    }
  }

  lemma CleanAgrees(log: Log, k: nat)
    requires RunnerNamed(log) && NoAnonymous(log) && NoRecount(log) && k < |log|
    ensures ProjectionCounts(log[..k], log[k]) == TranscriptCounts(log[..k], log[k])
  {
    hide Projected, Summarized;
    var e := log[k];
    if e.runner.Some? && e.typ != RunnerStarted {
      var id, prior := e.runner.value.invocationId, log[..k];
      NamedPrefix(log, k);
      TranscriptRemembers(prior, id);
      ProjectionRemembers(prior, id);
      if ReportedBefore(prior, id) {
        var j :| 0 <= j < |prior| && Reports(prior[j], id);
        forall s | j < s < k ensures !Starts(prior[s], id) {
          assert !Recounted(log, j, s, k, id);
        }
      }
    }
  }

  lemma AnonymousDisagrees(log: Log, k: nat)
    requires RunnerNamed(log) && k < |log| && log[k].runner.Some? && log[k].runner.value.invocationId == ""
    ensures ProjectionCounts(log[..k], log[k]) != TranscriptCounts(log[..k], log[k])
  {
    hide Projected, Summarized;
  }

  /** The first report after a restart is where they part. */
  lemma {:induction false} RecountDisagrees(log: Log, j: nat, s: nat, k: nat, id: string) returns (first: nat)
    requires RunnerNamed(log) && Recounted(log, j, s, k, id) && id != ""
    ensures first < |log| && ProjectionCounts(log[..first], log[first]) != TranscriptCounts(log[..first], log[first])
    decreases k
  {
    hide Projected, Summarized;
    if between :| s < between < k && Reports(log[between], id) {
      first := RecountDisagrees(log, j, s, between, id);
    } else {
      first := k;
      var prior := log[..k];
      NamedPrefix(log, k);
      TranscriptRemembers(prior, id);
      ProjectionRemembers(prior, id);
      assert Reports(prior[j], id);
      forall i | 0 <= i < |prior| && Reports(prior[i], id) ensures StartedAfter(prior, i, id) {
        assert Reports(log[i], id) && !Starts(log[i], id);
        assert i < s && Starts(prior[s], id);
      }
    }
  }

  /** Projection and transcript count the same events exactly when every runner event names its
      invocation and no invocation reports again after having been started again. */
  lemma AgreeExactly(log: Log)
    requires RunnerNamed(log)
    ensures Agree(log) <==> (NoAnonymous(log) && NoRecount(log))
  {
    hide ProjectionCounts, TranscriptCounts, Recounted;
    if NoAnonymous(log) && NoRecount(log) {
      forall k | 0 <= k < |log| ensures ProjectionCounts(log[..k], log[k]) == TranscriptCounts(log[..k], log[k]) {
        CleanAgrees(log, k);
      }
    }
    if Agree(log) {
      forall k | 0 <= k < |log| && log[k].runner.Some? ensures log[k].runner.value.invocationId != "" {
        if log[k].runner.value.invocationId == "" {
          AnonymousDisagrees(log, k);
        }
      }
      forall j, s, k, id ensures !Recounted(log, j, s, k, id) {
        if Recounted(log, j, s, k, id) {
          RecountedNamed(log, j, s, k, id);
          var first := RecountDisagrees(log, j, s, k, id);
        }
      }
    }
  }

  lemma RecountedNamed(log: Log, j: int, s: int, k: int, id: string)
    requires NoAnonymous(log) && Recounted(log, j, s, k, id)
    ensures id != "" && 0 <= j && 0 <= s && 0 <= k
  {
  }

  lemma CountedStep(prior: Log, e: Event)
    ensures Project(Projected(prior), e).totals
            == if !ProjectionCounts(prior, e) then Projected(prior).totals
               else if e.typ == RunnerStarted then Projected(prior).totals.(calls := Projected(prior).totals.calls + 1)
               else AddCost(Projected(prior).totals, e.cost)
    ensures Summarize(Summarized(prior), e).totals
            == if !TranscriptCounts(prior, e) then Summarized(prior).totals
               else if e.typ == RunnerStarted then Summarized(prior).totals.(calls := Summarized(prior).totals.calls + 1)
               else AddCost(Summarized(prior).totals, e.cost)
  {
    hide AddCost, RowStatus;
  }

  lemma {:induction false} AgreementSums(log: Log)
    requires Agree(log)
    ensures Projected(log).totals == Summarized(log).totals
  {
    hide ProjectionCounts, TranscriptCounts, AddCost, Project, Summarize;
    if log != [] {
      var init := log[..|log| - 1];
      forall k | 0 <= k < |init| ensures ProjectionCounts(init[..k], init[k]) == TranscriptCounts(init[..k], init[k]) {
        assert init[..k] == log[..k] && init[k] == log[k];
      }
      AgreementSums(init);
      CountedStep(init, log[|log| - 1]);
    }
  }

  /** On such a log calls, tokens, dollars and missing costs come out the same, and the cost of an
      invocation is counted once however many of its events carry it. */
  lemma TotalsAgree(log: Log)
    requires RunnerNamed(log) && NoAnonymous(log) && NoRecount(log)
    ensures Projected(log).totals == Summarized(log).totals
    ensures forall j, k :: 0 <= j < k < |log| && SameReport(log[j], log[k]) ==> !TranscriptCounts(log[..k], log[k])
  {
    hide Projected, Summarized, NoRecount, TranscriptCounts;
    AgreeExactly(log);
    AgreementSums(log);
    forall j, k | 0 <= j < k < |log| && SameReport(log[j], log[k]) ensures !TranscriptCounts(log[..k], log[k]) {
      CountedOnce(log, j, k);
    }
  }

  lemma ProjectedSnoc(log: Log, e: Event)
    ensures Projected(log + [e]) == Project(Projected(log), e) && Summarized(log + [e]) == Summarize(Summarized(log), e)
  {
    hide Project, Summarize;
    assert (log + [e])[..|log|] == log;
  }

  /** A start opens a row that counts again; what the transcript has counted stays. */
  lemma StartStep(p: Projection, s: Summary, start: Event)
    requires Starts(start, "run")
    ensures var next := Project(p, start);
            && "run" in next.rows && !next.rows["run"].aggregated && next.totals == p.totals.(calls := p.totals.calls + 1)
    ensures Summarize(s, start) == s.(totals := s.totals.(calls := s.totals.calls + 1))
  {
  }

  lemma ReportStep(p: Projection, s: Summary, report: Event)
    requires Reports(report, "run") && report.cost == CostObject(Some(7), None, None)
    requires "run" in p.rows && !p.rows["run"].aggregated
    ensures Project(p, report).totals == p.totals.(tokensIn := p.totals.tokensIn + 7)
    ensures var next := Summarize(s, report);
            "run" in next.counted && next.totals == s.totals.(tokensIn := s.totals.tokensIn + if "run" in s.counted then 0 else 7)
  {
    assert p.totals.usd + 0.0 == p.totals.usd && s.totals.usd + 0.0 == s.totals.usd;
  }

  /** An invocation that is started again and reports again is counted twice by the projection and once
      by the transcript. */
  lemma RestartCountsTwice(start: Event, report: Event)
    requires Starts(start, "run") && Reports(report, "run") && report.cost == CostObject(Some(7), None, None)
    ensures var log := [start, report, start, report];
            && Projected(log).totals == Totals(2, 14, 0, 0.0, 0)
            && Summarized(log).totals == Totals(2, 7, 0, 0.0, 0)
  {
    hide Project, Summarize, Starts, Reports;
    var once, twice := [start, report], [start, report, start];
    assert [] + [start] == [start] && [start] + [report] == once && once + [start] == twice;
    assert twice + [report] == [start, report, start, report];
    ProjectedSnoc([], start);
    ProjectedSnoc([start], report);
    ProjectedSnoc(once, start);
    ProjectedSnoc(twice, report);
    StartStep(Projected([]), Summarized([]), start);
    ReportStep(Projected([start]), Summarized([start]), report);
    StartStep(Projected(once), Summarized(once), start);
    ReportStep(Projected(twice), Summarized(twice), report);
  }

  predicate SameReport(a: Event, b: Event) {
    a.runner.Some? && b.runner.Some? && a.typ != RunnerStarted && b.typ != RunnerStarted
    && a.runner.value.invocationId == b.runner.value.invocationId != ""
  }

  lemma CountedOnce(log: Log, j: nat, k: nat)
    requires j < k < |log| && SameReport(log[j], log[k])
    ensures !TranscriptCounts(log[..k], log[k])
  {
    hide Summarized;
    var id := log[k].runner.value.invocationId;
    TranscriptRemembers(log[..k], id);
    assert Reports(log[..k][j], id);
  }
}
