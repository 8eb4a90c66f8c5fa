/** The status readers as they are called: each first computes which speeches of the log are delivery
    echoes, and then judges the log with them. */
module StatusReaders {
  import opened Prelude
  import opened Events
  import opened Accounting
  import opened AccountingSafety
  import opened ArgumentGraph
  import opened CouncilRuns
  import opened GraphSafety
  import Channel
  import Echoes

  // ---- The accounting --------------------------------------------------------------------

  datatype GrantStatus =
    | RunnerTerminalFailure | MissingTurn | MissingStart | MissingSuccess | MissingSpeech | DeliveryUnproven | SelectedRunnerPass

  datatype Closed = Closed(status: GrantStatus, runnerStatus: string, speechLinked: bool, followup: bool)

  function OrElse(value: string, fallback: string): string {
    if value == "" then fallback else value
  }

  /** The runner status of a failed grant: what its last event left, unless that says nothing final. */
  function FailedStatus(row: GrantRow): string {
    if row.runnerStatus !in {"", "pending", "started"} then row.runnerStatus
    else if row.discards != [] then "discarded_after_cancel"
    else if row.dispatchFailures != [] then "dispatch_failed"
    else "failed"
  }

  /** What the status says of a grant in the end. */
  function Close(meta: Metadata, row: GrantRow, linked: map<string, Event>): (closed: Closed)
    ensures closed.status == SelectedRunnerPass <==> Passes(meta, row, linked)
    ensures closed.followup <==> !Passes(meta, row, linked)
    ensures closed.speechLinked ==> row.speeches != []
    ensures Passes(meta, row, linked) ==> closed.speechLinked && closed.runnerStatus == "succeeded"
  {
    if TerminallyFailed(row) then Closed(RunnerTerminalFailure, FailedStatus(row), row.speeches != [], true)
    else if row.turn <= 0 then Closed(MissingTurn, OrElse(row.runnerStatus, "pending"), row.speeches != [], true)
    else if !row.started then Closed(MissingStart, "missing_runner_invocation_started", false, true)
    else if row.succeeded == [] then
      Closed(MissingSuccess, if row.runnerStatus in {"", "pending"} then "started" else row.runnerStatus, false, true)
    else if row.speeches == [] then Closed(MissingSpeech, OrElse(row.runnerStatus, "succeeded"), false, true)
    else if NeedsDelivery(meta) && !DeliveryProven(meta, row.speeches, row.member, linked)
    then Closed(DeliveryUnproven, OrElse(row.runnerStatus, "succeeded"), true, true)
    else Closed(SelectedRunnerPass, "succeeded", true, false)
  }

  /** The books that the accounting of a log arrives at. */
  function AccountOf(meta: Metadata, log: Log): Books {
    Account(Echoes.VisibleEchoIds(meta, log), log)
  }

  method SelectedRunnerAccountingFromIndex(meta: Metadata, log: Log) returns (books: Ledgers, closed: seq<Closed>, pass: bool)
    ensures fresh(books) && books.Contents() == AccountOf(meta, log)
    ensures |closed| == |books.rows| && forall i :: 0 <= i < |closed| ==> closed[i] == Close(meta, books.rows[i], books.linked)
    ensures pass == SessionPasses(meta, AccountOf(meta, log))
    ensures pass <==> closed != [] && forall i :: 0 <= i < |closed| ==> !closed[i].followup
  {
    hide Account, Close, SessionPasses, Echoes.VisibleEchoIds;
    var echoIds := Echoes.SelectedRunnerVisibleEchoIds(meta, log);
    books, pass := SelectedRunnerAccounting(meta, echoIds, log);
    closed := [];
    var allPass := books.rows != [];
    for i := 0 to |books.rows|
      invariant |closed| == i
      invariant forall k :: 0 <= k < i ==> closed[k] == Close(meta, books.rows[k], books.linked)
      invariant allPass <==> books.rows != [] && forall k :: 0 <= k < i ==> !closed[k].followup
    {
      closed := closed + [Close(meta, books.rows[i], books.linked)];
      allPass := allPass && !closed[i].followup;
    }
    AllPass(meta, books.Contents(), closed);
  }

  lemma AllPass(meta: Metadata, l: Ledger, closed: seq<Closed>)
    requires |closed| == |l.rows| && forall i :: 0 <= i < |closed| ==> closed[i] == Close(meta, l.rows[i], l.linked)
    ensures SessionPasses(meta, l) <==> closed != [] && forall i :: 0 <= i < |closed| ==> !closed[i].followup
  {
    hide Passes, Close;
    if SessionPasses(meta, l) {
      assert forall i :: 0 <= i < |closed| ==> Passes(meta, l.rows[i], l.linked);
    } else if closed != [] {
      var i :| 0 <= i < |l.rows| && !Passes(meta, l.rows[i], l.linked);
      assert closed[i].followup;
    }
  }

  /** As the log grows the reader finds other echoes, but a grant once linked to a failure never passes
      again, and neither does the session. */
  lemma FailureSticksForReaders(meta: Metadata, log: Log, longer: Log, n: nat)
    requires log <= longer && Channel.UniqueIds(longer)
    requires n < |AccountOf(meta, log).rows| && TerminallyFailed(AccountOf(meta, log).rows[n])
    ensures var later := AccountOf(meta, longer);
            n < |later.rows| && later.rows[n].selectedId == AccountOf(meta, log).rows[n].selectedId
            && Close(meta, later.rows[n], later.linked).followup && !SessionPasses(meta, later)
  {
    hide Account, Passes, SessionPasses, Close, Echoes.VisibleEchoIds;
    FailureSticks(meta, Echoes.VisibleEchoIds(meta, log), Echoes.VisibleEchoIds(meta, longer), log, longer, n);
  }

  /** Inserted or deleted runnerless speeches change which speeches are echoes, but no verdict. */
  lemma RunnerlessSpeechesChangeNoVerdict(meta: Metadata, log: Log, other: Log)
    requires WithoutRunnerless(log) == WithoutRunnerless(other)
    ensures AccountOf(meta, log).rows == AccountOf(meta, other).rows
    ensures SessionPasses(meta, AccountOf(meta, log)) == SessionPasses(meta, AccountOf(meta, other))
  {
    hide Account, SessionPasses, WithoutRunnerless, Echoes.VisibleEchoIds;
    RunnerlessSpeechesChangeNothing(meta, Echoes.VisibleEchoIds(meta, log), Echoes.VisibleEchoIds(meta, other), log, other);
  }

  /** Which speeches count as echoes never decides about a grant. */
  lemma EchoesNeverDecide(meta: Metadata, echoIds: set<string>, log: Log, id: string)
    ensures var l, reader := Account(echoIds, log), AccountOf(meta, log);
            && (id in l.grantIndex <==> id in reader.grantIndex)
            && (id in l.grantIndex ==> RowFor(l, id) == RowFor(reader, id))
            && (id in l.grantIndex ==> Passes(meta, RowFor(l, id), l.linked) == Passes(meta, RowFor(reader, id), reader.linked))
            && SessionPasses(meta, l) == SessionPasses(meta, reader)
  {
    hide Account, Passes, Echoes.VisibleEchoIds;
    EchoesOnlyCount(echoIds, Echoes.VisibleEchoIds(meta, log), log);
  }

  // ---- The discussion quality ------------------------------------------------------------

  /** The judgement that the discussion-quality status arrives at. */
  function JudgementOf(meta: Metadata, policy: Quality, log: Log): Judgement {
    Judge(policy, Echoes.VisibleEchoIds(meta, log), log)
  }

  method CouncilDiscussionQualityStatus(meta: Metadata, log: Log) returns (status: Result<Judgement>)
    ensures status == match ResolvePolicy(meta)
                      case Err(error) => Err(error)
                      case Ok(policy) => Ok(JudgementOf(meta, policy, log))
  {
    var policy := ResolvePolicy(meta);
    if policy.Err? {
      return Err(policy.error);
    }
    var echoIds := Echoes.SelectedRunnerVisibleEchoIds(meta, log);
    var j := DiscussionQuality(policy.value, echoIds, log);
    return Ok(j);
  }

  lemma NothingEchoes(meta: Metadata, log: Log)
    requires Echoes.VisibleEchoIds(meta, log) == {}
    ensures NoEchoes(log, Echoes.VisibleEchoIds(meta, log))
  {
  }

  /** What the status says of a reachable log without delivery echoes: no invalid relation; relations
      only lead to earlier speeches and never in a circle; and in quality_required mode no orphan
      exactly when no late linkless speech has a padded contribution type. */
  lemma QualityStatusSound(meta: Metadata, policy: Quality, log: Log, path: seq<string>)
    requires Reachable(meta, log) && Echoes.VisibleEchoIds(meta, log) == {} && ResolvePolicy(meta) == Ok(policy)
    ensures var j := JudgementOf(meta, policy, log);
            && j.invalid == [] && j.speeches == PriorSpeeches(log)
            && (forall row :: row in j.relations ==> PointsBack(log, row))
            && (|path| > 1 && Path(j.relations, path) ==> path[0] != path[|path| - 1])
            && (policy.mode == QualityRequired ==> (j.orphans == [] <==> !SomePadded(policy, log)))
  {
    hide Reachable, Judge, PointsBack, Path, SomePadded, Echoes.VisibleEchoIds, NoEchoes, ResolvePolicy;
    var echoIds := Echoes.VisibleEchoIds(meta, log);
    NothingEchoes(meta, log);
    NoInvalidRelations(meta, policy, echoIds, log);
    forall row | row in Judge(policy, echoIds, log).relations ensures PointsBack(log, row) {
      RelationsPointBack(meta, policy, echoIds, log, row);
    }
    if |path| > 1 && Path(Judge(policy, echoIds, log).relations, path) {
      RelationsAcyclic(meta, policy, echoIds, log, path);
    }
    if policy.mode == QualityRequired {
      NoOrphansExactly(meta, echoIds, log);
    }
  }

  /** Where no speech has a runner there is no delivery that another speech could echo. */
  lemma {:induction false} NoRunnersNoEchoes(meta: Metadata, log: Log)
    requires forall k :: 0 <= k < |log| ==> log[k].typ == Speech ==> log[k].runner == None
    ensures Echoes.VisibleEchoIds(meta, log) == {}
  {
    hide Echoes.EchoFold, Echoes.Repeats;
    NoCanonical(meta, log);
  }

  lemma {:induction false} NoCanonical(meta: Metadata, log: Log)
    requires forall k :: 0 <= k < |log| ==> log[k].typ == Speech ==> log[k].runner == None
    ensures Echoes.EchoFold(meta, log).canonical == map[]
  {
    hide Match, AppendUnique, Echoes.IsCanonical;
    if log != [] {
      NoCanonical(meta, log[..|log| - 1]);
    }
  }
}
