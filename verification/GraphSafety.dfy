/** The argument graph of every reachable log: what was accepted when it was written is judged sound
    when the status is read, and links only ever point back. */
module GraphSafety {
  import opened Prelude
  import opened Text
  import opened Events
  import opened Channel
  import opened ArgumentGraph
  import opened CouncilRuns
  import CouncilSafety

  ghost predicate NoEchoes(log: Log, echoIds: set<string>) {
    forall k :: 0 <= k < |log| && log[k].typ == Speech ==> log[k].id !in echoIds
  }

  /** The facts of History that the argument graph needs. */
  ghost predicate LinksAccepted(meta: Metadata, prior: Log, e: Event) {
    && (e.typ == HandRaise ==> ParseLinks(prior, e.payload.graph.targetLinks, false).Ok?)
    && (e.typ == Speech ==> SpeechVerdict(meta, prior, e.from, e.payload.turn, e.payload).Ok?)
  }

  lemma HistoryLinks(meta: Metadata, log: Log, k: nat)
    requires History(meta, log) && k < |log|
    ensures LinksAccepted(meta, log[..k], log[k])
  {
    hide PhaseJustified, FreshCommand, HasId, SpeechVerdict, ParseLinks;
    assert Justified(meta, log[..k], log[k]);
  }

  /** The links of an accepted speech parse for the reader, to the same targets. */
  lemma VerdictLinks(meta: Metadata, prior: Log, actor: string, turn: int, payload: Payload)
    requires SpeechVerdict(meta, prior, actor, turn, payload).Ok?
    ensures ResolvePolicy(meta).Ok? && ParseLinks(prior, payload.graph.stanceLinks, false).Ok?
    ensures ParseLinks(prior, payload.graph.stanceLinks, false)
            == ParseLinks(prior, payload.graph.stanceLinks, ResolvePolicy(meta).value.mode == QualityRequired)
  {
    hide ParseClaims, RequiredModeError, Diagnose, ParseLinkList;
    ParseExtends(prior, prior, payload.graph.stanceLinks, ResolvePolicy(meta).value.mode == QualityRequired);
  }

  ghost predicate ReaderInv(log: Log, j: Judgement) {
    j.prior == log && j.speeches == PriorSpeeches(log) && j.invalid == []
  }

  lemma ReaderStep(meta: Metadata, policy: Quality, echoIds: set<string>, log: Log, j: Judgement, e: Event)
    requires ReaderInv(log, j) && LinksAccepted(meta, log, e) && (e.typ == Speech ==> e.id !in echoIds)
    ensures ReaderInv(log + [e], JudgeStep(policy, echoIds, j, e))
  {
    hide ParseLinks, SpeechVerdict, JustifiedNewAxis, ContributionText;
    assert (log + [e])[..|log|] == log;
    if e.typ == Speech {
      VerdictLinks(meta, log, e.from, e.payload.turn, e.payload);
    }
  }

  lemma {:induction false} ReaderHolds(meta: Metadata, policy: Quality, echoIds: set<string>, log: Log)
    requires History(meta, log) && NoEchoes(log, echoIds)
    ensures ReaderInv(log, Judge(policy, echoIds, log))
  {
    hide History, LinksAccepted, JudgeStep;
    if log != [] {
      var init, e := log[..|log| - 1], log[|log| - 1];
      HistoryPrefix(meta, log, |log| - 1);
      HistoryLinks(meta, log, |log| - 1);
      assert NoEchoes(init, echoIds);
      ReaderHolds(meta, policy, echoIds, init);
      ReaderStep(meta, policy, echoIds, init, Judge(policy, echoIds, init), e);
      assert log == init + [e];
    }
  }

  /** In every mode the status reader finds no invalid relation in a reachable log. */
  lemma NoInvalidRelations(meta: Metadata, policy: Quality, echoIds: set<string>, log: Log)
    requires Reachable(meta, log) && NoEchoes(log, echoIds)
    ensures Judge(policy, echoIds, log).invalid == []
    ensures Judge(policy, echoIds, log).speeches == PriorSpeeches(log)
  {
    hide Reachable, History, Judge;
    ReachableHistory(meta, log);
    ReaderHolds(meta, policy, echoIds, log);
  }

  // ---- Orphans ---------------------------------------------------------------------------

  /** A late speech without links whose contribution type was stored with padding. */
  predicate PaddedNewAxis(policy: Quality, prior: Log, e: Event) {
    && e.typ == Speech && PriorSpeeches(prior) >= policy.openingUnlinkedTurns
    && ParseLinks(prior, e.payload.graph.stanceLinks, false) == Ok([])
    && Trim(ContributionText(e)) != ContributionText(e)
  }

  predicate ReadAsOrphan(policy: Quality, prior: Log, e: Event) {
    && e.typ == Speech && PriorSpeeches(prior) >= policy.openingUnlinkedTurns
    && ParseLinks(prior, e.payload.graph.stanceLinks, false) == Ok([])
    && !JustifiedNewAxis(e)
  }

  lemma NewAxisIsTrimmed()
    ensures Trim(NEW_AXIS) == NEW_AXIS
  {
    TrimFixed(NEW_AXIS);
  }

  /** In quality_required mode the reader calls an accepted speech an orphan exactly when the
      writer's trimming hid a padded contribution type from it. */
  lemma OrphanExactly(meta: Metadata, prior: Log, e: Event)
    requires ResolvePolicy(meta).Ok? && ResolvePolicy(meta).value.mode == QualityRequired
    requires LinksAccepted(meta, prior, e) && e.typ == Speech
    ensures ReadAsOrphan(ResolvePolicy(meta).value, prior, e) <==> PaddedNewAxis(ResolvePolicy(meta).value, prior, e)
  {
    hide ParseClaims, ParseLinks, SelectionOf, PriorSpeeches, ConsecutiveNewAxis, OmittedNeed, Trim, ResolvePolicy, KnownContribution;
    VerdictLinks(meta, prior, e.from, e.payload.turn, e.payload);
    NewAxisIsTrimmed();
  }

  lemma OrphanStep(meta: Metadata, echoIds: set<string>, log: Log, j: Judgement, e: Event)
    requires ResolvePolicy(meta).Ok? && ResolvePolicy(meta).value.mode == QualityRequired
    requires ReaderInv(log, j) && LinksAccepted(meta, log, e) && (e.typ == Speech ==> e.id !in echoIds)
    ensures JudgeStep(ResolvePolicy(meta).value, echoIds, j, e).orphans
            == j.orphans + if PaddedNewAxis(ResolvePolicy(meta).value, log, e) then [e.id] else []
  {
    hide ParseLinks, SpeechVerdict, ResolvePolicy, PriorSpeeches, Trim, ContributionText, JustifiedNewAxis;
    if e.typ == Speech {
      OrphanExactly(meta, log, e);
      VerdictLinks(meta, log, e.from, e.payload.turn, e.payload);
    }
  }

  ghost predicate SomePadded(policy: Quality, log: Log) {
    exists k :: 0 <= k < |log| && PaddedNewAxis(policy, log[..k], log[k])
  }

  lemma {:induction false} OrphansArePadded(meta: Metadata, echoIds: set<string>, log: Log)
    requires History(meta, log) && NoEchoes(log, echoIds)
    requires ResolvePolicy(meta).Ok? && ResolvePolicy(meta).value.mode == QualityRequired
    ensures Judge(ResolvePolicy(meta).value, echoIds, log).orphans == [] <==> !SomePadded(ResolvePolicy(meta).value, log)
  {
    hide History, LinksAccepted, JudgeStep, ResolvePolicy, PaddedNewAxis, ReaderInv;
    if log != [] {
      var init, e, policy := log[..|log| - 1], log[|log| - 1], ResolvePolicy(meta).value;
      HistoryPrefix(meta, log, |log| - 1);
      HistoryLinks(meta, log, |log| - 1);
      assert NoEchoes(init, echoIds);
      ReaderHolds(meta, policy, echoIds, init);
      OrphansArePadded(meta, echoIds, init);
      OrphanStep(meta, echoIds, init, Judge(policy, echoIds, init), e);
      if SomePadded(policy, init) {
        var k :| 0 <= k < |init| && PaddedNewAxis(policy, init[..k], init[k]);
        assert log[..k] == init[..k] && log[k] == init[k];
      }
      if SomePadded(policy, log) {
        var k :| 0 <= k < |log| && PaddedNewAxis(policy, log[..k], log[k]);
        assert k < |init| ==> log[..k] == init[..k] && log[k] == init[k];
      }
    }
  }

  /** In quality_required mode a reachable log has no orphan speech exactly when no late linkless
      speech was stored with a padded contribution type. */
  lemma NoOrphansExactly(meta: Metadata, echoIds: set<string>, log: Log)
    requires Reachable(meta, log) && NoEchoes(log, echoIds)
    requires ResolvePolicy(meta).Ok? && ResolvePolicy(meta).value.mode == QualityRequired
    ensures Judge(ResolvePolicy(meta).value, echoIds, log).orphans == [] <==> !SomePadded(ResolvePolicy(meta).value, log)
  {
    hide Reachable, History, Judge, SomePadded, ResolvePolicy;
    ReachableHistory(meta, log);
    OrphansArePadded(meta, echoIds, log);
  }

  // ---- Links point back ------------------------------------------------------------------

  /** The target is the speech at `i`, and one of its claims if it makes any. */
  ghost predicate Names(log: Log, i: nat, target: Target) {
    && i < |log| && log[i].typ == Speech && log[i].id == target.eventId
    && ParseClaims(log[i].payload.graph.claims).Ok?
    && (ParseClaims(log[i].payload.graph.claims).value.Some? ==>
          target.claimId in ParseClaims(log[i].payload.graph.claims).value.value)
  }

  lemma LinkNames(prior: Log, link: Link, needsRationale: bool) returns (i: nat)
    requires ParseLink(prior, link, needsRationale).Ok?
    ensures Names(prior, i, ParseLink(prior, link, needsRationale).value)
  {
    hide Trim, ParseClaims;
    var target := EventById(prior, Trim(link.targetEventId)).value;
    i :| 0 <= i < |prior| && prior[i] == target;
  }

  lemma {:induction false} TargetsNamed(prior: Log, items: seq<Link>, n: nat) returns (i: nat)
    requires ParseLinkList(prior, items, false).Ok? && n < |items|
    ensures Names(prior, i, ParseLinkList(prior, items, false).value[n])
  {
    hide Names, ParseLink;
    if n == |items| - 1 {
      i := LinkNames(prior, items[n], false);
    } else {
      i := TargetsNamed(prior, items[..|items| - 1], n);
    }
  }

  ghost predicate PointsBack(log: Log, row: Relation) {
    exists i: nat, k: nat :: i < k < |log| && log[k].id == row.eventId && log[k].typ == Speech && Names(log, i, row.target)
  }

  lemma PointsBackGrows(log: Log, e: Event, row: Relation)
    requires PointsBack(log, row)
    ensures PointsBack(log + [e], row)
  {
    hide ParseClaims;
    var i: nat, k: nat :| i < k < |log| && log[k].id == row.eventId && log[k].typ == Speech && Names(log, i, row.target);
    assert (log + [e])[k] == log[k] && Names(log + [e], i, row.target);
  }

  lemma RelationStep(meta: Metadata, policy: Quality, echoIds: set<string>, log: Log, j: Judgement, e: Event, row: Relation)
    requires ReaderInv(log, j) && LinksAccepted(meta, log, e)
    requires row in JudgeStep(policy, echoIds, j, e).relations && row !in j.relations
    ensures PointsBack(log + [e], row)
  {
    hide SpeechVerdict, JustifiedNewAxis, ContributionText, ParseClaims, ParseLinkList;
    VerdictLinks(meta, log, e.from, e.payload.turn, e.payload);
    var targets := ParseLinks(log, e.payload.graph.stanceLinks, false).value;
    var rows := RelationsOf(e.id, targets);
    var n :| 0 <= n < |rows| && rows[n] == row;
    var i := TargetsNamed(log, e.payload.graph.stanceLinks.value, n);
    var longer := log + [e];
    assert longer[|log|] == e && longer[i] == log[i];
    assert Names(longer, i, row.target);
  }

  lemma {:induction false} RelationsHold(meta: Metadata, policy: Quality, echoIds: set<string>, log: Log, row: Relation)
    requires History(meta, log) && NoEchoes(log, echoIds) && row in Judge(policy, echoIds, log).relations
    ensures PointsBack(log, row)
  {
    hide History, LinksAccepted, JudgeStep, PointsBack, ReaderInv;
    var init, e := log[..|log| - 1], log[|log| - 1];
    HistoryPrefix(meta, log, |log| - 1);
    HistoryLinks(meta, log, |log| - 1);
    assert NoEchoes(init, echoIds);
    ReaderHolds(meta, policy, echoIds, init);
    assert log == init + [e];
    if row in Judge(policy, echoIds, init).relations {
      RelationsHold(meta, policy, echoIds, init, row);
      PointsBackGrows(init, e, row);
    } else {
      RelationStep(meta, policy, echoIds, init, Judge(policy, echoIds, init), e, row);
    }
  }

  /** Every relation that the status reports goes from a speech to a strictly earlier speech, and
      to one of that speech's claims if it makes any. */
  lemma RelationsPointBack(meta: Metadata, policy: Quality, echoIds: set<string>, log: Log, row: Relation)
    requires Reachable(meta, log) && NoEchoes(log, echoIds) && row in Judge(policy, echoIds, log).relations
    ensures PointsBack(log, row)
  {
    hide Reachable, History, Judge, PointsBack;
    ReachableHistory(meta, log);
    RelationsHold(meta, policy, echoIds, log, row);
  }

  ghost predicate Linked(rows: seq<Relation>, from: string, to: string) {
    exists row :: row in rows && row.eventId == from && row.target.eventId == to
  }

  /** `path` follows relations from speech to speech. */
  ghost predicate Path(rows: seq<Relation>, path: seq<string>) {
    forall n :: 0 <= n < |path| - 1 ==> Linked(rows, path[n], path[n + 1])
  }

  ghost predicate Position(log: Log, id: string, k: nat) {
    k < |log| && log[k].id == id
  }

  lemma PositionsAgree(log: Log, id: string, i: nat, k: nat)
    requires UniqueIds(log) && Position(log, id, i) && Position(log, id, k)
    ensures i == k
  {
  }

  lemma {:induction false} PathDescends(meta: Metadata, policy: Quality, echoIds: set<string>, log: Log, path: seq<string>)
      returns (first: nat, last: nat)
    requires History(meta, log) && NoEchoes(log, echoIds) && UniqueIds(log)
    requires |path| > 1 && Path(Judge(policy, echoIds, log).relations, path)
    ensures Position(log, path[0], first) && Position(log, path[|path| - 1], last) && last < first
  {
    hide History, Judge, UniqueIds;
    var rows := Judge(policy, echoIds, log).relations;
    assert Linked(rows, path[0], path[0 + 1]);
    var row :| row in rows && row.eventId == path[0] && row.target.eventId == path[1];
    RelationsHold(meta, policy, echoIds, log, row);
    var i: nat, k: nat :| i < k < |log| && log[k].id == row.eventId && log[k].typ == Speech && Names(log, i, row.target);
    if |path| == 2 {
      first, last := k, i;
    } else {
      forall n | 0 <= n < |path[1..]| - 1 ensures Linked(rows, path[1..][n], path[1..][n + 1]) {
        assert Linked(rows, path[n + 1], path[n + 1 + 1]);
      }
      var second, bottom := PathDescends(meta, policy, echoIds, log, path[1..]);
      PositionsAgree(log, path[1], i, second);
      first, last := k, bottom;
    }
  }

  /** The relations form a DAG: no path along them returns to where it started. */
  lemma RelationsAcyclic(meta: Metadata, policy: Quality, echoIds: set<string>, log: Log, path: seq<string>)
    requires Reachable(meta, log) && NoEchoes(log, echoIds)
    requires |path| > 1 && Path(Judge(policy, echoIds, log).relations, path)
    ensures path[0] != path[|path| - 1]
  {
    hide Reachable, History, Judge, Path, UniqueIds;
    ReachableHistory(meta, log);
    CouncilSafety.HistoryUniqueIds(meta, log);
    var first, last := PathDescends(meta, policy, echoIds, log, path);
    if path[0] == path[|path| - 1] {
      PositionsAgree(log, path[0], first, last);
    }
  }
}
