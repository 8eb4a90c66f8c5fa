/** Response windows: what a timeout sweep records, and that a turn it has closed stays closed. */
module ResponseWindows {
  import opened Prelude
  import opened Text
  import opened Events
  import opened Channel
  import opened Scans
  import opened Council
  import opened CouncilRuns
  import opened Membership
  import ArgumentGraph

  lemma DaemonIsTrimmed()
    ensures Trim(DAEMON) == DAEMON && !Blank(DAEMON)
  {
    TrimFixed(DAEMON);
  }

  // ---- Responders ------------------------------------------------------------------------

  lemma {:induction false} RespondersGrow(log: Log, longer: Log, turn: int)
    requires log <= longer
    ensures Responders(log, turn) <= Responders(longer, turn)
  {
    if |log| < |longer| {
      RespondersGrow(log, longer[..|longer| - 1], turn);
    } else {
      assert log == longer;
    }
  }

  lemma {:induction false} ResponderCounts(log: Log, k: nat, turn: int)
    requires k < |log| && IsResponse(log[k], turn) && Responder(log[k]) != ""
    ensures Responder(log[k]) in Responders(log, turn)
  {
    hide Responder;
    if k < |log| - 1 {
      ResponderCounts(log[..|log| - 1], k, turn);
    }
  }

  lemma {:induction false} WindowPersists(log: Log, longer: Log, turn: int)
    requires log <= longer && LatestWindow(log, turn).Some?
    ensures LatestWindow(longer, turn).Some?
  {
    hide WindowOf;
    if |log| < |longer| {
      WindowPersists(log, longer[..|longer| - 1], turn);
    } else {
      assert log == longer;
    }
  }

  // ---- One timeout drop ------------------------------------------------------------------

  /** The record of a member's automatic drop. */
  predicate AutoDropFor(e: Event, member: string, turn: int) {
    e.typ == HandRaiseDropped && e.from == DAEMON && e.payload.turn == turn && e.payload.member == member && e.payload.window.auto
  }

  lemma AutoDropAnswers(e: Event, member: string, turn: int)
    requires AutoDropFor(e, member, turn) && Trim(member) == member != ""
    ensures IsResponse(e, turn) && Responder(e) == member
  {
  }

  lemma TimeoutDropBuilds(meta: Metadata, log: Log, turn: int, member: string, window: Window, now: int)
    requires turn > 0 && Trim(member) == member
    requires BuildEvent(meta, log, TimeoutDrop(meta, turn, member, window, now)).Ok?
    ensures var e := BuildEvent(meta, log, TimeoutDrop(meta, turn, member, window, now)).value;
            AutoDropFor(e, member, turn) && e.commandId == TimeoutCommandId(meta, turn, member) != ""
  {
    hide CurrentTurn, EventByIdAndType, SameCommandType, WindowAccepts, ResponseConflict, CouncilMembers, HasId, Trim, EventIdFor;
    DaemonIsTrimmed();
    NotBlank(TimeoutCommandId(meta, turn, member));
  }

  lemma AutoDropStored(meta: Metadata, log: Log, e: Event, member: string, turn: int)
    requires AutoDropFor(e, member, turn)
    ensures AutoDropFor(Stored(meta, log, e), member, turn)
    ensures Channel.Prepare(meta, log, e) == e
  {
  }

  /** Dropping a member who has not answered adds exactly one record, or fails. */
  lemma TimeoutDropAppends(meta: Metadata, log: Log, turn: int, member: string, window: Window, now: int, foreign: set<string>)
    requires turn > 0 && Trim(member) == member != "" && member !in Responders(log, turn)
    requires RecordCouncil(meta, log, TimeoutDrop(meta, turn, member, window, now), foreign).result.Ok?
    ensures var after := RecordCouncil(meta, log, TimeoutDrop(meta, turn, member, window, now), foreign).log;
            |after| == |log| + 1 && log <= after && AutoDropFor(after[|log|], member, turn)
  {
    hide BuildEvent, AutoDropFor, Stored, Append, TimeoutDrop, Responders, TimeoutCommandId;
    var spec := TimeoutDrop(meta, turn, member, window, now);
    TimeoutDropBuilds(meta, log, turn, member, window, now);
    var e := BuildEvent(meta, log, spec).value;
    AutoDropStored(meta, log, e, member, turn);
    var first := FirstWithCommand(log, e.commandId);
    if first.Some? && Equivalent(log[first.value], e) {
      EquivalentAnswers(log[first.value], e, member, turn);
      ResponderCounts(log, first.value, turn);
      assert false;
    }
    AppendAdds(meta, log, e, foreign);
  }

  lemma EquivalentAnswers(recorded: Event, e: Event, member: string, turn: int)
    requires Equivalent(recorded, e) && AutoDropFor(e, member, turn) && Trim(member) == member != ""
    ensures IsResponse(recorded, turn) && Responder(recorded) == member
  {
  }

  lemma AppendAdds(meta: Metadata, log: Log, e: Event, foreign: set<string>)
    ensures var outcome := Append(meta, log, e, foreign);
            outcome.log == if outcome.result.Ok? then log + [Stored(meta, log, e)] else log
  {
    hide Stored, AppendError;
  }

  // ---- The sweep -------------------------------------------------------------------------

  /** `longer` is `log` plus one automatic drop per member, in order. */
  ghost predicate DropsRecorded(log: Log, longer: Log, members: seq<string>, turn: int) {
    && |longer| == |log| + |members| && log <= longer
    && forall i :: 0 <= i < |members| ==> AutoDropFor(longer[|log| + i], members[i], turn)
  }

  lemma RespondersAfterDrop(log: Log, longer: Log, member: string, turn: int)
    requires |longer| == |log| + 1 && log <= longer && AutoDropFor(longer[|log|], member, turn)
    requires Trim(member) == member != ""
    ensures Responders(longer, turn) == Responders(log, turn) + {member}
    ensures LatestWindow(longer, turn) == LatestWindow(log, turn)
  {
    AutoDropAnswers(longer[|log|], member, turn);
    assert longer[..|longer| - 1] == log;
  }

  lemma {:induction false} DropAllRecords(meta: Metadata, log: Log, turn: int, members: seq<string>, window: Window,
                                          now: int, foreign: set<string>)
    requires turn > 0 && Distinct(members)
    requires forall m :: m in members ==> Trim(m) == m != "" && m !in Responders(log, turn)
    requires DropAll(meta, log, turn, members, window, now, foreign).1.Ok?
    ensures var (after, count) := DropAll(meta, log, turn, members, window, now, foreign);
            && DropsRecorded(log, after, members, turn) && count == Ok(|members|)
            && Responders(after, turn) == Responders(log, turn) + (set m | m in members)
            && LatestWindow(after, turn) == LatestWindow(log, turn)
    decreases |members|
  {
    hide RecordCouncil, TimeoutDrop, Responders, LatestWindow, AutoDropFor, Trim;
    if members != [] {
      var first := RecordCouncil(meta, log, TimeoutDrop(meta, turn, members[0], window, now), foreign);
      TimeoutDropAppends(meta, log, turn, members[0], window, now, foreign);
      RespondersAfterDrop(log, first.log, members[0], turn);
      DropAllRecords(meta, first.log, turn, members[1..], window, now, foreign);
      var after := DropAll(meta, log, turn, members, window, now, foreign).0;
      forall i | 0 <= i < |members| ensures AutoDropFor(after[|log| + i], members[i], turn) {
        if i > 0 {
          assert after[|first.log| + (i - 1)] == after[|log| + i];
        }
      }
      assert (set m | m in members) == {members[0]} + (set m | m in members[1..]);
    }
  }

  /** The poll that opened the window asked every member. */
  lemma {:induction false} WindowRequiresMembers(meta: Metadata, log: Log, turn: int)
    requires History(meta, log) && LatestWindow(log, turn).Some? && CouncilMembers(meta) != []
    ensures LatestWindow(log, turn).value.required == CouncilMembers(meta)
  {
    hide CouncilMembers, PhaseJustified, FreshCommand, HasId;
    var init, e := log[..|log| - 1], log[|log| - 1];
    if OpensWindow(e, turn) {
      assert Justified(meta, init, e);
    } else {
      HistoryPrefix(meta, log, |log| - 1);
      WindowRequiresMembers(meta, init, turn);
    }
  }

  lemma {:induction false} MissingDistinct(required: seq<string>, responded: set<string>)
    requires Distinct(required)
    ensures Distinct(MissingFrom(required, responded))
  {
    if required != [] {
      MissingDistinct(required[1..], responded);
      assert required[0] !in required[1..];
    }
  }

  lemma NothingMissing(required: seq<string>, responded: set<string>)
    requires forall m :: m in required ==> m in responded
    ensures MissingFrom(required, responded) == []
  {
    if MissingFrom(required, responded) != [] {
      assert MissingFrom(required, responded)[0] in MissingFrom(required, responded);
    }
  }

  /** The members of a council who have not answered a turn. */
  function Silent(meta: Metadata, log: Log, turn: int): (missing: seq<string>)
    ensures forall m :: m in missing <==> CouncilMember(meta, m) && m !in Responders(log, turn)
  {
    MissingFrom(CouncilMembers(meta), Responders(log, turn))
  }

  lemma WindowMissing(meta: Metadata, log: Log, turn: int, now: int)
    requires History(meta, log) && CouncilMembers(meta) != [] && turn > 0 && LatestWindow(log, turn).Some?
    ensures WindowAccounting(CouncilMembers(meta), log, now, turn).WindowReport?
    ensures WindowAccounting(CouncilMembers(meta), log, now, turn).required == CouncilMembers(meta)
    ensures WindowAccounting(CouncilMembers(meta), log, now, turn).missing == Silent(meta, log, turn)
  {
    hide History, CouncilMembers;
    WindowRequiresMembers(meta, log, turn);
  }

  /** A successful sweep records exactly one automatic drop per member who had not answered and
      none for anyone else; afterwards nobody is missing, and sweeping again changes nothing. */
  lemma TimeoutSweep(meta: Metadata, log: Log, turn: int, now: int, foreign: set<string>)
    requires Reachable(meta, log) && Canonical(meta)
    requires WindowTimeout(meta, log, turn, now, foreign).1.Ok?
    ensures var (after, count) := WindowTimeout(meta, log, turn, now, foreign);
            && DropsRecorded(log, after, Silent(meta, log, turn), turn)
            && Distinct(Silent(meta, log, turn))
            && count == Ok(|Silent(meta, log, turn)|)
            && Settled(meta, after, turn)
            && Silent(meta, after, turn) == []
            && forall later, ids :: later >= now ==> WindowTimeout(meta, after, turn, later, ids) == (after, Ok(0))
  {
    hide Reachable, History, Canonical, DropAll, WindowAccounting, CouncilMembers, Silent, LatestWindow, Trim;
    ReachableHistory(meta, log);
    SweepFromHistory(meta, log, turn, now, foreign);
  }

  lemma SweepFromHistory(meta: Metadata, log: Log, turn: int, now: int, foreign: set<string>)
    requires History(meta, log) && Canonical(meta)
    requires WindowTimeout(meta, log, turn, now, foreign).1.Ok?
    ensures var (after, count) := WindowTimeout(meta, log, turn, now, foreign);
            && DropsRecorded(log, after, Silent(meta, log, turn), turn)
            && Distinct(Silent(meta, log, turn))
            && count == Ok(|Silent(meta, log, turn)|)
            && Settled(meta, after, turn)
            && Silent(meta, after, turn) == []
            && forall later, ids :: later >= now ==> WindowTimeout(meta, after, turn, later, ids) == (after, Ok(0))
  {
    hide History, DropAll, CouncilMembers, LatestWindow, Trim, DropsRecorded;
    var silent, window := Silent(meta, log, turn), LatestWindow(log, turn).value;
    WindowMissing(meta, log, turn, now);
    hide WindowAccounting;
    MissingDistinct(CouncilMembers(meta), Responders(log, turn));
    DropAllRecords(meta, log, turn, silent, window, now, foreign);
    var after := WindowTimeout(meta, log, turn, now, foreign).0;
    NothingMissing(CouncilMembers(meta), Responders(after, turn));
    forall later, ids | later >= now ensures WindowTimeout(meta, after, turn, later, ids) == (after, Ok(0)) {
      WindowRequiresMembers(meta, log, turn);
      SettledSweep(meta, after, turn, later, ids);
    }
  }

  // ---- A settled turn stays closed -------------------------------------------------------

  /** The turn has been polled, and every member has answered it or been dropped. */
  predicate Settled(meta: Metadata, log: Log, turn: int) {
    LatestWindow(log, turn).Some? && Silent(meta, log, turn) == []
  }

  lemma SettledSweep(meta: Metadata, log: Log, turn: int, now: int, foreign: set<string>)
    requires turn > 0 && Settled(meta, log, turn) && CouncilMembers(meta) != []
    requires LatestWindow(log, turn).value.required == CouncilMembers(meta)
    requires now >= LatestWindow(log, turn).value.deadline
    ensures WindowTimeout(meta, log, turn, now, foreign) == (log, Ok(0))
  {
    hide CouncilMembers, LatestWindow, Responders, RecordCouncil, AutoDrops;
    assert WindowAccounting(CouncilMembers(meta), log, now, turn).missing == [];
  }

  lemma SettledStays(meta: Metadata, log: Log, longer: Log, turn: int)
    requires Settled(meta, log, turn) && log <= longer
    ensures Settled(meta, longer, turn)
  {
    hide CouncilMembers, LatestWindow, Responders;
    WindowPersists(log, longer, turn);
    RespondersGrow(log, longer, turn);
    forall m | CouncilMember(meta, m) ensures m in Responders(longer, turn) {
      assert m !in Silent(meta, log, turn);
    }
    NothingMissing(CouncilMembers(meta), Responders(longer, turn));
  }

  /** A settled turn accepts no answer, whenever it is and however often it is polled again. */
  lemma SettledIsClosed(meta: Metadata, log: Log, turn: int, now: int)
    requires History(meta, log) && CouncilMembers(meta) != [] && turn > 0 && Settled(meta, log, turn)
    ensures !WindowAccepts(log, turn, now)
  {
    hide History, CouncilMembers, Responders, LatestWindow;
    WindowRequiresMembers(meta, log, turn);
  }

  /** The gate mistakes the command for a retry: its padded id, trimmed, was used for the same kind
      of answer, though the id as given was not. */
  predicate PaddedReuse(log: Log, commandId: string, typ: EventType) {
    SameCommandType(log, commandId, typ) && FirstWithCommand(log, commandId) == None
  }

  lemma PaddedReuseIsPadded(log: Log, commandId: string, typ: EventType)
    requires PaddedReuse(log, commandId, typ)
    ensures Trim(commandId) != commandId
  {
    hide Trim;
    var i :| 0 <= i < |log| && log[i].commandId == Trim(commandId) && log[i].typ == typ;
    assert FirstWithCommand(log, commandId) == None ==> log[i].commandId != commandId;
  }

  predicate ParticipantAnswer(e: Event, turn: int) {
    IsResponse(e, turn) && (e.typ == HandRaiseDropped ==> !e.payload.window.auto)
  }

  lemma AnswerPasses(meta: Metadata, log: Log, k: nat, turn: int)
    requires History(meta, log) && k < |log| && ParticipantAnswer(log[k], turn)
    ensures turn > 0 && CouncilMembers(meta) != []
    ensures SameCommandType(log[..k], log[k].commandId, log[k].typ) || WindowAccepts(log[..k], turn, log[k].createdAt)
    ensures log[k].commandId != "" ==> FirstWithCommand(log[..k], log[k].commandId) == None
  {
    hide PhaseJustified, HasId, SameCommandType, WindowAccepts, ResponseConflict, ArgumentGraph.ParseLinks, CouncilMembers;
    assert Justified(meta, log[..k], log[k]);
  }

  /** After a turn is settled no participant's raise or drop for it is ever recorded again, not
      even after a new poll of the same turn, unless it reuses a command id with padding. */
  lemma SettledTurnStaysSilent(meta: Metadata, log: Log, n: nat, k: nat, turn: int)
    requires Reachable(meta, log) && n <= k < |log| && Settled(meta, log[..n], turn)
    requires ParticipantAnswer(log[k], turn)
    ensures PaddedReuse(log[..k], log[k].commandId, log[k].typ) && Trim(log[k].commandId) != log[k].commandId
  {
    hide Reachable, History, Settled, WindowAccepts, ParticipantAnswer, CouncilMembers, Trim;
    ReachableHistory(meta, log);
    HistoryPrefix(meta, log, k);
    AnswerPasses(meta, log, k, turn);
    assert log[..n] <= log[..k];
    SettledStays(meta, log[..n], log[..k], turn);
    SettledIsClosed(meta, log[..k], turn, log[k].createdAt);
    EmptyIsTrimmed();
    PaddedReuseIsPadded(log[..k], log[k].commandId, log[k].typ);
  }

  lemma EmptyIsTrimmed()
    ensures Trim("") == ""
  {
  }

  /** What a raise must satisfy apart from coming in time. */
  predicate RaiseOtherwiseGood(meta: Metadata, log: Log, spec: CouncilSpec, turn: int) {
    var actor, p, id := ActorOf(meta, spec), PayloadOf(spec), CommandIdOf(spec);
    DecideRaise(meta, LatestPhase(log), actor, p, Ok(turn), true, true, ResponseConflict(log, id, actor, turn, HandRaise),
                ArgumentGraph.ParseLinks(log, p.graph.targetLinks, false)).Ok?
  }

  predicate DropOtherwiseGood(meta: Metadata, log: Log, spec: CouncilSpec, turn: int) {
    var actor, p, id := ActorOf(meta, spec), PayloadOf(spec), CommandIdOf(spec);
    !p.window.auto
    && DecideDrop(meta, LatestPhase(log), actor, p, Ok(turn),
                  EventByIdAndType(log, Trim(p.window.requestEventId), HandRaiseRequested), true, true,
                  ResponseConflict(log, id, DropMember(actor, p), turn, HandRaiseDropped)).Ok?
  }

  /** On a settled turn a raise, or a participant's drop, under a new command id gets past the
      transition exactly when it is good in every other respect and its id is a padded reuse. */
  lemma LateAnswerExactly(meta: Metadata, log: Log, spec: CouncilSpec, turn: int)
    requires History(meta, log) && CouncilMembers(meta) != [] && !Terminal(LatestPhase(log))
    requires RequireTurn(PayloadOf(spec), CurrentTurn(log)) == Ok(turn) && Settled(meta, log, turn)
    requires FirstWithCommand(log, CommandIdOf(spec)) == None
    ensures spec.action == RaiseHand ==>
              (Transition(meta, log, spec).Ok?
               <==> (RaiseOtherwiseGood(meta, log, spec, turn) && PaddedReuse(log, CommandIdOf(spec), HandRaise)))
    ensures spec.action == DropHand && !PayloadOf(spec).window.auto ==>
              (Transition(meta, log, spec).Ok?
               <==> (DropOtherwiseGood(meta, log, spec, turn) && PaddedReuse(log, CommandIdOf(spec), HandRaiseDropped)))
  {
    hide History, Settled, WindowAccepts, CouncilMembers, ResponseConflict, ArgumentGraph.ParseLinks, CurrentTurn, PayloadOf,
      ActorOf, CommandIdOf, SameCommandType, EventByIdAndType, DropMember, Trim;
    SettledIsClosed(meta, log, turn, spec.now);
  }

  // ---- The sweep is part of a run --------------------------------------------------------

  lemma {:induction false} DropAllReachable(meta: Metadata, log: Log, turn: int, members: seq<string>, window: Window, now: int, foreign: set<string>)
    requires Reachable(meta, log)
    ensures Reachable(meta, DropAll(meta, log, turn, members, window, now, foreign).0)
    decreases |members|
  {
    hide Reachable, RecordCouncil, TimeoutDrop;
    if members != [] {
      var request := Request(CouncilCommand(TimeoutDrop(meta, turn, members[0], window, now)), foreign);
      ApplyReachable(meta, log, request);
      DropAllReachable(meta, Apply(meta, log, request), turn, members[1..], window, now, foreign);
    }
  }

  lemma ReportExists(meta: Metadata, log: Log, turn: int, now: int)
    requires turn > 0 && LatestWindow(log, turn).Some?
    ensures WindowAccounting(CouncilMembers(meta), log, now, turn).WindowReport?
  {
  }

  /** A sweep is a run of drop commands: what it leaves is reachable again, so after it the turn
      stays silent in every continuation. */
  lemma SweepReachable(meta: Metadata, log: Log, turn: int, now: int, foreign: set<string>)
    requires Reachable(meta, log)
    ensures Reachable(meta, WindowTimeout(meta, log, turn, now, foreign).0)
  {
    hide Reachable, DropAll, WindowAccounting, LatestWindow;
    if turn > 0 && LatestWindow(log, turn).Some? && now >= LatestWindow(log, turn).value.deadline {
      ReportExists(meta, log, turn, now);
      DropAllReachable(meta, log, turn, WindowAccounting(CouncilMembers(meta), log, now, turn).missing,
                       LatestWindow(log, turn).value, now, foreign);
    }
  }
}
