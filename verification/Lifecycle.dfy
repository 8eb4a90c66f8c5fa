/** The discussion lifecycle: opening, discussion turns, closeouts, and visible-turn numbering. */
module Lifecycle {
  import opened Prelude
  import opened Text
  import opened Events
  import opened Channel

  datatype Stage = DiscussionStage | CloseoutStage

  datatype Tracker = Tracker(
    openingId: string, openingTurn: int,
    turns: set<int>,                   // discussion turns with a granted speech
    closeoutIndex: map<string, int>,   // closeout members and their visible index
    nextIndex: int,
    granted: set<(string, int)>,
    stages: map<string, Stage>,        // by speech event id
    indexes: map<string, int>,
    terminalId: string)

  function Initial(meta: Metadata): Tracker {
    Tracker("", 0, {}, map[], meta.maxDiscussionTurns + 2, {}, map[], map[], "")
  }

  function GrantedMember(e: Event): string {
    if !Blank(e.payload.member) then Trim(e.payload.member)
    else if |e.to| == 1 then Trim(e.to[0])
    else ""
  }

  /** A speech counts when a grant to its speaker for its turn precedes it. */
  predicate Counts(meta: Metadata, t: Tracker, e: Event) {
    e.typ == Speech && EventTurn(e) > 0 && CouncilMember(meta, Trim(e.from))
    && (Trim(e.from), EventTurn(e)) in t.granted
  }

  function Step(meta: Metadata, t: Tracker, e: Event): Tracker {
    match e.typ
    case SpeakerSelected =>
      if EventTurn(e) > 0 && GrantedMember(e) != "" then
        t.(granted := t.granted + {(GrantedMember(e), EventTurn(e))})
      else t
    case HandRaiseRequested =>
      if t.openingId == "" && e.from == meta.moderator then t.(openingId := e.id, openingTurn := EventTurn(e))
      else t
    case Speech =>
      if !Counts(meta, t, e) then t
      else if EventTurn(e) <= meta.maxDiscussionTurns then
        t.(turns := t.turns + {EventTurn(e)},
           stages := t.stages[e.id := DiscussionStage],
           indexes := t.indexes[e.id := EventTurn(e) + 1])
      else if Trim(e.from) in t.closeoutIndex then t
      else
        t.(closeoutIndex := t.closeoutIndex[Trim(e.from) := t.nextIndex],
           nextIndex := t.nextIndex + 1,
           stages := t.stages[e.id := CloseoutStage],
           indexes := t.indexes[e.id := t.nextIndex])
    case CouncilFinalized => t.(terminalId := e.id)
    case CouncilUnresolved => t.(terminalId := e.id)
    case _ => t
  }

  function Track(meta: Metadata, log: Log): Tracker {
    if log == [] then Initial(meta) else Step(meta, Track(meta, log[..|log| - 1]), log[|log| - 1])
  }

  predicate Configured(meta: Metadata) {
    meta.maxDiscussionTurns > 0
  }

  /** The discussion turns up to `n` that no speech has filled, in order. */
  function MissingTurns(n: int, turns: set<int>): (missing: seq<int>)
    ensures forall t :: t in missing <==> 1 <= t <= n && t !in turns
    decreases n
  {
    if n <= 0 then [] else MissingTurns(n - 1, turns) + if n in turns then [] else [n]
  }

  function MissingCloseoutMembers(members: seq<string>, closeoutIndex: map<string, int>): (missing: seq<string>)
    ensures forall m :: m in missing <==> m in members && m !in closeoutIndex
  {
    if members == [] then []
    else (if members[0] in closeoutIndex then [] else [members[0]]) + MissingCloseoutMembers(members[1..], closeoutIndex)
  }

  datatype Report = Report(
    configured: bool, openingId: string, missingTurns: seq<int>, missingCloseouts: seq<string>,
    proposeReady: bool, expectedVisibleTurns: int, terminalIndex: int,
    stages: map<string, Stage>, indexes: map<string, int>)

  function ReportFrom(meta: Metadata, t: Tracker): Report {
    var missingTurns := MissingTurns(meta.maxDiscussionTurns, t.turns);
    var missingCloseouts := MissingCloseoutMembers(CouncilMembers(meta), t.closeoutIndex);
    var total := meta.maxDiscussionTurns + |CouncilMembers(meta)| + 2;
    Report(true, t.openingId, missingTurns, missingCloseouts,
           t.openingId != "" && missingTurns == [] && missingCloseouts == [],
           total, total, t.stages, t.indexes)
  }

  function LifecycleOf(meta: Metadata, log: Log): Report {
    if !Configured(meta) then Report(false, "", [], [], false, 0, 0, map[], map[])
    else ReportFrom(meta, Track(meta, log))
  }

  /** The loop body: one event updates the running sets, maps and counter. */
  method Observe(meta: Metadata, before: Tracker, e: Event) returns (t: Tracker)
    ensures t == Step(meta, before, e)
  {
    t := before;
    match e.typ {
      case SpeakerSelected =>
        var turn, member := EventTurn(e), GrantedMember(e);
        if turn > 0 && member != "" {
          t := t.(granted := t.granted + {(member, turn)});
        }
      case HandRaiseRequested =>
        if t.openingId == "" && e.from == meta.moderator {
          t := t.(openingId := e.id, openingTurn := EventTurn(e));
        }
      case Speech =>
        var turn, member := EventTurn(e), Trim(e.from);
        if turn > 0 && CouncilMember(meta, member) && (member, turn) in t.granted {
          if turn <= meta.maxDiscussionTurns {
            t := t.(turns := t.turns + {turn}, stages := t.stages[e.id := DiscussionStage],
                    indexes := t.indexes[e.id := turn + 1]);
          } else if member !in t.closeoutIndex {
            var index := t.nextIndex;
            t := t.(closeoutIndex := t.closeoutIndex[member := index], nextIndex := index + 1,
                    stages := t.stages[e.id := CloseoutStage], indexes := t.indexes[e.id := index]);
          }
        }
      case CouncilFinalized => t := t.(terminalId := e.id);
      case CouncilUnresolved => t := t.(terminalId := e.id);
      case _ =>
    }
  }

  /** One pass over the log, as the status and the propose gate run it. */
  method DiscussionLifecycle(meta: Metadata, log: Log) returns (report: Report)
    ensures report == LifecycleOf(meta, log)
  {
    if meta.maxDiscussionTurns <= 0 {
      return Report(false, "", [], [], false, 0, 0, map[], map[]);
    }
    hide Step, CouncilMembers;
    var t := Initial(meta);
    for i := 0 to |log|
      invariant t == Track(meta, log[..i])
    {
      assert log[..i + 1][..i] == log[..i];
      t := Observe(meta, t, log[i]);
    }
    assert log[..|log|] == log;
    var missingTurns: seq<int> := [];
    for turn := 1 to meta.maxDiscussionTurns + 1
      invariant missingTurns == MissingTurns(turn - 1, t.turns)
    {
      if turn !in t.turns {
        missingTurns := missingTurns + [turn];
      }
    }
    var missingCloseouts := MissingCloseoutMembers(CouncilMembers(meta), t.closeoutIndex);
    var total := meta.maxDiscussionTurns + |CouncilMembers(meta)| + 2;
    return Report(true, t.openingId, missingTurns, missingCloseouts,
                  t.openingId != "" && missingTurns == [] && missingCloseouts == [],
                  total, total, t.stages, t.indexes);
  }

  // ---- Readiness is monotone -------------------------------------------------------------

  ghost predicate Progress(a: Tracker, b: Tracker) {
    && a.turns <= b.turns && a.closeoutIndex.Keys <= b.closeoutIndex.Keys && a.granted <= b.granted
    && (a.openingId != "" ==> b.openingId == a.openingId)
    && (forall m :: m in a.closeoutIndex ==> b.closeoutIndex[m] == a.closeoutIndex[m])
  }

  lemma {:induction false} TrackProgress(meta: Metadata, log: Log, longer: Log)
    requires log <= longer
    ensures Progress(Track(meta, log), Track(meta, longer))
  {
    if |log| < |longer| {
      TrackProgress(meta, log, longer[..|longer| - 1]);
    } else {
      assert log == longer;
    }
  }

  lemma EmptyOrHas<T>(xs: seq<T>)
    ensures xs == [] || exists x :: x in xs
  {
    if xs != [] {
      assert xs[0] in xs;
    }
  }

  /** Nothing that is recorded later makes a ready lifecycle unready. */
  lemma ReadinessMonotone(meta: Metadata, log: Log, longer: Log)
    requires log <= longer && LifecycleOf(meta, log).proposeReady
    ensures LifecycleOf(meta, longer).proposeReady
    ensures LifecycleOf(meta, longer).openingId == LifecycleOf(meta, log).openingId
  {
    TrackProgress(meta, log, longer);
    var a, b := LifecycleOf(meta, log), LifecycleOf(meta, longer);
    forall t ensures t !in b.missingTurns {
      assert t !in a.missingTurns;
    }
    forall m ensures m !in b.missingCloseouts {
      assert m !in a.missingCloseouts;
    }
    EmptyOrHas(b.missingTurns);
    EmptyOrHas(b.missingCloseouts);
  }

  // ---- Visible-turn numbering ------------------------------------------------------------

  predicate FirstCloseout(meta: Metadata, t: Tracker, e: Event) {
    Counts(meta, t, e) && EventTurn(e) > meta.maxDiscussionTurns && Trim(e.from) !in t.closeoutIndex
  }

  /** The members in the order of their first closeout speech. */
  ghost function CloseoutOrder(meta: Metadata, log: Log): seq<string> {
    if log == [] then []
    else
      var earlier, e := CloseoutOrder(meta, log[..|log| - 1]), log[|log| - 1];
      if FirstCloseout(meta, Track(meta, log[..|log| - 1]), e) then earlier + [Trim(e.from)] else earlier
  }

  /** The closeout counter and map say what the order says. */
  ghost predicate OrderInv(meta: Metadata, t: Tracker, order: seq<string>) {
    && Distinct(order)
    && (forall m :: m in order ==> CouncilMember(meta, m))
    && t.nextIndex == meta.maxDiscussionTurns + 2 + |order|
    && (forall m :: m in t.closeoutIndex <==> m in order)
    && (forall k :: 0 <= k < |order| ==> t.closeoutIndex[order[k]] == meta.maxDiscussionTurns + 2 + k)
  }

  lemma OrderStep(meta: Metadata, t: Tracker, order: seq<string>, e: Event)
    requires OrderInv(meta, t, order)
    ensures OrderInv(meta, Step(meta, t, e), if FirstCloseout(meta, t, e) then order + [Trim(e.from)] else order)
  {
  }

  lemma {:induction false} OrderHolds(meta: Metadata, log: Log)
    ensures OrderInv(meta, Track(meta, log), CloseoutOrder(meta, log))
  {
    if log != [] {
      var init := log[..|log| - 1];
      OrderHolds(meta, init);
      OrderStep(meta, Track(meta, init), CloseoutOrder(meta, init), log[|log| - 1]);
    }
  }

  /** Stages and indexes agree: discussion speeches up to N + 1, closeouts after it. */
  ghost predicate StageInv(meta: Metadata, t: Tracker) {
    && t.nextIndex >= meta.maxDiscussionTurns + 2
    && t.stages.Keys == t.indexes.Keys
    && (forall id :: id in t.indexes ==>
          if t.stages[id] == DiscussionStage
          then 2 <= t.indexes[id] <= meta.maxDiscussionTurns + 1
          else meta.maxDiscussionTurns + 2 <= t.indexes[id] < t.nextIndex)
    && (forall turn :: turn in t.turns ==> 1 <= turn <= meta.maxDiscussionTurns)
  }

  lemma StageStep(meta: Metadata, t: Tracker, e: Event)
    requires StageInv(meta, t)
    ensures StageInv(meta, Step(meta, t, e))
  {
    var t' := Step(meta, t, e);
    hide Trim, CouncilMember, EventTurn;
    if t' != t && e.typ == Speech {
      forall id | id in t'.indexes
        ensures if t'.stages[id] == DiscussionStage
                then 2 <= t'.indexes[id] <= meta.maxDiscussionTurns + 1
                else meta.maxDiscussionTurns + 2 <= t'.indexes[id] < t'.nextIndex
      {
        if id != e.id {
          assert t'.indexes[id] == t.indexes[id] && t'.stages[id] == t.stages[id];
        }
      }
    }
  }

  lemma {:induction false} StageHolds(meta: Metadata, log: Log)
    ensures StageInv(meta, Track(meta, log))
  {
    if log != [] {
      StageHolds(meta, log[..|log| - 1]);
      StageStep(meta, Track(meta, log[..|log| - 1]), log[|log| - 1]);
    }
  }

  /** The speech that an index belongs to: a discussion speech of turn t shows at t + 1, the
      k-th member to close out shows k places after the last discussion turn. */
  ghost predicate ShownAt(meta: Metadata, log: Log, e: Event, index: int) {
    e.typ == Speech && EventTurn(e) > 0 &&
    if EventTurn(e) <= meta.maxDiscussionTurns then index == EventTurn(e) + 1
    else var k := index - meta.maxDiscussionTurns - 2;
         0 <= k < |CloseoutOrder(meta, log)| && CloseoutOrder(meta, log)[k] == Trim(e.from)
  }

  ghost predicate Numbered(meta: Metadata, log: Log, id: string, index: int) {
    exists i :: 0 <= i < |log| && log[i].id == id && ShownAt(meta, log, log[i], index)
  }

  lemma NumberedGrows(meta: Metadata, log: Log, id: string, index: int)
    requires log != [] && Numbered(meta, log[..|log| - 1], id, index)
    ensures Numbered(meta, log, id, index)
  {
    var init := log[..|log| - 1];
    var i :| 0 <= i < |init| && init[i].id == id && ShownAt(meta, init, init[i], index);
    assert CloseoutOrder(meta, init) <= CloseoutOrder(meta, log);
    assert log[i] == init[i] && ShownAt(meta, log, log[i], index);
  }

  lemma IndexesOf(meta: Metadata, t: Tracker, e: Event)
    ensures var t' := Step(meta, t, e);
            t'.indexes == if Counts(meta, t, e) && EventTurn(e) <= meta.maxDiscussionTurns
                          then t.indexes[e.id := EventTurn(e) + 1]
                          else if FirstCloseout(meta, t, e) then t.indexes[e.id := t.nextIndex]
                          else t.indexes
  {
  }

  lemma {:induction false} NumberedHolds(meta: Metadata, log: Log, id: string)
    requires id in Track(meta, log).indexes
    ensures Numbered(meta, log, id, Track(meta, log).indexes[id])
  {
    var init, e := log[..|log| - 1], log[|log| - 1];
    var s := Track(meta, init);
    IndexesOf(meta, s, e);
    OrderHolds(meta, init);
    if id == e.id && (FirstCloseout(meta, s, e) || (Counts(meta, s, e) && EventTurn(e) <= meta.maxDiscussionTurns)) {
      assert ShownAt(meta, log, log[|log| - 1], Track(meta, log).indexes[id]);
    } else {
      NumberedHolds(meta, init, id);
      NumberedGrows(meta, log, id, s.indexes[id]);
    }
  }

  // ---- Counting distinct members ---------------------------------------------------------

  lemma {:induction false} SizeBound(xs: seq<string>)
    ensures |set x | x in xs| <= |xs|
    ensures Distinct(xs) ==> |set x | x in xs| == |xs|
  {
    if xs != [] {
      var init, last := xs[..|xs| - 1], xs[|xs| - 1];
      SizeBound(init);
      assert (set x | x in xs) == (set x | x in init) + {last};
    }
  }

  lemma SubsetSize<T>(a: set<T>, b: set<T>)
    requires a <= b
    ensures |a| <= |b|
    ensures |a| == |b| ==> a == b
  {
    assert b == a + (b - a);
  }

  lemma DistinctWithin(xs: seq<string>, ys: seq<string>)
    requires Distinct(xs) && forall x :: x in xs ==> x in ys
    ensures |xs| <= |ys|
  {
    SizeBound(xs);
    SizeBound(ys);
    SubsetSize(set x | x in xs, set y | y in ys);
  }

  // ---- Results ---------------------------------------------------------------------------

  /** Every assigned index is justified and lies below the terminal turn; closeouts never exceed
      the number of members. */
  lemma VisibleIndexes(meta: Metadata, log: Log, id: string)
    requires Configured(meta) && id in LifecycleOf(meta, log).indexes
    ensures id in LifecycleOf(meta, log).stages
    ensures var report, n := LifecycleOf(meta, log), meta.maxDiscussionTurns;
            && Numbered(meta, log, id, report.indexes[id])
            && (report.stages[id] == DiscussionStage ==> 2 <= report.indexes[id] <= n + 1)
            && (report.stages[id] == CloseoutStage ==> n + 2 <= report.indexes[id] < report.terminalIndex)
            && report.terminalIndex == n + |CouncilMembers(meta)| + 2
  {
    NumberedHolds(meta, log, id);
    OrderHolds(meta, log);
    StageHolds(meta, log);
    DistinctWithin(CloseoutOrder(meta, log), CouncilMembers(meta));
  }

  /** Different members never share a closeout index, and the indexes are handed out in order. */
  lemma CloseoutIndexes(meta: Metadata, log: Log)
    ensures var order := CloseoutOrder(meta, log);
            Distinct(order) && |order| <= |CouncilMembers(meta)|
            && Track(meta, log).closeoutIndex.Keys == (set m | m in order)
            && forall k :: 0 <= k < |order| ==>
                 Track(meta, log).closeoutIndex[order[k]] == meta.maxDiscussionTurns + 2 + k
  {
    OrderHolds(meta, log);
    DistinctWithin(CloseoutOrder(meta, log), CouncilMembers(meta));
  }

  predicate AssignedIn(t: Tracker, index: int) {
    exists id :: id in t.indexes && t.indexes[id] == index
  }

  ghost predicate AssignmentInv(t: Tracker, log: Log) {
    && (forall turn :: turn in t.turns ==> AssignedIn(t, turn + 1))
    && (forall m :: m in t.closeoutIndex ==> AssignedIn(t, t.closeoutIndex[m]))
    && (forall id :: id in t.indexes ==> HasId(log, id))
  }

  lemma AssignedStep(meta: Metadata, t: Tracker, e: Event, index: int)
    requires AssignedIn(t, index) && e.id !in t.indexes
    ensures AssignedIn(Step(meta, t, e), index)
  {
    IndexesOf(meta, t, e);
    var id :| id in t.indexes && t.indexes[id] == index;
    assert id in Step(meta, t, e).indexes;
  }

  lemma AssignmentStep(meta: Metadata, t: Tracker, log: Log, e: Event)
    requires AssignmentInv(t, log) && !HasId(log, e.id)
    ensures AssignmentInv(Step(meta, t, e), log + [e])
  {
    IndexesOf(meta, t, e);
    var t' := Step(meta, t, e);
    forall turn | turn in t'.turns ensures AssignedIn(t', turn + 1) {
      if turn in t.turns {
        AssignedStep(meta, t, e, turn + 1);
      } else {
        assert t'.indexes[e.id] == turn + 1;
      }
    }
    forall m | m in t'.closeoutIndex ensures AssignedIn(t', t'.closeoutIndex[m]) {
      if m in t.closeoutIndex {
        AssignedStep(meta, t, e, t.closeoutIndex[m]);
      } else {
        assert t'.indexes[e.id] == t'.closeoutIndex[m];
      }
    }
    forall id | id in t'.indexes ensures HasId(log + [e], id) {
      if id in t.indexes {
        var k :| 0 <= k < |log| && log[k].id == id;
        assert (log + [e])[k].id == id;
      } else {
        assert (log + [e])[|log|].id == id;
      }
    }
  }

  /** Each filled discussion turn and each closeout has a speech of the log at its index. */
  lemma {:induction false} AssignmentsHold(meta: Metadata, log: Log)
    requires UniqueIds(log)
    ensures AssignmentInv(Track(meta, log), log)
  {
    if log != [] {
      var init, e := log[..|log| - 1], log[|log| - 1];
      AssignmentsHold(meta, init);
      forall k | 0 <= k < |init| ensures init[k].id != e.id {
        assert log[k].id != log[|log| - 1].id;
      }
      AssignmentStep(meta, Track(meta, init), init, e);
      assert log == init + [e];
    }
  }

  lemma StepKeepsOthers(meta: Metadata, t: Tracker, e: Event, id: string)
    requires id in t.indexes && id in t.stages && id != e.id
    ensures var later := Step(meta, t, e);
            id in later.indexes && later.indexes[id] == t.indexes[id] && id in later.stages && later.stages[id] == t.stages[id]
  {
    hide Counts, Trim, EventTurn, GrantedMember;
  }

  /** A speech that has been given a visible index and a stage keeps both in every extension of the
      log, as long as event ids are unique. */
  lemma {:induction false} AssignmentsPersist(meta: Metadata, log: Log, longer: Log, id: string)
    requires log <= longer && UniqueIds(longer) && id in Track(meta, log).indexes
    ensures var t, later := Track(meta, log), Track(meta, longer);
            && id in later.indexes && later.indexes[id] == t.indexes[id]
            && id in t.stages && id in later.stages && later.stages[id] == t.stages[id]
  {
    hide Step;
    StageHolds(meta, log);
    if log == longer {
    } else {
      var init, e := longer[..|longer| - 1], longer[|longer| - 1];
      AssignmentsPersist(meta, log, init, id);
      AssignmentsHold(meta, init);
      var k :| 0 <= k < |init| && init[k].id == id;
      assert longer[k].id != longer[|longer| - 1].id;
      StepKeepsOthers(meta, Track(meta, init), e, id);
    }
  }

  /** When the lifecycle is ready for a proposal the visible indexes are exactly 2 .. N+P+1:
      no gap after the opening and none before the terminal turn. */
  lemma ReadyCoversEveryTurn(meta: Metadata, log: Log, index: int)
    requires Configured(meta) && UniqueIds(log) && Distinct(CouncilMembers(meta))
    requires LifecycleOf(meta, log).proposeReady
    ensures AssignedIn(Track(meta, log), index) <==> 2 <= index < LifecycleOf(meta, log).terminalIndex
  {
    OrderHolds(meta, log);
    AssignmentsHold(meta, log);
    var report, t, n := LifecycleOf(meta, log), Track(meta, log), meta.maxDiscussionTurns;
    var order, members := CloseoutOrder(meta, log), CouncilMembers(meta);
    forall turn | 1 <= turn <= n ensures turn in t.turns {
      assert turn !in report.missingTurns;
    }
    forall m | m in members ensures m in order {
      assert m !in report.missingCloseouts;
    }
    DistinctWithin(members, order);
    DistinctWithin(order, members);
    if AssignedIn(t, index) {
      var id :| id in t.indexes && t.indexes[id] == index;
      VisibleIndexes(meta, log, id);
      StageHolds(meta, log);
    }
    if 2 <= index <= n + 1 {
      assert index - 1 in t.turns;
    } else if n + 2 <= index < report.terminalIndex {
      assert t.closeoutIndex[order[index - n - 2]] == index;
    }
  }
}
