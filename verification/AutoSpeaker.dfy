/** Automatic speaker selection: eligible raises are scored and the best one is picked. */
module AutoSpeaker {
  import opened Prelude
  import opened Text
  import opened Events
  import opened Channel
  import opened Scans
  import opened ArgumentGraph

  /** The score that selection starts from: minus two to the thirtieth. */
  const FLOOR: int := -1_073_741_824

  function IntentBonus(intent: string): int {
    if intent in {"challenge", "risk_addition", "risk", "block", "rebuttal"} then 8
    else if intent in {"synthesize", "decision_frame"} then 7
    else if intent in {"refine", "extend", "question"} then 5
    else if intent == "support" then 3
    else 0
  }

  function TargetCount(log: Log, raise: Event): nat {
    var links := ParseLinks(log, raise.payload.graph.targetLinks, false);
    if links.Ok? then |links.value| else 0
  }

  function Score(log: Log, raise: Event): int {
    raise.payload.window.relevance + raise.payload.window.urgency
    + IntentBonus(Trim(raise.payload.window.intent)) + 4 * TargetCount(log, raise)
  }

  predicate Eligible(meta: Metadata, turn: int, e: Event) {
    e.typ == HandRaise && e.payload.turn == turn && CouncilMember(meta, e.from)
    && e.payload.window.wantsToSpeak != Some(false) && e.payload.window.eligible != Some(false)
  }

  function EligibleRaises(meta: Metadata, log: Log, turn: int): (raises: seq<Event>)
    ensures forall e :: e in raises <==> e in log && Eligible(meta, turn, e)
  {
    if log == [] then []
    else
      var e := log[|log| - 1];
      EligibleRaises(meta, log[..|log| - 1], turn) + if Eligible(meta, turn, e) then [e] else []
  }

  function LatestSpeaker(log: Log): string {
    if log == [] then ""
    else if log[|log| - 1].typ == Speech then log[|log| - 1].from
    else LatestSpeaker(log[..|log| - 1])
  }

  function NotBy(raises: seq<Event>, last: string): (others: seq<Event>)
    ensures forall e :: e in others <==> e in raises && e.from != last
  {
    if raises == [] then []
    else (if raises[0].from == last then [] else [raises[0]]) + NotBy(raises[1..], last)
  }

  /** The running best; `raise` is `None` until some raise has beaten the floor. */
  datatype Best = Best(raise: Option<Event>, score: int)

  function MemberOf(best: Best): string {
    if best.raise.Some? then best.raise.value.from else ""
  }

  function Better(log: Log, best: Best, raise: Event): Best {
    var score := Score(log, raise);
    if score > best.score || (score == best.score && Less(raise.from, MemberOf(best))) then Best(Some(raise), score) else best
  }

  function BestOf(log: Log, raises: seq<Event>): Best {
    if raises == [] then Best(None, FLOOR) else Better(log, BestOf(log, raises[..|raises| - 1]), raises[|raises| - 1])
  }

  function LatestRaiser(meta: Metadata, log: Log, turn: int): string {
    if log == [] then ""
    else
      var e := log[|log| - 1];
      if e.typ == HandRaise && e.payload.turn == turn && CouncilMember(meta, e.from) then e.from
      else LatestRaiser(meta, log[..|log| - 1], turn)
  }

  predicate QualityAware(policy: Quality) {
    policy.mode == QualityWarn || policy.mode == QualityRequired
  }

  datatype Choice = Choice(member: string, score: int, intent: string, targets: seq<Target>)

  function ChoiceFrom(log: Log, best: Best): Choice {
    match best.raise
    case None => Choice("", best.score, "", [])
    case Some(raise) =>
      var links := ParseLinks(log, raise.payload.graph.targetLinks, false);
      Choice(raise.from, best.score, Trim(raise.payload.window.intent), if links.Ok? then links.value else [])
  }

  /** Without a quality policy: the latest raiser of the turn, or else the first member. */
  function CompatibilityChoice(meta: Metadata, log: Log): Choice {
    var raiser := LatestRaiser(meta, log, CurrentTurn(log));
    var member := if raiser != "" then raiser
                  else if CouncilMembers(meta) != [] then CouncilMembers(meta)[0] else "";
    Choice(member, 0, "", [])
  }

  function AutoChoice(meta: Metadata, log: Log): Result<Choice> {
    match ResolvePolicy(meta)
    case Err(error) => Err(error)
    case Ok(policy) =>
      if !QualityAware(policy) then Ok(CompatibilityChoice(meta, log))
      else
        var raises := EligibleRaises(meta, log, CurrentTurn(log));
        var others := NotBy(raises, LatestSpeaker(log));
        if raises == [] then Err(Conflict("hand_raise"))
        else if others == [] then Err(Conflict("speaker_selected"))
        else Ok(ChoiceFrom(log, BestOf(log, others)))
  }

  method SelectBest(log: Log, raises: seq<Event>) returns (best: Best)
    ensures best == BestOf(log, raises)
  {
    best := Best(None, FLOOR);
    for i := 0 to |raises|
      invariant best == BestOf(log, raises[..i])
    {
      assert raises[..i + 1][..i] == raises[..i];
      var score := Score(log, raises[i]);
      if score > best.score || (score == best.score && Less(raises[i].from, MemberOf(best))) {
        best := Best(Some(raises[i]), score);
      }
    }
    assert raises[..|raises|] == raises;
  }

  method AutoCouncilSpeaker(meta: Metadata, log: Log) returns (r: Result<Choice>)
    ensures r == AutoChoice(meta, log)
  {
    var policy := ResolvePolicy(meta);
    if policy.Err? {
      return Err(policy.error);
    }
    if !QualityAware(policy.value) {
      return Ok(CompatibilityChoice(meta, log));
    }
    var turn := ScanCurrentTurn(log);
    var raises := EligibleRaises(meta, log, turn);
    if raises == [] {
      return Err(Conflict("hand_raise"));
    }
    var others := NotBy(raises, LatestSpeaker(log));
    if others == [] {
      return Err(Conflict("speaker_selected"));
    }
    var best := SelectBest(log, others);
    return Ok(ChoiceFrom(log, best));
  }

  // ---- What the selection means ----------------------------------------------------------

  /** The best raise: none scores higher, and among equals none has a smaller id. */
  ghost predicate IsBest(log: Log, raises: seq<Event>, best: Event) {
    && best in raises
    && forall r :: r in raises ==>
         Score(log, r) <= Score(log, best) && (Score(log, r) == Score(log, best) ==> !Less(r.from, best.from))
  }

  /** Selection picks the best raise exactly when some raise scores above the floor; when none
      does, it names nobody. */
  lemma {:induction false} BestOfIsBest(log: Log, raises: seq<Event>)
    ensures var best := BestOf(log, raises);
            if exists r :: r in raises && Score(log, r) > FLOOR
            then best.raise.Some? && IsBest(log, raises, best.raise.value) && best.score == Score(log, best.raise.value)
            else best == Best(None, FLOOR)
  {
    if raises != [] {
      var init, last := raises[..|raises| - 1], raises[|raises| - 1];
      BestOfIsBest(log, init);
      assert raises == init + [last];
      var before, best := BestOf(log, init), BestOf(log, raises);
      assert forall r :: r in raises <==> r in init || r == last;
      if before.raise.Some? {
        var b := before.raise.value;
        LessTrichotomy(last.from, b.from);
        LessTrichotomy(last.from, last.from);
        if best != before {
          forall r | r in init && Score(log, r) == Score(log, last) ensures !Less(r.from, last.from) {
            if Less(r.from, last.from) {
              LessTransitive(r.from, last.from, b.from);
            }
          }
        }
      } else {
        LessTrichotomy(last.from, last.from);
      }
    }
  }

  /** The chosen member and score do not depend on the order in which raises were recorded. */
  lemma SelectionOrderIndependent(log: Log, raises: seq<Event>, shuffled: seq<Event>)
    requires multiset(raises) == multiset(shuffled)
    ensures MemberOf(BestOf(log, raises)) == MemberOf(BestOf(log, shuffled))
    ensures BestOf(log, raises).score == BestOf(log, shuffled).score
  {
    BestOfIsBest(log, raises);
    BestOfIsBest(log, shuffled);
    assert forall r :: r in raises <==> r in multiset(raises);
    assert forall r :: r in shuffled <==> r in multiset(shuffled);
    var a, b := BestOf(log, raises), BestOf(log, shuffled);
    if a.raise.Some? {
      var r :| r in raises && Score(log, r) > FLOOR;
      assert r in shuffled;
      LessTrichotomy(a.raise.value.from, b.raise.value.from);
    }
  }

  /** The raises that a quality-aware selection chooses among. */
  function Candidates(meta: Metadata, log: Log): (raises: seq<Event>)
    ensures forall r :: r in raises <==> r in log && Eligible(meta, CurrentTurn(log), r) && r.from != LatestSpeaker(log)
  {
    NotBy(EligibleRaises(meta, log, CurrentTurn(log)), LatestSpeaker(log))
  }

  /** In the quality-aware modes a successful selection names a member with an eligible raise in
      the current turn who did not speak last, with the best score among all such raises. The one
      exception: when every candidate scores at or below the floor it names nobody. */
  lemma QualityAwareSelection(meta: Metadata, log: Log)
    requires AutoChoice(meta, log).Ok? && QualityAware(ResolvePolicy(meta).value)
    ensures var choice, candidates := AutoChoice(meta, log).value, Candidates(meta, log);
            if exists r :: r in candidates && Score(log, r) > FLOOR
            then exists r :: IsBest(log, candidates, r) && choice.member == r.from && choice.score == Score(log, r)
            else choice.member == "" && choice.score == FLOOR
  {
    BestOfIsBest(log, Candidates(meta, log));
  }
}
