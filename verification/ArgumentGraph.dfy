/** The argument graph: what the speak command demands of a speech, and how the status reader
    later judges the whole log. */
module ArgumentGraph {
  import opened Prelude
  import opened Text
  import opened Events
  import opened Channel

  // ---- Policy ----------------------------------------------------------------------------

  function ResolvePolicy(meta: Metadata): Result<Quality> {
    match meta.quality
    case None => Ok(Quality(Compatibility, 1, false, false, true, 1))
    case Some(q) =>
      if q.mode == UnsupportedMode then Err(Invalid("limits.council.discussion_quality.mode"))
      else if q.openingUnlinkedTurns < 0 || q.maxConsecutiveNewAxis < 0 then Err(Invalid("limits.council.discussion_quality"))
      else Ok(q.(openingUnlinkedTurns := if q.openingUnlinkedTurns == 0 then 1 else q.openingUnlinkedTurns,
                 maxConsecutiveNewAxis := if q.maxConsecutiveNewAxis == 0 then 1 else q.maxConsecutiveNewAxis))
  }

  // ---- Claims and links ------------------------------------------------------------------

  predicate KnownStance(stance: string) {
    stance in {"support", "challenge", "refine", "extend", "synthesize", "question", "risk_addition", "decision_frame"}
  }

  const NEW_AXIS := "new_axis"

  predicate KnownContribution(contribution: string) {
    KnownStance(contribution) || contribution == NEW_AXIS
  }

  predicate KnownClaimKind(kind: string) {
    kind in {"observation", "requirement", "risk", "decision_frame", "evidence", "open_question", "proposal"}
  }

  /** The trimmed ids of a claim list, unless some claim is malformed or repeats an id. */
  function ClaimIds(items: seq<Claim>): Result<set<string>> {
    if items == [] then Ok({})
    else
      match ClaimIds(items[..|items| - 1])
      case Err(error) => Err(error)
      case Ok(seen) =>
        var claim := items[|items| - 1];
        if Blank(claim.id) || Trim(claim.id) in seen || Blank(claim.summary)
           || (!Blank(claim.kind) && !KnownClaimKind(Trim(claim.kind)))
        then Err(Invalid("claims"))
        else Ok(seen + {Trim(claim.id)})
  }

  function ParseClaims(field: Field<seq<Claim>>): Result<Option<set<string>>> {
    match field
    case Absent => Ok(None)
    case Malformed => Err(Invalid("claims"))
    case Present(items) =>
      match ClaimIds(items)
      case Err(error) => Err(error)
      case Ok(ids) => Ok(Some(ids))
  }

  datatype Target = Target(eventId: string, claimId: string, stance: string)

  /** A link must name an earlier speech and, when that speech has claims, one of them. */
  function ParseLink(log: Log, link: Link, needsRationale: bool): Result<Target> {
    var eventId, claimId, stance := Trim(link.targetEventId), Trim(link.targetClaimId), Trim(link.stance);
    if eventId == "" then Err(Invalid("target_event_id"))
    else if !KnownStance(stance) then Err(Invalid("stance"))
    else
      var target := EventById(log, eventId);
      if target == None || target.value.typ != Speech then Err(Invalid("target_event_id"))
      else
        match ParseClaims(target.value.payload.graph.claims)
        case Err(_) => Err(Invalid("target_event_id"))
        case Ok(claims) =>
          if claims.Some? && (claimId == "" || claimId !in claims.value) then Err(Invalid("target_claim_id"))
          else if needsRationale && Blank(link.rationale) then Err(Invalid("rationale"))
          else Ok(Target(eventId, claimId, stance))
  }

  function ParseLinkList(log: Log, items: seq<Link>, needsRationale: bool): (r: Result<seq<Target>>)
    ensures r.Ok? ==> |r.value| == |items|
  {
    if items == [] then Ok([])
    else
      match ParseLinkList(log, items[..|items| - 1], needsRationale)
      case Err(error) => Err(error)
      case Ok(targets) =>
        match ParseLink(log, items[|items| - 1], needsRationale)
        case Err(error) => Err(error)
        case Ok(target) => Ok(targets + [target])
  }

  function ParseLinks(log: Log, field: Field<seq<Link>>, needsRationale: bool): Result<seq<Target>> {
    match field
    case Absent => Ok([])
    case Malformed => Err(Invalid("links"))
    case Present(items) => ParseLinkList(log, items, needsRationale)
  }

  lemma {:induction false} ParseFailsEarly(log: Log, items: seq<Link>, needsRationale: bool, n: nat)
    requires n <= |items| && ParseLinkList(log, items[..n], needsRationale).Err?
    ensures ParseLinkList(log, items, needsRationale) == ParseLinkList(log, items[..n], needsRationale)
  {
    if n < |items| {
      assert items[..|items| - 1][..n] == items[..n];
      ParseFailsEarly(log, items[..|items| - 1], needsRationale, n);
    } else {
      assert items[..n] == items;
    }
  }

  method ParseArgumentTargetLinks(log: Log, field: Field<seq<Link>>, needsRationale: bool)
    returns (r: Result<seq<Target>>)
    ensures r == ParseLinks(log, field, needsRationale)
  {
    if field == Absent {
      return Ok([]);
    }
    if field == Malformed {
      return Err(Invalid("links"));
    }
    var items, out := field.value, [];
    for i := 0 to |items|
      invariant ParseLinkList(log, items[..i], needsRationale) == Ok(out)
    {
      assert items[..i + 1][..i] == items[..i];
      var parsed := ParseLink(log, items[i], needsRationale);
      if parsed.Err? {
        ParseFailsEarly(log, items, needsRationale, i + 1);
        return Err(parsed.error);
      }
      out := out + [parsed.value];
    }
    assert items[..|items|] == items;
    return Ok(out);
  }

  lemma ParseLinkExtends(log: Log, longer: Log, link: Link, needsRationale: bool)
    requires log <= longer && ParseLink(log, link, needsRationale).Ok?
    ensures ParseLink(longer, link, false) == ParseLink(longer, link, needsRationale) == ParseLink(log, link, needsRationale)
  {
    EventByIdExtends(log, longer, Trim(link.targetEventId));
  }

  /** What parses against a log parses to the same targets against every extension of it, with or
      without the demand for a rationale. */
  lemma {:induction false} ParseListExtends(log: Log, longer: Log, items: seq<Link>, needsRationale: bool)
    requires log <= longer && ParseLinkList(log, items, needsRationale).Ok?
    ensures ParseLinkList(longer, items, false) == ParseLinkList(longer, items, needsRationale)
            == ParseLinkList(log, items, needsRationale)
  {
    if items != [] {
      ParseListExtends(log, longer, items[..|items| - 1], needsRationale);
      ParseLinkExtends(log, longer, items[|items| - 1], needsRationale);
    }
  }

  lemma ParseExtends(log: Log, longer: Log, field: Field<seq<Link>>, needsRationale: bool)
    requires log <= longer && ParseLinks(log, field, needsRationale).Ok?
    ensures ParseLinks(longer, field, false) == ParseLinks(longer, field, needsRationale)
            == ParseLinks(log, field, needsRationale)
  {
    if field.Present? {
      ParseListExtends(log, longer, field.value, needsRationale);
    }
  }

  // ---- Facts about the log ---------------------------------------------------------------

  function PriorSpeeches(log: Log): nat {
    if log == [] then 0
    else PriorSpeeches(log[..|log| - 1]) + if log[|log| - 1].typ == Speech then 1 else 0
  }

  function ContributionText(e: Event): string {
    match e.payload.graph.contribution
    case Present(text) => text
    case _ => ""
  }

  /** How many of the latest speeches in a row opened a new axis. */
  function ConsecutiveNewAxis(log: Log): nat {
    if log == [] then 0
    else
      var e := log[|log| - 1];
      if e.typ != Speech then ConsecutiveNewAxis(log[..|log| - 1])
      else if ContributionText(e) != NEW_AXIS then 0
      else ConsecutiveNewAxis(log[..|log| - 1]) + 1
  }

  predicate Selects(e: Event, turn: int, actor: string) {
    e.typ == SpeakerSelected && e.payload.turn == turn &&
    (if e.payload.member == "" && |e.to| == 1 then e.to[0] else e.payload.member) == actor
  }

  /** The latest grant to the actor in a turn. */
  function SelectionOf(log: Log, turn: int, actor: string): Option<Event> {
    if log == [] then None
    else if Selects(log[|log| - 1], turn, actor) then Some(log[|log| - 1])
    else SelectionOf(log[..|log| - 1], turn, actor)
  }

  /** The claims a speech reaches, by claim id and by event and claim id. */
  function Reached(links: seq<Target>): set<string> {
    (set t | t in links && t.claimId != "" :: t.claimId)
    + set t | t in links && t.claimId != "" :: t.eventId + "/" + t.claimId
  }

  function Omitted(required: seq<string>, reached: set<string>): (missing: seq<string>)
    ensures forall t :: t in missing <==> t in required && t !in reached
  {
    if required == [] then []
    else (if required[0] in reached then [] else [required[0]]) + Omitted(required[1..], reached)
  }

  function OmittedNeed(selection: Option<Event>, links: seq<Target>): seq<string> {
    if selection == None then [] else Omitted(selection.value.payload.graph.needTargets, Reached(links))
  }

  method CountPriorSpeeches(log: Log) returns (count: nat)
    ensures count == PriorSpeeches(log)
  {
    count := 0;
    for i := 0 to |log|
      invariant count == PriorSpeeches(log[..i])
    {
      assert log[..i + 1][..i] == log[..i];
      if log[i].typ == Speech {
        count := count + 1;
      }
    }
    assert log[..|log|] == log;
  }

  method CountConsecutiveNewAxis(log: Log) returns (count: nat)
    ensures count == ConsecutiveNewAxis(log)
  {
    count := 0;
    var i := |log|;
    assert log[..i] == log;
    while i > 0
      invariant 0 <= i <= |log|
      invariant ConsecutiveNewAxis(log) == count + ConsecutiveNewAxis(log[..i])
    {
      i := i - 1;
      assert log[..i + 1][..i] == log[..i];
      if log[i].typ == Speech {
        if ContributionText(log[i]) != NEW_AXIS {
          return;
        }
        count := count + 1;
      }
    }
  }

  method FindSelection(log: Log, turn: int, actor: string) returns (found: Option<Event>)
    ensures found == SelectionOf(log, turn, actor)
  {
    var i := |log|;
    assert log[..i] == log;
    while i > 0
      invariant 0 <= i <= |log|
      invariant SelectionOf(log, turn, actor) == SelectionOf(log[..i], turn, actor)
    {
      i := i - 1;
      assert log[..i + 1][..i] == log[..i];
      if Selects(log[i], turn, actor) {
        return Some(log[i]);
      }
    }
    return None;
  }

  // ---- The write-time judgement ----------------------------------------------------------

  function ParseContribution(field: Field<string>): Result<Option<string>> {
    match field
    case Absent => Ok(None)
    case Malformed => Err(Invalid("contribution_type"))
    case Present(text) => if KnownContribution(Trim(text)) then Ok(Some(Trim(text))) else Err(Invalid("contribution_type"))
  }

  /** What the warn mode notes on a speech instead of refusing it. */
  function Diagnose(priorSpeeches: nat, newAxisRun: nat, selection: Option<Event>, payload: Payload,
                    contribution: Option<string>, links: seq<Target>): seq<Diagnostic> {
    var isNewAxis := contribution == Some(NEW_AXIS);
    var omitted := OmittedNeed(selection, links);
    (if priorSpeeches >= 1 && links == [] && (!isNewAxis || Blank(payload.graph.newAxisReason))
     then [Diagnostic(OrphanSpeech, 0)] else [])
    + (if isNewAxis && newAxisRun > 0 then [Diagnostic(RepeatedNewAxis, 0)] else [])
    + (if payload.graph.isNoise then [Diagnostic(RuntimeNoise, 0)] else [])
    + if omitted != [] then [Diagnostic(OmittedTargets, |omitted|)] else []
  }

  /** The extra demands of the quality_required mode. */
  function RequiredModeError(policy: Quality, priorSpeeches: nat, newAxisRun: nat, selection: Option<Event>,
                             payload: Payload, claims: Option<set<string>>, contribution: Option<string>,
                             links: seq<Target>): Option<Failure> {
    var afterOpening := priorSpeeches >= policy.openingUnlinkedTurns;
    var isNewAxis := contribution == Some(NEW_AXIS);
    var newAxisAllowed := isNewAxis && !Blank(payload.graph.newAxisReason) && policy.allowNewAxisWithReason;
    if afterOpening && policy.requireClaims && (claims == None || claims.value == {}) then Some(Invalid("claims"))
    else if afterOpening && !newAxisAllowed && links == [] then Some(Invalid("stance_links"))
    else if isNewAxis && newAxisRun + 1 > policy.maxConsecutiveNewAxis
            && !(selection.Some? && (selection.value.payload.graph.hasGraphNeed || selection.value.payload.graph.namesNewAxis))
    then Some(Invalid("contribution_type"))
    else if payload.graph.isNoise then Some(Invalid("speech"))
    else if OmittedNeed(selection, links) != [] then Some(Invalid("stance_links"))
    else None
  }

  /** The decision on a speech, given what the log says: its payload, annotated, or a refusal. */
  function JudgeSpeech(policy: Quality, links: Result<seq<Target>>, priorSpeeches: nat, newAxisRun: nat,
                       selection: Option<Event>, payload: Payload): Result<Payload> {
    match ParseClaims(payload.graph.claims)
    case Err(error) => Err(error)
    case Ok(claims) =>
      match links
      case Err(error) => Err(error)
      case Ok(targets) =>
        match ParseContribution(payload.graph.contribution)
        case Err(error) => Err(error)
        case Ok(contribution) =>
          if contribution == Some("synthesize") && |targets| < 2 then Err(Invalid("contribution_type"))
          else if contribution == Some(NEW_AXIS) && Blank(payload.graph.newAxisReason) then Err(Invalid("new_axis_reason"))
          else if policy.mode == QualityRequired then
            var error := RequiredModeError(policy, priorSpeeches, newAxisRun, selection, payload, claims, contribution, targets);
            if error.Some? then Err(error.value) else Ok(payload)
          else if policy.mode == QualityWarn then
            var notes := Diagnose(priorSpeeches, newAxisRun, selection, payload, contribution, targets);
            Ok(if notes == [] then payload else payload.(graph := payload.graph.(diagnostics := notes)))
          else Ok(payload)
  }

  function SpeechVerdict(meta: Metadata, log: Log, actor: string, turn: int, payload: Payload): Result<Payload> {
    match ResolvePolicy(meta)
    case Err(error) => Err(error)
    case Ok(policy) =>
      JudgeSpeech(policy, ParseLinks(log, payload.graph.stanceLinks, policy.mode == QualityRequired),
                  PriorSpeeches(log), ConsecutiveNewAxis(log), SelectionOf(log, turn, actor), payload)
  }

  method ValidateSpeech(meta: Metadata, log: Log, actor: string, turn: int, payload: Payload) returns (r: Result<Payload>)
    ensures r == SpeechVerdict(meta, log, actor, turn, payload)
  {
    var policy := ResolvePolicy(meta);
    if policy.Err? {
      return Err(policy.error);
    }
    var links := ParseArgumentTargetLinks(log, payload.graph.stanceLinks, policy.value.mode == QualityRequired);
    var priorSpeeches := CountPriorSpeeches(log);
    var newAxisRun := CountConsecutiveNewAxis(log);
    var selection := FindSelection(log, turn, actor);
    return JudgeSpeech(policy.value, links, priorSpeeches, newAxisRun, selection, payload);
  }

  // ---- The status reader -----------------------------------------------------------------

  datatype Relation = Relation(eventId: string, target: Target)

  datatype Judgement = Judgement(
    prior: Log, speeches: nat, openings: nat, linked: nat, echoes: nat,
    orphans: seq<string>, justifiedNewAxis: nat, repeatedNewAxis: nat, priorWasNewAxis: bool,
    relations: seq<Relation>, raiseLinks: nat, invalid: seq<string>)

  const NO_JUDGEMENT := Judgement([], 0, 0, 0, 0, [], 0, 0, false, [], 0, [])

  function RelationsOf(id: string, targets: seq<Target>): (rows: seq<Relation>)
    ensures |rows| == |targets|
    ensures forall i :: 0 <= i < |rows| ==> rows[i] == Relation(id, targets[i])
  {
    seq(|targets|, i requires 0 <= i < |targets| => Relation(id, targets[i]))
  }

  /** The reader compares the contribution text as stored, untrimmed. */
  predicate JustifiedNewAxis(e: Event) {
    ContributionText(e) == NEW_AXIS && !Blank(e.payload.graph.newAxisReason)
  }

  function NoteSpeech(policy: Quality, j: Judgement, e: Event, parsed: Result<seq<Target>>): Judgement {
    var targets := if parsed.Ok? then parsed.value else [];
    var afterOpening := j.speeches >= policy.openingUnlinkedTurns;
    Judgement(
      j.prior + [e], j.speeches + 1,
      if afterOpening then j.openings else j.openings + 1,
      if targets != [] then j.linked + 1 else j.linked,
      j.echoes,
      if afterOpening && targets == [] && !JustifiedNewAxis(e) then j.orphans + [e.id] else j.orphans,
      if JustifiedNewAxis(e) then j.justifiedNewAxis + 1 else j.justifiedNewAxis,
      if JustifiedNewAxis(e) && j.priorWasNewAxis then j.repeatedNewAxis + 1 else j.repeatedNewAxis,
      ContributionText(e) == NEW_AXIS,
      j.relations + RelationsOf(e.id, targets), j.raiseLinks,
      if parsed.Err? then j.invalid + [e.id] else j.invalid)
  }

  function JudgeStep(policy: Quality, echoIds: set<string>, j: Judgement, e: Event): Judgement {
    match e.typ
    case HandRaise =>
      var next := j.(prior := j.prior + [e]);
      (match ParseLinks(j.prior, e.payload.graph.targetLinks, false)
       case Err(_) => next.(invalid := j.invalid + [e.id])
       case Ok(targets) => next.(raiseLinks := j.raiseLinks + |targets|))
    case Speech =>
      if e.id in echoIds then j.(echoes := j.echoes + 1)
      else NoteSpeech(policy, j, e, ParseLinks(j.prior, e.payload.graph.stanceLinks, false))
    case _ => j.(prior := j.prior + [e])
  }

  function Judge(policy: Quality, echoIds: set<string>, log: Log): Judgement {
    if log == [] then NO_JUDGEMENT
    else JudgeStep(policy, echoIds, Judge(policy, echoIds, log[..|log| - 1]), log[|log| - 1])
  }

  method TallySpeech(policy: Quality, before: Judgement, e: Event, parsed: Result<seq<Target>>) returns (j: Judgement)
    ensures j == NoteSpeech(policy, before, e, parsed)
  {
    hide JustifiedNewAxis, ContributionText;
    j := before;
    var afterOpening := j.speeches >= policy.openingUnlinkedTurns;
    j := j.(speeches := j.speeches + 1);
    if !afterOpening {
      j := j.(openings := j.openings + 1);
    }
    var targets := [];
    if parsed.Err? {
      j := j.(invalid := j.invalid + [e.id]);
    } else {
      targets := parsed.value;
    }
    if targets != [] {
      j := j.(linked := j.linked + 1);
    }
    j := j.(relations := j.relations + RelationsOf(e.id, targets));
    var justified := JustifiedNewAxis(e);
    if justified {
      j := j.(justifiedNewAxis := j.justifiedNewAxis + 1);
      if j.priorWasNewAxis {
        j := j.(repeatedNewAxis := j.repeatedNewAxis + 1);
      }
    }
    if afterOpening && targets == [] && !justified {
      j := j.(orphans := j.orphans + [e.id]);
    }
    j := j.(priorWasNewAxis := ContributionText(e) == NEW_AXIS, prior := j.prior + [e]);
  }

  method JudgeEvent(policy: Quality, echoIds: set<string>, before: Judgement, e: Event) returns (j: Judgement)
    ensures j == JudgeStep(policy, echoIds, before, e)
  {
    j := before;
    if e.typ == HandRaise {
      var parsed := ParseArgumentTargetLinks(j.prior, e.payload.graph.targetLinks, false);
      if parsed.Err? {
        j := j.(invalid := j.invalid + [e.id]);
      } else {
        j := j.(raiseLinks := j.raiseLinks + |parsed.value|);
      }
      j := j.(prior := j.prior + [e]);
    } else if e.typ == Speech {
      if e.id in echoIds {
        j := j.(echoes := j.echoes + 1);
      } else {
        var parsed := ParseArgumentTargetLinks(j.prior, e.payload.graph.stanceLinks, false);
        j := TallySpeech(policy, j, e, parsed);
      }
    } else {
      j := j.(prior := j.prior + [e]);
    }
  }

  /** The discussion-quality status: the whole log is judged again, event by event. */
  method DiscussionQuality(policy: Quality, echoIds: set<string>, log: Log) returns (j: Judgement)
    ensures j == Judge(policy, echoIds, log)
  {
    j := NO_JUDGEMENT;
    for i := 0 to |log|
      invariant j == Judge(policy, echoIds, log[..i])
    {
      assert log[..i + 1][..i] == log[..i];
      j := JudgeEvent(policy, echoIds, j, log[i]);
    }
    assert log[..|log|] == log;
  }
}
