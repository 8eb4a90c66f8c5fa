/** The log scans on which council decisions rest: a specification for each, and the loop. */
module Scans {
  import opened Prelude
  import opened Text
  import opened Events
  import opened Channel

  const SECOND: int := 1_000_000_000
  const DEFAULT_WINDOW_SEC: int := 120

  // ---- Running maxima --------------------------------------------------------------------

  function TurnOf(e: Event): int {
    Max(if e.turn.Some? then e.turn.value else 0, e.payload.turn)
  }

  function CurrentTurn(log: Log): (turn: int)
    ensures turn >= 0
    ensures forall i :: 0 <= i < |log| ==> TurnOf(log[i]) <= turn
  {
    if log == [] then 0 else Max(CurrentTurn(log[..|log| - 1]), TurnOf(log[|log| - 1]))
  }

  function DraftOf(e: Event): int {
    if e.typ == DraftRecorded then e.payload.council.draftVersion else 0
  }

  function LatestDraft(log: Log): (version: int)
    ensures version >= 0
    ensures forall i :: 0 <= i < |log| ==> DraftOf(log[i]) <= version
  {
    if log == [] then 0 else Max(LatestDraft(log[..|log| - 1]), DraftOf(log[|log| - 1]))
  }

  function LatestRound(log: Log): (round: int)
    ensures round >= 0
    ensures forall i :: 0 <= i < |log| ==> log[i].payload.council.consensusRound <= round
  {
    if log == [] then 0 else Max(LatestRound(log[..|log| - 1]), log[|log| - 1].payload.council.consensusRound)
  }

  method ScanCurrentTurn(log: Log) returns (turn: int)
    ensures turn == CurrentTurn(log)
  {
    turn := 0;
    for i := 0 to |log|
      invariant turn == CurrentTurn(log[..i])
    {
      assert log[..i + 1][..i] == log[..i];
      if log[i].turn.Some? && log[i].turn.value > turn {
        turn := log[i].turn.value;
      }
      if log[i].payload.turn > turn {
        turn := log[i].payload.turn;
      }
    }
    assert log[..|log|] == log;
  }

  method ScanLatestDraft(log: Log) returns (version: int)
    ensures version == LatestDraft(log)
  {
    version := 0;
    for i := 0 to |log|
      invariant version == LatestDraft(log[..i])
    {
      assert log[..i + 1][..i] == log[..i];
      if log[i].typ == DraftRecorded && log[i].payload.council.draftVersion > version {
        version := log[i].payload.council.draftVersion;
      }
    }
    assert log[..|log|] == log;
  }

  method ScanLatestRound(log: Log) returns (round: int)
    ensures round == LatestRound(log)
  {
    round := 0;
    for i := 0 to |log|
      invariant round == LatestRound(log[..i])
    {
      assert log[..i + 1][..i] == log[..i];
      if log[i].payload.council.consensusRound > round {
        round := log[i].payload.council.consensusRound;
      }
    }
    assert log[..|log|] == log;
  }

  // ---- Votes -----------------------------------------------------------------------------

  /** Draft and round of the vote request that is open: the latest one with no draft after it. */
  function OpenVote(log: Log): Option<(int, int)> {
    if log == [] then None
    else
      var e := log[|log| - 1];
      if e.typ == VoteRequested then Some((e.payload.council.draftVersion, e.payload.council.consensusRound))
      else if e.typ == DraftRecorded then None
      else OpenVote(log[..|log| - 1])
  }

  predicate IsVote(e: Event, draft: int, round: int) {
    e.typ == VoteCast && e.payload.council.draftVersion == draft && e.payload.council.consensusRound == round
  }

  predicate Voted(log: Log, member: string, draft: int, round: int) {
    exists i :: 0 <= i < |log| && IsVote(log[i], draft, round) && log[i].from == member
  }

  /** The vote that a member's last ballot in this round records. */
  function VoteOf(log: Log, member: string, draft: int, round: int): (vote: Vote)
    ensures vote != NoVote ==> Voted(log, member, draft, round)
  {
    if log == [] then NoVote
    else
      var e := log[|log| - 1];
      if IsVote(e, draft, round) && e.from == member then e.payload.council.vote
      else VoteOf(log[..|log| - 1], member, draft, round)
  }

  predicate HasBlockVote(log: Log) {
    exists i :: 0 <= i < |log| && log[i].typ == VoteCast && log[i].payload.council.vote == BlockVote
  }

  method ScanOpenVote(log: Log) returns (open: Option<(int, int)>)
    ensures open == OpenVote(log)
  {
    var i := |log|;
    assert log[..i] == log;
    while i > 0
      invariant 0 <= i <= |log|
      invariant OpenVote(log) == OpenVote(log[..i])
    {
      i := i - 1;
      assert log[..i + 1][..i] == log[..i];
      var e := log[i];
      if e.typ == VoteRequested {
        return Some((e.payload.council.draftVersion, e.payload.council.consensusRound));
      }
      if e.typ == DraftRecorded {
        return None;
      }
    }
    return None;
  }

  method ScanVoted(log: Log, member: string, draft: int, round: int) returns (found: bool)
    ensures found == Voted(log, member, draft, round)
  {
    for i := 0 to |log|
      invariant !exists k :: 0 <= k < i && IsVote(log[k], draft, round) && log[k].from == member
    {
      if IsVote(log[i], draft, round) && log[i].from == member {
        return true;
      }
    }
    return false;
  }

  method ScanBlockVote(log: Log) returns (found: bool)
    ensures found == HasBlockVote(log)
  {
    for i := 0 to |log|
      invariant !exists k :: 0 <= k < i && log[k].typ == VoteCast && log[k].payload.council.vote == BlockVote
    {
      if log[i].typ == VoteCast && log[i].payload.council.vote == BlockVote {
        return true;
      }
    }
    return false;
  }

  /** Tallies the ballots of one round into a map, later ballots replacing earlier ones. */
  method TallyVotes(log: Log, draft: int, round: int) returns (votes: map<string, Vote>)
    ensures forall m :: (if m in votes then votes[m] else NoVote) == VoteOf(log, m, draft, round)
  {
    votes := map[];
    for i := 0 to |log|
      invariant forall m :: (if m in votes then votes[m] else NoVote) == VoteOf(log[..i], m, draft, round)
    {
      assert log[..i + 1][..i] == log[..i];
      if IsVote(log[i], draft, round) {
        votes := votes[log[i].from := log[i].payload.council.vote];
      }
    }
    assert log[..|log|] == log;
  }

  // ---- Raises, drops and grants ----------------------------------------------------------

  predicate IsGrant(e: Event, member: string, turn: int) {
    e.typ == SpeakerSelected && e.payload.turn == turn && (e.payload.member == member || e.to == [member])
  }

  predicate Granted(log: Log, member: string, turn: int) {
    exists i :: 0 <= i < |log| && IsGrant(log[i], member, turn)
  }

  predicate IsRaiseBy(e: Event, member: string, turn: int) {
    e.typ == HandRaise && e.payload.turn == turn && Trim(e.from) == Trim(member)
  }

  function StanceOf(e: Event): string {
    if !Blank(e.payload.window.intent) then Trim(e.payload.window.intent) else Trim(e.payload.reason)
  }

  /** The trimmed intent, or else reason, of the member's latest raise in a turn. */
  function RaiseStance(log: Log, member: string, turn: int): string {
    if log == [] then ""
    else if IsRaiseBy(log[|log| - 1], member, turn) then StanceOf(log[|log| - 1])
    else RaiseStance(log[..|log| - 1], member, turn)
  }

  predicate IsResponse(e: Event, turn: int) {
    (e.typ == HandRaise || e.typ == HandRaiseDropped) && e.payload.turn == turn
  }

  /** Does `e` stand in the way of a new raise or drop of this member and turn? */
  predicate Conflicts(e: Event, commandId: string, member: string, turn: int, typ: EventType) {
    && IsResponse(e, turn)
    && !(e.commandId != "" && commandId != "" && e.commandId == commandId && e.typ == typ)
    && Trim(e.from) == Trim(member)
    && !(typ == HandRaise && e.typ != HandRaiseDropped)
  }

  predicate ResponseConflict(log: Log, commandId: string, member: string, turn: int, typ: EventType) {
    exists i :: 0 <= i < |log| && Conflicts(log[i], commandId, member, turn, typ)
  }

  predicate SameCommandType(log: Log, commandId: string, typ: EventType) {
    Trim(commandId) != "" && exists i :: 0 <= i < |log| && log[i].commandId == Trim(commandId) && log[i].typ == typ
  }

  method ScanGranted(log: Log, member: string, turn: int) returns (found: bool)
    ensures found == Granted(log, member, turn)
  {
    for i := 0 to |log|
      invariant !exists k :: 0 <= k < i && IsGrant(log[k], member, turn)
    {
      if IsGrant(log[i], member, turn) {
        return true;
      }
    }
    return false;
  }

  method ScanRaiseStance(log: Log, member: string, turn: int) returns (stance: string)
    ensures stance == RaiseStance(log, member, turn)
  {
    var i := |log|;
    assert log[..i] == log;
    while i > 0
      invariant 0 <= i <= |log|
      invariant RaiseStance(log, member, turn) == RaiseStance(log[..i], member, turn)
    {
      i := i - 1;
      assert log[..i + 1][..i] == log[..i];
      if IsRaiseBy(log[i], member, turn) {
        return StanceOf(log[i]);
      }
    }
    return "";
  }

  method ScanResponseConflict(log: Log, commandId: string, member: string, turn: int, typ: EventType)
    returns (found: bool)
    ensures found == ResponseConflict(log, commandId, member, turn, typ)
  {
    for i := 0 to |log|
      invariant !exists k :: 0 <= k < i && Conflicts(log[k], commandId, member, turn, typ)
    {
      if Conflicts(log[i], commandId, member, turn, typ) {
        return true;
      }
    }
    return false;
  }

  method ScanSameCommandType(log: Log, commandId: string, typ: EventType) returns (found: bool)
    ensures found == SameCommandType(log, commandId, typ)
  {
    var id := Trim(commandId);
    if id == "" {
      return false;
    }
    for i := 0 to |log|
      invariant !exists k :: 0 <= k < i && log[k].commandId == id && log[k].typ == typ
    {
      if log[i].commandId == id && log[i].typ == typ {
        return true;
      }
    }
    return false;
  }

  // ---- Response windows ------------------------------------------------------------------

  datatype Window = Window(eventId: string, id: string, openedAt: int, deadline: int, durationSec: int, required: seq<string>)

  function WindowOf(e: Event): Window {
    var keys := e.payload.window;
    var openedAt := if keys.openedAt.Some? then keys.openedAt.value else e.createdAt;
    var duration := if keys.durationSec <= 0 then DEFAULT_WINDOW_SEC else keys.durationSec;
    var deadline := if keys.deadlineAt.Some? then keys.deadlineAt.value else openedAt + duration * SECOND;
    Window(e.id, keys.windowId, openedAt, deadline, duration, if keys.required == [] then e.to else keys.required)
  }

  predicate OpensWindow(e: Event, turn: int) {
    e.typ == HandRaiseRequested && e.payload.turn == turn
  }

  /** The latest request for hand raises in a turn. */
  function LatestWindow(log: Log, turn: int): Option<Window> {
    if log == [] then None
    else if OpensWindow(log[|log| - 1], turn) then Some(WindowOf(log[|log| - 1]))
    else LatestWindow(log[..|log| - 1], turn)
  }

  /** Who a raise or drop answers for: a drop may name the member, a daemon's timeout drop does. */
  function Responder(e: Event): string {
    if e.typ == HandRaiseDropped && !Blank(e.payload.member) then Trim(e.payload.member) else Trim(e.from)
  }

  /** Everyone who has answered the turn, in any of its windows. */
  function Responders(log: Log, turn: int): set<string> {
    if log == [] then {}
    else
      var earlier, e := Responders(log[..|log| - 1], turn), log[|log| - 1];
      if IsResponse(e, turn) && Responder(e) != "" then earlier + {Responder(e)} else earlier
  }

  function AutoDrops(log: Log, turn: int): nat {
    if log == [] then 0
    else
      var earlier, e := AutoDrops(log[..|log| - 1], turn), log[|log| - 1];
      if IsResponse(e, turn) && Responder(e) != "" && e.typ == HandRaiseDropped && e.payload.window.auto
      then earlier + 1 else earlier
  }

  /** The members of `required` outside `responded`, in order. */
  function MissingFrom(required: seq<string>, responded: set<string>): (missing: seq<string>)
    ensures forall m :: m in missing <==> m in required && m !in responded
    ensures |missing| <= |required|
  {
    if required == [] then []
    else
      var rest := MissingFrom(required[1..], responded);
      if required[0] in responded then rest else [required[0]] + rest
  }

  datatype WindowState = WindowOpen | ClosedByResponses | ClosedByTimeout

  datatype WindowReport =
    | NotConfigured
    | WindowReport(window: Window, state: WindowState, required: seq<string>, responded: set<string>,
                   missing: seq<string>, autoDrops: nat)

  /** `fallback` are the required members to assume when the request names none. */
  function WindowAccounting(fallback: seq<string>, log: Log, now: int, turn: int): WindowReport {
    var window := LatestWindow(log, turn);
    if turn <= 0 || window == None then NotConfigured
    else
      var required := if window.value.required == [] then fallback else window.value.required;
      var responded := Responders(log, turn);
      var missing := MissingFrom(required, responded);
      var autoDrops := AutoDrops(log, turn);
      var state := if required != [] && missing == [] then
                     if autoDrops > 0 then ClosedByTimeout else ClosedByResponses
                   else if now > window.value.deadline then ClosedByTimeout
                   else WindowOpen;
      WindowReport(window.value, state, required, responded, missing, autoDrops)
  }

  /** Does the turn's window still take a participant's answer at this time? */
  predicate WindowAccepts(log: Log, turn: int, now: int) {
    var window := LatestWindow(log, turn);
    turn <= 0 || window == None
    || (now <= window.value.deadline && WindowAccounting([], log, now, turn).state == WindowOpen)
  }

  method ScanLatestWindow(log: Log, turn: int) returns (window: Option<Window>)
    ensures window == LatestWindow(log, turn)
  {
    var i := |log|;
    assert log[..i] == log;
    while i > 0
      invariant 0 <= i <= |log|
      invariant LatestWindow(log, turn) == LatestWindow(log[..i], turn)
    {
      i := i - 1;
      assert log[..i + 1][..i] == log[..i];
      if OpensWindow(log[i], turn) {
        return Some(WindowOf(log[i]));
      }
    }
    return None;
  }

  method AccountWindow(fallback: seq<string>, log: Log, now: int, turn: int) returns (report: WindowReport)
    ensures report == WindowAccounting(fallback, log, now, turn)
  {
    if turn <= 0 {
      return NotConfigured;
    }
    var window := ScanLatestWindow(log, turn);
    if window == None {
      return NotConfigured;
    }
    var required := if window.value.required == [] then fallback else window.value.required;
    var responded: set<string>, autoDrops: nat := {}, 0;
    for i := 0 to |log|
      invariant responded == Responders(log[..i], turn) && autoDrops == AutoDrops(log[..i], turn)
    {
      assert log[..i + 1][..i] == log[..i];
      var e := log[i];
      if IsResponse(e, turn) {
        var member := Responder(e);
        if member != "" {
          if e.typ == HandRaiseDropped && e.payload.window.auto {
            autoDrops := autoDrops + 1;
          }
          responded := responded + {member};
        }
      }
    }
    assert log[..|log|] == log;
    var missing := MissingFrom(required, responded);
    var state := WindowOpen;
    if required != [] && missing == [] {
      state := if autoDrops > 0 then ClosedByTimeout else ClosedByResponses;
    } else if now > window.value.deadline {
      state := ClosedByTimeout;
    }
    return WindowReport(window.value, state, required, responded, missing, autoDrops);
  }

  // ---- Attendance and agenda -------------------------------------------------------------

  datatype Attendance = Attendance(requested: bool, attended: set<string>, agendaAfter: bool)

  function AttendanceStep(meta: Metadata, a: Attendance, e: Event): Attendance {
    match e.typ
    case AttendanceRequested => a.(requested := true)
    case MemberAttended =>
      var member := if e.payload.member == "" then e.from else e.payload.member;
      if a.requested && CouncilMember(meta, member)
         && e.payload.council.status in {PresentMember, Partial, Unavailable, NoResponseTimeout}
      then a.(attended := a.attended + {member}) else a
    case AgendaLocked =>
      if a.requested && MissingFrom(CouncilMembers(meta), a.attended) == [] then a.(agendaAfter := true) else a
    case _ => a
  }

  function AttendanceOf(meta: Metadata, log: Log): Attendance {
    if log == [] then Attendance(false, {}, false)
    else AttendanceStep(meta, AttendanceOf(meta, log[..|log| - 1]), log[|log| - 1])
  }

  /** A council bound to a Discord thread starts only after attendance and then an agenda. */
  predicate MayPrepare(meta: Metadata, log: Log) {
    DiscordThread(meta) ==>
      var a := AttendanceOf(meta, log);
      a.requested && MissingFrom(CouncilMembers(meta), a.attended) == [] && a.agendaAfter
  }

  method CheckAttendance(meta: Metadata, log: Log) returns (ok: bool)
    ensures ok == MayPrepare(meta, log)
  {
    if !DiscordThread(meta) {
      return true;
    }
    var a := Attendance(false, {}, false);
    for i := 0 to |log|
      invariant a == AttendanceOf(meta, log[..i])
    {
      assert log[..i + 1][..i] == log[..i];
      a := AttendanceStep(meta, a, log[i]);
    }
    assert log[..|log|] == log;
    return a.requested && MissingFrom(CouncilMembers(meta), a.attended) == [] && a.agendaAfter;
  }

  // ---- Visible echoes --------------------------------------------------------------------

  predicate PostedByRunner(e: Event, actor: string, turn: int) {
    && e.typ == Speech && Trim(e.from) == Trim(actor) && EventTurn(e) == turn
    && e.runner.Some? && !Blank(e.runner.value.invocationId)
    && |e.payload.runner.deliveries| > 0 && e.payload.runner.deliveries[0].OneDelivery?
    && Trim(e.payload.runner.deliveries[0].one.status) == "posted"
    && Trim(e.payload.runner.deliveries[0].one.postingPath) == "selected_member_profile_send"
  }

  predicate AlreadyPosted(log: Log, actor: string, turn: int) {
    exists i :: 0 <= i < |log| && PostedByRunner(log[i], actor, turn)
  }

  method ScanAlreadyPosted(log: Log, actor: string, turn: int) returns (found: bool)
    ensures found == AlreadyPosted(log, actor, turn)
  {
    for i := 0 to |log|
      invariant !exists k :: 0 <= k < i && PostedByRunner(log[k], actor, turn)
    {
      if PostedByRunner(log[i], actor, turn) {
        return true;
      }
    }
    return false;
  }
}
