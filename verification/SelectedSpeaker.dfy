/** The selected speaker's dispatch: which member is asked, and the validator that holds the
    runner's speech to the council's rules. */
module SelectedSpeaker {
  import opened Prelude
  import opened Text
  import opened Events
  import opened Channel
  import opened Council
  import opened CouncilRuns
  import Dispatch
  import ArgumentGraph
  import Scans

  /** The member that a grant names; payload and recipient must not disagree. */
  function SelectedMemberOf(e: Event): Result<string> {
    var payloadMember := Trim(e.payload.member);
    var toMember := if |e.to| == 1 then Trim(e.to[0]) else "";
    if payloadMember != "" && toMember != "" && payloadMember != toMember then Err(Invalid("member"))
    else Ok(if payloadMember != "" then payloadMember else toMember)
  }

  /** A runner may return its speech under the key `message`. */
  function NormalizeSpeech(p: Payload): Payload {
    if Blank(p.graph.speech) && !Blank(p.message) then p.(graph := p.graph.(speech := p.message)) else p
  }

  function SpeakSpec(member: string, e: Event): CouncilSpec {
    CouncilSpec(Speak, member, e.commandId, "", e.causation, NormalizeSpeech(e.payload), e.createdAt)
  }

  predicate RequiresVisibleDelivery(meta: Metadata) {
    meta.surface.Some? && (Trim(meta.surface.value.kind) == "discord_thread" || Trim(meta.surface.value.platform) == "discord")
  }

  // ---- Visible delivery ------------------------------------------------------------------

  /** What sending a speech through the member's own profile came to. */
  datatype Sent = Sent(ok: bool, status: string, messageId: string, postingPath: string, senderMember: string,
                       kind: string, platform: string, channelId: string, threadId: string)

  /** Speeches are sent into fully configured Discord threads only. */
  predicate Targetable(surface: Surface) {
    Trim(surface.kind) == "discord_thread" && Trim(surface.platform) == "discord" && !Blank(surface.channelId) && !Blank(surface.threadId)
  }

  predicate Matches(observed: string, configured: string) {
    Blank(observed) || Trim(observed) == Trim(configured)
  }

  predicate Acceptable(surface: Surface, member: string, sent: Sent) {
    && sent.ok && Trim(sent.status) == "posted" && !Blank(sent.messageId) && Trim(sent.postingPath) == "selected_member_profile_send"
    && Trim(sent.senderMember) == Trim(member) && Matches(sent.kind, surface.kind) && Matches(sent.platform, surface.platform)
    && Matches(sent.channelId, surface.channelId) && Matches(sent.threadId, surface.threadId)
  }

  /** The evidence recorded on a speech that was sent, unless something about the sending is wrong. */
  function VisibleEvidence(surface: Surface, member: string, speechId: string, sent: Result<Sent>): Result<Delivery> {
    if !Targetable(surface) then Err(Invalid("surface"))
    else
      match sent
      case Err(error) => Err(error)
      case Ok(s) =>
        if !Acceptable(surface, member, s) then Err(Invalid("visible_delivery"))
        else
          Ok(Delivery("posted", "discord_thread", "discord", Trim(surface.channelId), Trim(surface.threadId), Trim(s.messageId),
                      "selected_member_profile_send", Trim(member), [Trim(speechId)], true, true, false, false, false))
  }

  /** Records a delivery as the speech's surface evidence. */
  function WithDelivery(keys: RunnerKeys, d: Delivery): RunnerKeys {
    keys.(deliveries := [OneDelivery(d)] + if keys.deliveries == [] then [] else keys.deliveries[1..])
  }

  /** Lets the first evidence object refer to the speech it is on, where it does not say so itself. */
  function BindSlots(slots: seq<DeliverySlot>, speechId: string): seq<DeliverySlot> {
    if slots == [] then []
    else if !slots[0].OneDelivery? then [slots[0]] + BindSlots(slots[1..], speechId)
    else if slots[0].one.ownReferences then slots
    else [OneDelivery(slots[0].one.(references := slots[0].one.references + [speechId], ownReferences := true))] + slots[1..]
  }

  function BindReferences(keys: RunnerKeys, speechId: string): RunnerKeys {
    if Blank(speechId) then keys else keys.(deliveries := BindSlots(keys.deliveries, speechId))
  }

  // ---- The validator ---------------------------------------------------------------------

  /** `send` is what sending the speech into the thread comes to, by speech event id. */
  function ValidateSpeech(meta: Metadata, member: string, send: string -> Result<Sent>, log: Log, e: Event, has: bool): Result<Event> {
    if !has then Err(Invalid("payload"))
    else
      match BuildEvent(meta, log, SpeakSpec(member, e))
      case Err(error) => Err(error)
      case Ok(built) =>
        var spoken := e.(phase := built.phase, from := built.from, to := built.to, turn := built.turn);
        if !RequiresVisibleDelivery(meta) then
          Ok(spoken.(payload := built.payload.(runner := BindReferences(built.payload.runner, e.id))))
        else
          match VisibleEvidence(meta.surface.value, member, e.id, send(e.id))
          case Err(error) => Err(error)
          case Ok(d) =>
            Ok(spoken.(payload := built.payload.(runner := BindReferences(WithDelivery(built.payload.runner, d), e.id))))
  }

  function SelectedRequest(meta: Metadata, grant: Event, member: string, send: string -> Result<Sent>, maxRetries: int,
                           sessionTerminal: bool, adapterReady: bool): Dispatch.Request {
    Dispatch.Request(Trim(grant.commandId), Trim(grant.commandId), grant.id, member, grant.phase, maxRetries, [Speech],
                     Some((log: Log, e: Event, has: bool) => ValidateSpeech(meta, member, send, log, e, has)),
                     sessionTerminal, adapterReady)
  }

  /** A validated speech is the event of the member's own speak command, under the runner's id and
      with the runner attached. */
  lemma ValidatedIsSpoken(meta: Metadata, member: string, send: string -> Result<Sent>, log: Log, e: Event, has: bool)
    requires ValidateSpeech(meta, member, send, log, e, has).Ok? && !Blank(e.commandId) && Trim(e.causation) == e.causation
    requires Trim(member) == member != "" && e.typ == Speech
    ensures BuildEvent(meta, log, SpeakSpec(member, e)).Ok?
    ensures var valid, built := ValidateSpeech(meta, member, send, log, e, has).value, BuildEvent(meta, log, SpeakSpec(member, e)).value;
            && valid.typ == Speech && valid.causation == e.causation && valid.from == member && valid.phase == Discussion
            && forall runner, cost :: valid.(runner := Some(runner), cost := cost)
                                      == RunnerSpeechEvent(built, e.id, runner, cost, valid.payload.runner)
  {
    hide Transition, Trim, NormalizeSpeech, WithDelivery, BindReferences, VisibleEvidence, HasId;
    SpeakMoveType(meta, log, SpeakSpec(member, e));
  }
}
