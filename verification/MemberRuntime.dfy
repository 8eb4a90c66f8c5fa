/** The member's stream consumer against the replaying server: every frame is checked, acted on,
    acknowledged and its cursor saved, in this order; any step may fail, and the next run resumes. */
module MemberRuntime {
  import opened Prelude
  import opened Text
  import opened Events
  import Cursors
  import Channel

  datatype Frame = Frame(cursor: string, isReplay: bool, event: Event, versionOk: bool)

  // ---- The server ------------------------------------------------------------------------

  function FramesFrom(log: Log, start: nat, isReplay: bool): (frames: seq<Frame>)
    requires start <= |log|
    ensures |frames| == |log| - start
    ensures forall i :: 0 <= i < |frames| ==>
              frames[i] == Frame(Cursors.Print(start + i, log[start + i].id), isReplay, log[start + i], true)
  {
    seq(|log| - start, i requires 0 <= i < |log| - start =>
      Frame(Cursors.Print(start + i, log[start + i].id), isReplay, log[start + i], true))
  }

  /** Where a replay starts: after the cursor, which must name an event of the log. */
  function StartOffset(log: Log, since: string): (start: Result<nat>)
    ensures start.Ok? ==> start.value <= |log|
  {
    if since == "" then Ok(0)
    else
      match Cursors.Parse(since)
      case None => Err(Invalid("cursor"))
      case Some((offset, id)) =>
        if offset < 0 || offset >= |log| || log[offset].id != id then Err(Invalid("cursor")) else Ok(offset + 1)
  }

  /** Replay of the log as it is, then whatever has been added to it a little later. */
  function Served(log: Log, later: Log, since: string): Result<seq<Frame>>
    requires log <= later
  {
    match StartOffset(log, since)
    case Err(error) => Err(error)
    case Ok(start) => Ok(FramesFrom(log, start, true) + FramesFrom(later, |log|, false))
  }

  method BuildFrames(log: Log, start: nat, isReplay: bool) returns (frames: seq<Frame>)
    requires start <= |log|
    ensures frames == FramesFrom(log, start, isReplay)
  {
    hide Cursors.Print;
    frames := [];
    for i := start to |log|
      invariant |frames| == i - start
      invariant forall k :: 0 <= k < |frames| ==>
                  frames[k] == Frame(Cursors.Print(start + k, log[start + k].id), isReplay, log[start + k], true)
    {
      frames := frames + [Frame(Cursors.Print(i, log[i].id), isReplay, log[i], true)];
    }
  }

  /** Replays the log and follows it: `later` is the log when the follow stops waiting. */
  method ReplayStream(log: Log, later: Log, since: string) returns (r: Result<seq<Frame>>)
    requires log <= later
    ensures r == Served(log, later, since)
  {
    hide Cursors.Print, Cursors.Parse;
    var start := StartOffset(log, since);
    if start.Err? {
      return Err(start.error);
    }
    var replayed := BuildFrames(log, start.value, true);
    var live := BuildFrames(later, |log|, false);
    return Ok(replayed + live);
  }

  // ---- The policy ------------------------------------------------------------------------

  datatype Policy = Policy(
    actionTypes: set<EventType>, phases: set<Phase>, roles: set<string>, senders: set<string>, recipientHints: set<string>)

  predicate HintMatches(hints: set<string>, member: string, to: seq<string>) {
    exists i :: 0 <= i < |to| && (to[i] in hints || (to[i] == member && ("self" in hints || "$member" in hints)))
  }

  predicate ShouldAct(policy: Policy, member: string, role: string, e: Event) {
    && e.from != member && e.typ in policy.actionTypes
    && (policy.senders != {} ==> e.from in policy.senders)
    && (policy.phases != {} ==> e.phase in policy.phases)
    && (policy.roles != {} ==> role in policy.roles)
    && (policy.recipientHints != {} ==> HintMatches(policy.recipientHints, member, e.to))
  }

  // ---- One run ---------------------------------------------------------------------------

  /** What goes wrong at a frame; a failure the handler has recorded durably counts as handled. */
  datatype Faults = Faults(handler: bool, ack: bool, save: bool)

  datatype Trouble = NoTrouble | BadCursor | UnknownVersion | CorruptFrame | CursorGap | ReplayAfterLive | HandlerFailed | AckFailed | SaveFailed

  /** The consumer: its saved cursor and everything it has done. */
  datatype Consumer = Consumer(saved: string, handled: seq<Event>, acked: seq<string>, saves: seq<int>)

  /** What a frame shows before anything is done about it. */
  function Inspect(frame: Frame, previous: int, seenLive: bool): Trouble {
    var parsed := Cursors.Parse(frame.cursor);
    if parsed == None then BadCursor
    else if !frame.versionOk then UnknownVersion
    else if frame.event.id != parsed.value.1 then CorruptFrame
    else if parsed.value.0 != previous + 1 then CursorGap
    else if seenLive && frame.isReplay then ReplayAfterLive
    else NoTrouble
  }

  predicate Acts(rt: Settings, e: Event) {
    ShouldAct(rt.policy, rt.member, rt.role, e)
  }

  datatype Settings = Settings(policy: Policy, member: string, role: string)

  /** The frames one by one; `faults(i)` is what goes wrong at the i-th. */
  function Consume(rt: Settings, frames: seq<Frame>, i: nat, previous: int, seenLive: bool, c: Consumer, faults: nat -> Faults): (Consumer, Trouble)
    decreases |frames| - i
  {
    if i >= |frames| then (c, NoTrouble)
    else
      var frame := frames[i];
      var trouble := Inspect(frame, previous, seenLive);
      if trouble != NoTrouble then (c, trouble)
      else
        var acted := if Acts(rt, frame.event) then c.(handled := c.handled + [frame.event]) else c;
        if Acts(rt, frame.event) && faults(i).handler then (acted, HandlerFailed)
        else if faults(i).ack then (acted, AckFailed)
        else
          var acked := acted.(acked := acted.acked + [frame.cursor]);
          if faults(i).save then (acked, SaveFailed)
          else
            Consume(rt, frames, i + 1, previous + 1, seenLive || !frame.isReplay,
                    acked.(saved := frame.cursor, saves := acked.saves + [previous + 1]), faults)
  }

  function CursorOffset(cursor: string): int {
    if Cursors.Parse(cursor).Some? then Cursors.Parse(cursor).value.0 else -1
  }

  /** A run over a list of frames, from the saved cursor. */
  function RunFrames(rt: Settings, frames: seq<Frame>, c: Consumer, faults: nat -> Faults): (Consumer, Trouble) {
    if c.saved != "" && Cursors.Parse(c.saved) == None then (c, BadCursor)
    else Consume(rt, frames, 0, CursorOffset(c.saved), false, c, faults)
  }

  class Runtime {
    const rt: Settings
    var saved: string
    var handled: seq<Event>
    var acked: seq<string>
    var saves: seq<int>

    ghost function Contents(): Consumer
      reads this
    {
      Consumer(saved, handled, acked, saves)
    }

    constructor (rt: Settings)
      ensures this.rt == rt && Contents() == Consumer("", [], [], [])
    {
      this.rt := rt;
      saved, handled, acked, saves := "", [], [], [];
    }

    /** One pass over the frames that the stream returned. */
    method RunOnce(frames: seq<Frame>, faults: nat -> Faults) returns (trouble: Trouble)
      modifies this
      ensures (Contents(), trouble) == RunFrames(rt, frames, old(Contents()), faults)
    {
      hide Inspect, Acts, CursorOffset;
      if saved != "" && Cursors.Parse(saved) == None {
        return BadCursor;
      }
      var previous, seenLive := CursorOffset(saved), false;
      for i := 0 to |frames|
        invariant RunFrames(rt, frames, old(Contents()), faults)
                  == Consume(rt, frames, i, previous, seenLive, Contents(), faults)
      {
        var frame := frames[i];
        trouble := Inspect(frame, previous, seenLive);
        if trouble != NoTrouble {
          return;
        }
        if Acts(rt, frame.event) {
          handled := handled + [frame.event];
          if faults(i).handler {
            return HandlerFailed;
          }
        }
        if faults(i).ack {
          return AckFailed;
        }
        acked := acked + [frame.cursor];
        if faults(i).save {
          return SaveFailed;
        }
        saved, saves := frame.cursor, saves + [previous + 1];
        previous, seenLive := previous + 1, seenLive || !frame.isReplay;
      }
      return NoTrouble;
    }
  }

  // ---- Any frames at all -----------------------------------------------------------------

  predicate Counting(saves: seq<int>, from: int) {
    forall i :: 0 <= i < |saves| ==> saves[i] == from + 1 + i
  }

  lemma CountingCons(saves: seq<int>, from: int)
    requires saves != [] && saves[0] == from + 1 && Counting(saves[1..], from + 1)
    ensures Counting(saves, from)
  {
    forall i | 0 <= i < |saves| ensures saves[i] == from + 1 + i {
      if i > 0 {
        assert saves[1..][i - 1] == saves[i];
      }
    }
  }

  lemma {:induction false} ConsumeCounts(rt: Settings, frames: seq<Frame>, i: nat, previous: int, seenLive: bool, c: Consumer, faults: nat -> Faults)
    requires CursorOffset(c.saved) == previous
    ensures var (after, trouble) := Consume(rt, frames, i, previous, seenLive, c, faults);
            && c.saves <= after.saves && Counting(after.saves[|c.saves|..], previous)
            && CursorOffset(after.saved) == previous + |after.saves| - |c.saves|
    decreases |frames| - i
  {
    hide Acts, Cursors.Parse;
    if i < |frames| && Inspect(frames[i], previous, seenLive) == NoTrouble {
      var frame := frames[i];
      var acted := if Acts(rt, frame.event) then c.(handled := c.handled + [frame.event]) else c;
      if !(Acts(rt, frame.event) && faults(i).handler) && !faults(i).ack && !faults(i).save {
        var next := acted.(acked := acted.acked + [frame.cursor], saved := frame.cursor, saves := acted.saves + [previous + 1]);
        ConsumeCounts(rt, frames, i + 1, previous + 1, seenLive || !frame.isReplay, next, faults);
        var after := Consume(rt, frames, i + 1, previous + 1, seenLive || !frame.isReplay, next, faults).0;
        assert after.saves[|c.saves|..][1..] == after.saves[|next.saves|..];
        CountingCons(after.saves[|c.saves|..], previous);
      }
    }
  }

  /** Whatever frames arrive, a run saves consecutive offsets from the starting cursor on, so the
      saved cursor never moves back. */
  lemma SavesConsecutive(rt: Settings, frames: seq<Frame>, c: Consumer, faults: nat -> Faults)
    ensures var (after, trouble) := RunFrames(rt, frames, c, faults);
            && c.saves <= after.saves && Counting(after.saves[|c.saves|..], CursorOffset(c.saved))
            && CursorOffset(after.saved) == CursorOffset(c.saved) + |after.saves| - |c.saves| >= CursorOffset(c.saved)
  {
    hide Consume, Cursors.Parse;
    ConsumeCounts(rt, frames, 0, CursorOffset(c.saved), false, c, faults);
  }

  // ---- Frames from the server ------------------------------------------------------------

  /** Cursors of this log can be parsed back: offsets fit and ids are non-empty and newline-free. */
  predicate Printable(log: Log) {
    |log| <= Cursors.OFFSET_LIMIT && forall k :: 0 <= k < |log| ==> log[k].id != "" && '\n' !in log[k].id
  }

  /** The saved cursor names an event of the log, or nothing has been saved. */
  predicate Anchored(log: Log, saved: string) {
    saved == "" || (0 <= CursorOffset(saved) < |log| && saved == Cursors.Print(CursorOffset(saved), log[CursorOffset(saved)].id))
  }

  /** Every event up to the saved cursor that the policy acts on has been handed to the handler. */
  predicate AllHandled(rt: Settings, log: Log, c: Consumer) {
    forall k :: 0 <= k < |log| && k <= CursorOffset(c.saved) && Acts(rt, log[k]) ==> log[k] in c.handled
  }

  predicate Sound(rt: Settings, log: Log, c: Consumer) {
    Anchored(log, c.saved) && AllHandled(rt, log, c)
  }

  /** The frames of a log from an offset on, replayed up to some point and live after it. */
  ghost predicate Continues(frames: seq<Frame>, log: Log, start: nat, live: nat) {
    && start <= |log| && |frames| == |log| - start
    && forall i :: 0 <= i < |frames| ==>
         frames[i] == Frame(Cursors.Print(start + i, log[start + i].id), start + i < live, log[start + i], true)
  }

  lemma ServedContinues(log: Log, later: Log, since: string)
    requires log <= later && Served(log, later, since).Ok?
    ensures Continues(Served(log, later, since).value, later, StartOffset(log, since).value, |log|)
  {
    hide Cursors.Parse, Cursors.Print;
  }

  lemma ParsesBack(log: Log, k: nat)
    requires Printable(log) && k < |log|
    ensures Cursors.Parse(Cursors.Print(k, log[k].id)) == Some((k, log[k].id))
    ensures CursorOffset(Cursors.Print(k, log[k].id)) == k
  {
    Cursors.ParsePrint(k, log[k].id);
    hide Cursors.Parse, Cursors.Print;
  }

  lemma EmptyCursor()
    ensures Cursors.Parse("") == None && CursorOffset("") == -1
  {
  }

  lemma {:induction false} ConsumeSound(rt: Settings, log: Log, frames: seq<Frame>, start: nat, live: nat, i: nat, seenLive: bool,
                                        c: Consumer, faults: nat -> Faults)
    requires Printable(log) && Continues(frames, log, start, live) && i <= |frames|
    requires CursorOffset(c.saved) == start + i - 1 && Sound(rt, log, c) && (seenLive ==> start + i > live)
    ensures var (after, trouble) := Consume(rt, frames, i, start + i - 1, seenLive, c, faults);
            && Sound(rt, log, after) && c.handled <= after.handled
            && trouble in {NoTrouble, HandlerFailed, AckFailed, SaveFailed}
    decreases |frames| - i
  {
    hide Acts, Cursors.Parse, Cursors.Print, Printable;
    if i < |frames| {
      var frame, k := frames[i], start + i;
      ParsesBack(log, k);
      assert Inspect(frame, k - 1, seenLive) == NoTrouble;
      var acted := if Acts(rt, frame.event) then c.(handled := c.handled + [frame.event]) else c;
      assert AllHandled(rt, log, acted);
      if !(Acts(rt, frame.event) && faults(i).handler) && !faults(i).ack && !faults(i).save {
        var next := acted.(acked := acted.acked + [frame.cursor], saved := frame.cursor, saves := acted.saves + [k]);
        assert AllHandled(rt, log, next);
        ConsumeSound(rt, log, frames, start, live, i + 1, seenLive || !frame.isReplay, next, faults);
      }
    }
  }

  lemma StartIsNext(log: Log, saved: string)
    requires Anchored(log, saved) && Printable(log)
    ensures StartOffset(log, saved) == Ok(CursorOffset(saved) + 1)
    ensures saved != "" ==> Cursors.Parse(saved).Some?
  {
    EmptyCursor();
    if saved != "" {
      ParsesBack(log, CursorOffset(saved));
    }
    hide Cursors.Parse, Cursors.Print;
  }

  /** A sound consumer stays sound over a run against the server, whatever fails on the way, and the
      server's frames never look corrupt, out of order or with a gap. */
  lemma ServedRunSound(rt: Settings, log: Log, later: Log, c: Consumer, faults: nat -> Faults)
    requires log <= later && Printable(later) && Sound(rt, log, c)
    ensures Served(log, later, c.saved).Ok?
    ensures var (after, trouble) := RunFrames(rt, Served(log, later, c.saved).value, c, faults);
            && Sound(rt, later, after) && c.handled <= after.handled
            && trouble in {NoTrouble, HandlerFailed, AckFailed, SaveFailed}
  {
    hide Acts, Cursors.Parse, Cursors.Print, Consume;
    StartIsNext(log, c.saved);
    ServedContinues(log, later, c.saved);
    SoundGrows(rt, log, later, c);
    ConsumeSound(rt, later, Served(log, later, c.saved).value, CursorOffset(c.saved) + 1, |log|, 0, false, c, faults);
  }

  lemma SoundGrows(rt: Settings, log: Log, later: Log, c: Consumer)
    requires log <= later && Sound(rt, log, c)
    ensures Sound(rt, later, c)
  {
    hide Acts, Cursors.Parse, Cursors.Print;
    EmptyCursor();
  }

  // ---- Any number of runs ----------------------------------------------------------------

  /** The log and the consumer; both only ever move forward. */
  datatype World = World(log: Log, consumer: Consumer)

  /** The log grows; or a run reads the log, reads it again after some growth, and its own
      acknowledgements and other commands add to it. */
  datatype Step =
    | Grow(events: Log)
    | Attempt(beforeReplay: Log, beforeLive: Log, afterwards: Log, faults: nat -> Faults)

  function Next(rt: Settings, w: World, step: Step): World {
    match step
    case Grow(events) => w.(log := w.log + events)
    case Attempt(beforeReplay, beforeLive, afterwards, faults) =>
      var log := w.log + beforeReplay;
      var later := log + beforeLive;
      var consumer := match Served(log, later, w.consumer.saved)
                      case Err(_) => w.consumer
                      case Ok(frames) => RunFrames(rt, frames, w.consumer, faults).0;
      World(later + afterwards, consumer)
  }

  function Run(rt: Settings, steps: seq<Step>): World {
    if steps == [] then World([], Consumer("", [], [], [])) else Next(rt, Run(rt, steps[..|steps| - 1]), steps[|steps| - 1])
  }

  lemma NextSound(rt: Settings, w: World, step: Step)
    requires Printable(Next(rt, w, step).log) && Sound(rt, w.log, w.consumer)
    ensures var next := Next(rt, w, step);
            && Sound(rt, next.log, next.consumer) && w.log <= next.log && Printable(w.log)
            && CursorOffset(w.consumer.saved) <= CursorOffset(next.consumer.saved)
  {
    hide Sound, RunFrames, Served, Cursors.Parse;
    match step {
      case Grow(events) =>
        PrintablePrefix(w.log, w.log + events);
        SoundGrows(rt, w.log, w.log + events, w.consumer);
      case Attempt(beforeReplay, beforeLive, afterwards, faults) =>
        var log := w.log + beforeReplay;
        var later := log + beforeLive;
        PrintablePrefix(later, later + afterwards);
        PrintablePrefix(w.log, later);
        SoundGrows(rt, w.log, log, w.consumer);
        ServedRunSound(rt, log, later, w.consumer, faults);
        var frames := Served(log, later, w.consumer.saved).value;
        SavesConsecutive(rt, frames, w.consumer, faults);
        SoundGrows(rt, later, later + afterwards, RunFrames(rt, frames, w.consumer, faults).0);
    }
  }

  lemma PrintablePrefix(log: Log, longer: Log)
    requires log <= longer && Printable(longer)
    ensures Printable(log)
  {
  }

  /** Across any number of runs, failing anywhere while the log keeps growing, every actionable
      event at or below the saved cursor has been handed to the handler. */
  lemma {:induction false} NothingSkipped(rt: Settings, steps: seq<Step>)
    requires Printable(Run(rt, steps).log)
    ensures Sound(rt, Run(rt, steps).log, Run(rt, steps).consumer)
  {
    hide Next, Printable, Cursors.Parse, Acts;
    if steps == [] {
      EmptyCursor();
    } else {
      var before := Run(rt, steps[..|steps| - 1]);
      NextKeepsLog(rt, before, steps[|steps| - 1]);
      PrintablePrefix(before.log, Run(rt, steps).log);
      NothingSkipped(rt, steps[..|steps| - 1]);
      NextSound(rt, before, steps[|steps| - 1]);
    }
  }

  lemma NextKeepsLog(rt: Settings, w: World, step: Step)
    ensures w.log <= Next(rt, w, step).log
  {
    hide Served, RunFrames;
  }

  /** And the saved cursor never moves back. */
  lemma {:induction false} CursorNeverMovesBack(rt: Settings, steps: seq<Step>, n: nat)
    requires Printable(Run(rt, steps).log) && n <= |steps|
    ensures CursorOffset(Run(rt, steps[..n]).consumer.saved) <= CursorOffset(Run(rt, steps).consumer.saved)
    decreases |steps|
  {
    hide Next, Printable, Sound, CursorOffset;
    if n < |steps| {
      var init := steps[..|steps| - 1];
      assert init[..n] == steps[..n];
      NextKeepsLog(rt, Run(rt, init), steps[|steps| - 1]);
      PrintablePrefix(Run(rt, init).log, Run(rt, steps).log);
      CursorNeverMovesBack(rt, init, n);
      NothingSkipped(rt, init);
      NextSound(rt, Run(rt, init), steps[|steps| - 1]);
    } else {
      assert steps[..n] == steps;
    }
  }
}
