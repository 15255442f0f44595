/** The local-delivery protocol as a transition system.

    One sender at a time (the send gate) hands chunks to the radio; the receiver, teardown,
    cancellation and the clock interleave with it between any two of its critical sections.
    `Step` lists what can happen, `Enabled` when, and `Do` what comes of it.  Besides the
    channel's own state, `Sys` keeps a history: every submission and every message heard. */
module Protocol {
  import opened Options
  import opened Acceptance

  /** Times are in milliseconds. */
  datatype Config = Config(sendDelay: int, grace: int)

  const MINUTE: int := 60_000

  /** A message from the radio, or the failure of a connection attempt, as it was handled. */
  datatype Event =
    | Status(id: nat, res: int, free: nat, time: int)
    | Control(attempt: nat, ownNode: nat, packet: Packet, time: int)
    | Notice(id: nat, minutes: nat, time: int)
    | Failure(attempt: nat, time: int)

  /** What a transport call is known to have written. */
  datatype Wire = InFlight | NoBytes | SomeBytes | AllBytes

  /** The history of one submission; its record is the waiter with the same index.
      `born`, the first part of `settled`, `armed` and `looked` count the events heard by then:
      when the record was entered and settled, when duty recovery began, and when the sender
      last read the free count or the minutes. */
  datatype Submission = Submission(
    send: nat, chunk: nat, began: int, born: nat, wire: Wire,
    settled: Option<(nat, int)>, committed: bool, armed: Option<nat>, looked: Option<nat>)

  /** Where the sender is.  `prev` and `notBefore` are the variables of `sendPhysical`. */
  datatype PC =
    | Idle                                                  // no Send is running
    | Between                                               // before the next chunk
    | Top(prev: nat, notBefore: Option<int>)                // head of the loop
    | AwaitReady(prev: nat, notBefore: Option<int>)
    | Pacing(prev: nat, notBefore: Option<int>, attempt: nat)
    | PickID(prev: nat, notBefore: Option<int>, attempt: nat)
    | Register(prev: nat, notBefore: Option<int>, attempt: nat, id: nat)
    | InCall(notBefore: Option<int>)                        // inside SendToRadio
    | CallFailed(notBefore: Option<int>, zero: bool)
    | Judge(notBefore: Option<int>, zero: bool, kind: Kind) // after removeAcceptance
    | Waiting                                               // head of waitAcceptance
    | Looked(seenAt: int)                                   // has read queueAt
    | QuietDue(seenAt: int)                                 // found the grace elapsed
    | Select                                                // blocked
    | Settled(kind: Kind, at: int, duty: Option<nat>)       // before removeExact
    | Switch(kind: Kind, at: int, duty: Option<nat>)
    | QueueWait(at: int)
    | QueueSeen(at: int, free: nat, known: bool)
    | DutyArm(at: int, duty: Option<nat>)
    | DutyWait(at: int)
    | DutySeen(at: int, mins: Option<nat>)

  datatype Sys = Sys(
    now: int, t: Table, ready: Option<nat>, cancelled: bool,
    pc: PC, lastPacing: Option<int>,
    send: nat, chunks: nat, ids: seq<nat>,
    subs: seq<Submission>, hist: seq<Event>)
  {
    function Cur(): Waiter
      requires |t.waiters| > 0
    {
      t.waiters[|t.waiters| - 1]
    }
  }

  function Init(now: int): Sys {
    Sys(now, Table(map[], [], 0, false, 0, None), None, false, Idle, None, 0, 0, [], [], [])
  }

  datatype Step =
    // the world
    | Tick(d: nat) | Cancel | SetReady(snapshot: Option<nat>)
    | HearStatus(id: nat, res: int, free: nat)
    | HearPacket(attempt: nat, ownNode: nat, packet: Packet)
    | HearNotice(id: nat, minutes: nat)
    | AttemptFails(attempt: nat)
    // Send
    | StartSend(chunks: nat) | NextChunk | FinishSend | GiveUp
    // sendPhysical
    | LeaveTop | SeeReady | PacingOver | Pick(id: nat) | Enter(destination: nat)
    | CallOk | CallError(zero: bool) | Remove | CommitFailed | Retry | FailCall
    // waitAcceptance
    | Look | Decide | Quiet | Wake | Expire | Leave
    // after the verdict
    | Commit | BackOffQueue | BackOffRate | BackOffDuty | FailVerdict
    | SeeQueue | QueueAgain | QueueOver | ArmDuty | SeeDuty | DutyAgain | DutyOver

  /** The sender's record is in the table. */
  predicate Registered(pc: PC) {
    pc.InCall? || pc.CallFailed? || pc.Waiting? || pc.Looked? || pc.QuietDue? || pc.Select? || pc.Settled?
  }

  /** A transport call has been made for the latest record. */
  predicate HasCurrent(pc: PC) {
    Registered(pc) || pc.Judge? || pc.Switch? || pc.QueueWait? || pc.QueueSeen?
    || pc.DutyArm? || pc.DutyWait? || pc.DutySeen?
  }

  /** The time until which a duty-cycle rejection is respected. */
  function DutyDeadline(c: Config, at: int, mins: Option<nat>): int {
    var base := at + 60 * MINUTE;
    var shorter := if mins.Some? && at + mins.value * MINUTE < base then at + mins.value * MINUTE else base;
    if at + c.sendDelay > shorter then at + c.sendDelay else shorter
  }

  predicate Enabled(c: Config, s: Sys, a: Step) {
    match a
    case Tick(_) => true
    case Cancel => true
    case SetReady(_) => true
    case HearStatus(_, _, _) => s.t.Linked()
    case HearPacket(_, _, _) => s.t.Linked()
    case HearNotice(_, _) => s.t.Linked()
    case AttemptFails(_) => true
    case StartSend(_) => s.pc.Idle?
    case NextChunk => s.pc.Between? && |s.ids| < s.chunks
    case FinishSend => s.pc.Between? && |s.ids| >= s.chunks
    // An error or a cancellation while nothing is submitted ends the Send.
    case GiveUp => s.pc.Top? || s.pc.AwaitReady? || s.pc.Pacing? || s.pc.PickID? || s.pc.Register?
                   || s.pc.QueueSeen? || s.pc.DutySeen?
    case LeaveTop => s.pc.Top? && (s.pc.notBefore.Some? ==> s.now >= s.pc.notBefore.value)
    case SeeReady => s.pc.AwaitReady? && s.ready.Some?
    case PacingOver =>
      s.pc.Pacing? && (s.lastPacing.Some? ==> s.now >= s.lastPacing.value + c.sendDelay)
    case Pick(id) => s.pc.PickID? && id != 0 && id != s.pc.prev && id !in s.t.pending
    case Enter(_) => s.pc.Register?
    case CallOk => s.pc.InCall? && s.subs != []
    case CallError(_) => s.pc.InCall? && s.subs != []
    case Remove => s.pc.CallFailed? && s.t.waiters != []
    case CommitFailed => s.pc.Judge? && s.pc.kind == Accepted && s.subs != [] && s.t.waiters != []
    case Retry => s.pc.Judge? && s.pc.kind != Accepted && s.pc.zero && !s.cancelled && s.t.waiters != []
    case FailCall => s.pc.Judge? && s.pc.kind != Accepted && (!s.pc.zero || s.cancelled)
    case Look => s.pc.Waiting? && s.t.waiters != []
    case Decide => s.pc.Looked?
    case Quiet => s.pc.QuietDue? && s.t.waiters != []
    case Wake => s.pc.Select?
    case Expire => s.pc.Select? && s.t.waiters != []
    case Leave => s.pc.Settled? && s.t.waiters != []
    case Commit => s.pc.Switch? && s.pc.kind == Accepted && s.subs != [] && s.t.waiters != []
    case BackOffQueue => s.pc.Switch? && s.pc.kind == QueueFull
    case BackOffRate => s.pc.Switch? && s.pc.kind == Rate && s.t.waiters != []
    case BackOffDuty => s.pc.Switch? && s.pc.kind == Duty
    case FailVerdict => s.pc.Switch? && (s.pc.kind == Permanent || s.pc.kind == Ambiguous)
    case SeeQueue => s.pc.QueueWait? && s.subs != []
    case QueueAgain => s.pc.QueueSeen?
    case QueueOver => s.pc.QueueSeen? && s.pc.known && s.pc.free > 0 && s.now >= s.pc.at + c.sendDelay
                      && s.t.waiters != []
    case ArmDuty => s.pc.DutyArm? && s.t.waiters != [] && s.subs != []
    case SeeDuty => s.pc.DutyWait? && s.subs != []
    case DutyAgain => s.pc.DutySeen? && s.now < DutyDeadline(c, s.pc.at, s.pc.mins)
    case DutyOver => s.pc.DutySeen? && s.now >= DutyDeadline(c, s.pc.at, s.pc.mins) && s.t.waiters != []
  }

  /** Notes when the latest record is settled: after how many events, and at what time. */
  function Stamp(s: Sys, t: Table, heard: nat): seq<Submission> {
    if s.subs != [] && |s.t.waiters| == |s.subs| == |t.waiters|
       && s.Cur().terminal == Pending && t.waiters[|t.waiters| - 1].terminal != Pending
    then s.subs[|s.subs| - 1 := s.subs[|s.subs| - 1].(settled := Some((heard, s.now)))]
    else s.subs
  }

  function Hear(s: Sys, e: Event, t: Table): Sys {
    s.(t := t, hist := s.hist + [e], subs := Stamp(s, t, |s.hist| + 1))
  }

  function SetLast(s: Sys, b: Submission): seq<Submission>
    requires s.subs != []
  {
    s.subs[|s.subs| - 1 := b]
  }

  /** Notes that the sender reads what its recovery waits for. */
  function Looking(s: Sys): seq<Submission>
    requires s.subs != []
  {
    SetLast(s, s.subs[|s.subs| - 1].(looked := Some(|s.hist|)))
  }

  /** `commitAccepted`, and the id joins the result of the Send. */
  function Committed(s: Sys): Sys
    requires s.subs != [] && s.t.waiters != []
  {
    s.(lastPacing := Some(s.now), ids := s.ids + [s.Cur().id],
       subs := SetLast(s, s.subs[|s.subs| - 1].(committed := true)), pc := Between)
  }

  /** The deferred end of `waitDutyRecovery`. */
  function Disarmed(t: Table): Table
    requires t.waiters != []
  {
    if t.dutyID == t.waiters[|t.waiters| - 1].id then t.(dutyID := 0, dutyMinutes := None) else t
  }

  function Do(c: Config, s: Sys, a: Step): Sys
    requires Enabled(c, s, a)
  {
    var last := |s.t.waiters| - 1;
    match a
    case Tick(d) => s.(now := s.now + d)
    case Cancel => s.(cancelled := true)
    case SetReady(r) => s.(ready := r)
    case HearStatus(id, res, free) =>
      Hear(s, Status(id, res, free, s.now), OnStatus(s.t, id, res, free, s.now))
    case HearPacket(attempt, own, p) =>
      Hear(s, Control(attempt, own, p, s.now), OnPacket(s.t, attempt, own, p, s.now))
    case HearNotice(id, minutes) => Hear(s, Notice(id, minutes, s.now), OnNotice(s.t, id, minutes))
    case AttemptFails(attempt) =>
      Hear(s, Failure(attempt, s.now), OnFail(s.t, attempt, Ambiguous, s.now))
    case StartSend(chunks) =>
      s.(pc := Between, send := s.send + 1, chunks := chunks, ids := [], cancelled := false)
    case NextChunk => s.(pc := Top(0, None))
    case FinishSend => s.(pc := Idle)
    case GiveUp => s.(pc := Idle, t := if s.pc.DutySeen? && s.t.waiters != [] then Disarmed(s.t) else s.t)
    case LeaveTop => s.(pc := AwaitReady(s.pc.prev, s.pc.notBefore))
    case SeeReady => s.(pc := Pacing(s.pc.prev, s.pc.notBefore, s.ready.value))
    case PacingOver => s.(pc := PickID(s.pc.prev, s.pc.notBefore, s.pc.attempt))
    case Pick(id) => s.(pc := Register(s.pc.prev, s.pc.notBefore, s.pc.attempt, id))
    case Enter(dest) =>
      if s.pc.id in s.t.pending then s.(pc := Top(s.pc.id, s.pc.notBefore))
      else s.(t := OnRegister(s.t, s.pc.id, dest, s.pc.attempt),
              subs := s.subs + [Submission(s.send, |s.ids|, s.now, |s.hist|, InFlight, None, false, None, None)],
              pc := InCall(s.pc.notBefore))
    case CallOk => s.(subs := SetLast(s, s.subs[|s.subs| - 1].(wire := AllBytes)), pc := Waiting)
    case CallError(zero) =>
      s.(subs := SetLast(s, s.subs[|s.subs| - 1].(wire := if zero then NoBytes else SomeBytes)),
         pc := CallFailed(s.pc.notBefore, zero))
    case Remove =>
      var t := OnRemove(OnFinish(s.t, last, Ambiguous, s.now), last);
      s.(t := t, subs := Stamp(s, t, |s.hist|),
         pc := Judge(s.pc.notBefore, s.pc.zero, t.waiters[last].terminal))
    case CommitFailed => Committed(s)
    case Retry => s.(pc := Top(s.Cur().id, s.pc.notBefore))
    case FailCall => s.(pc := Idle)
    case Look =>
      s.(pc := if s.Cur().terminal != Pending then Settled(s.Cur().terminal, s.Cur().at, s.Cur().duty)
               else if s.Cur().queueOK then Looked(s.Cur().queueAt) else Select)
    case Decide => s.(pc := if s.now >= s.pc.seenAt + c.grace then QuietDue(s.pc.seenAt) else Select)
    case Quiet =>
      var t := OnQuiet(s.t, last);
      s.(t := t, subs := Stamp(s, t, |s.hist|), pc := Waiting)
    case Wake => s.(pc := Waiting)
    case Expire =>
      var t := OnFinish(s.t, last, Ambiguous, s.now);
      s.(t := t, subs := Stamp(s, t, |s.hist|), pc := Waiting)
    case Leave => s.(t := OnRemove(s.t, last), pc := Switch(s.pc.kind, s.pc.at, s.pc.duty))
    case Commit => Committed(s)
    case BackOffQueue => s.(lastPacing := Some(s.pc.at), pc := QueueWait(s.pc.at))
    case BackOffRate =>
      s.(lastPacing := Some(s.pc.at), pc := Top(s.Cur().id, Some(s.pc.at + c.sendDelay)))
    case BackOffDuty => s.(lastPacing := Some(s.pc.at), pc := DutyArm(s.pc.at, s.pc.duty))
    case FailVerdict => s.(pc := Idle)
    case SeeQueue => s.(subs := Looking(s), pc := QueueSeen(s.pc.at, s.t.queueFree, s.t.queueKnown))
    case QueueAgain => s.(pc := QueueWait(s.pc.at))
    case QueueOver => s.(pc := Top(s.Cur().id, None))
    case ArmDuty =>
      s.(t := s.t.(dutyID := s.Cur().id, dutyMinutes := s.pc.duty),
         subs := SetLast(s, s.subs[|s.subs| - 1].(armed := Some(|s.hist|))),
         pc := DutyWait(s.pc.at))
    case SeeDuty => s.(subs := Looking(s), pc := DutySeen(s.pc.at, s.t.dutyMinutes))
    case DutyAgain => s.(pc := DutyWait(s.pc.at))
    case DutyOver => s.(t := Disarmed(s.t), pc := Top(s.Cur().id, None))
  }

  /** A run: steps that are enabled one after another. */
  predicate CanRun(c: Config, s: Sys, steps: seq<Step>)
    decreases |steps|
  {
    steps == [] ||
    (Enabled(c, s, steps[0]) && CanRun(c, Do(c, s, steps[0]), steps[1..]))
  }

  function Run(c: Config, s: Sys, steps: seq<Step>): Sys
    requires CanRun(c, s, steps)
    decreases |steps|
  {
    if steps == [] then s else Run(c, Do(c, s, steps[0]), steps[1..])
  }
}
