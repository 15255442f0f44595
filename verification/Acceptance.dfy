/** The table of submissions waiting for the radio's word, as inbound.go updates it.

    `Table` is its value; the functions on it say what each critical section does.  The class
    `PendingTable` holds the records themselves, shared with the sender through references,
    and its methods are proved against those functions. */
module Acceptance {
  import opened Options

  datatype Kind = Pending | Accepted | QueueFull | Rate | Duty | Permanent | Ambiguous

  /** An `acceptance` record. */
  datatype Waiter = Waiter(
    id: nat, destination: nat, attempt: nat,
    queueOK: bool, echoOK: bool, queueAt: int,
    terminal: Kind, at: int, duty: Option<nat>)

  datatype Reason = NoError | RateLimitExceeded | DutyCycleLimit | OtherError

  /** The part of a radio packet that matters here.  `decoded` is None when the routing
      payload does not unmarshal; `textEcho` is the answer of `isLocalTextEcho`. */
  datatype Content = Routing(requestID: nat, decoded: Option<Reason>) | Payload(textEcho: bool)
  datatype Packet = Packet(from: nat, dest: nat, id: nat, content: Content)

  /** `pending` holds indices into `waiters`, which lists all records ever made. */
  datatype Table = Table(
    pending: map<nat, nat>, waiters: seq<Waiter>,
    queueFree: nat, queueKnown: bool, dutyID: nat, dutyMinutes: Option<nat>)
  {
    predicate Linked() {
      forall id :: id in pending ==> pending[id] < |waiters| && waiters[pending[id]].id == id
    }

    /** The record under `id` exists and is still undecided. */
    predicate Open(id: nat)
      requires Linked()
    {
      id in pending && waiters[pending[id]].terminal == Pending
    }

    function Get(id: nat): Waiter
      requires Linked() && id in pending
    {
      waiters[pending[id]]
    }

    function Set(id: nat, w: Waiter): Table
      requires Linked() && id in pending
    {
      this.(waiters := waiters[pending[id] := w])
    }
  }

  /** `finishLocked`: the first verdict stands. */
  function Finish(w: Waiter, kind: Kind, at: int): Waiter {
    if w.terminal != Pending then w else w.(terminal := kind, at := at)
  }

  // ----- what one message does to one record

  function StatusFor(w: Waiter, res: int, free: nat, now: int): Waiter {
    if res == 0 then
      var ok := w.(queueOK := true, queueAt := now);
      if ok.echoOK then Finish(ok, Accepted, now) else ok
    else if res == 32 && free == 0 then Finish(w, QueueFull, now)
    else Finish(w, Permanent, now)
  }

  function RejectionFor(w: Waiter, reason: Reason, now: int): Waiter {
    match reason
    case RateLimitExceeded => Finish(w, Rate, now)
    case DutyCycleLimit => Finish(w, Duty, now)
    case _ => Finish(w, Permanent, now)
  }

  function EchoFor(w: Waiter, dest: nat, textEcho: bool, now: int): Waiter {
    if dest != w.destination || !textEcho then w
    else
      var ok := w.(echoOK := true);
      if ok.queueOK then Finish(ok, Accepted, now) else ok
  }

  // ----- the critical sections

  function OnStatus(t: Table, id: nat, res: int, free: nat, now: int): Table
    requires t.Linked()
  {
    var u := t.(queueFree := free, queueKnown := true);
    if id != 0 && u.Open(id) then u.Set(id, StatusFor(u.Get(id), res, free, now)) else u
  }

  function OnRouting(t: Table, attempt: nat, id: nat, reason: Reason, now: int): Table
    requires t.Linked()
  {
    if t.Open(id) && t.Get(id).attempt == attempt
    then t.Set(id, RejectionFor(t.Get(id), reason, now)) else t
  }

  function OnEcho(t: Table, attempt: nat, id: nat, dest: nat, textEcho: bool, now: int): Table
    requires t.Linked()
  {
    if t.Open(id) && t.Get(id).attempt == attempt
    then t.Set(id, EchoFor(t.Get(id), dest, textEcho, now)) else t
  }

  function OnNotice(t: Table, id: nat, minutes: nat): Table
    requires t.Linked()
  {
    var u := if t.Open(id) then t.Set(id, t.Get(id).(duty := Some(minutes))) else t;
    if u.dutyID == id then u.(dutyMinutes := Some(minutes)) else u
  }

  function FailedWaiter(t: Table, i: nat, attempt: nat, kind: Kind, now: int): Waiter
    requires i < |t.waiters|
  {
    var w := t.waiters[i];
    if w.id in t.pending && t.pending[w.id] == i && w.attempt == attempt then Finish(w, kind, now) else w
  }

  function OnFail(t: Table, attempt: nat, kind: Kind, now: int): Table {
    t.(waiters := seq(|t.waiters|, i requires 0 <= i < |t.waiters| => FailedWaiter(t, i, attempt, kind, now)),
       queueKnown := false)
  }

  // `failPending` visits one record after another.

  function FailAt(t: Table, i: nat, attempt: nat, kind: Kind, now: int): Table
    requires i < |t.waiters|
  {
    var w := t.waiters[i];
    t.(waiters := t.waiters[i := if w.attempt == attempt then Finish(w, kind, now) else w])
  }

  /** All records failed except those still listed in `ids`. */
  function FailedOutside(t: Table, ids: set<nat>, attempt: nat, kind: Kind, now: int): Table {
    t.(waiters := seq(|t.waiters|, i requires 0 <= i < |t.waiters| =>
         if t.waiters[i].id in ids then t.waiters[i] else FailedWaiter(t, i, attempt, kind, now)))
  }

  lemma NoneVisited(t: Table, attempt: nat, kind: Kind, now: int)
    ensures FailedOutside(t, t.pending.Keys, attempt, kind, now) == t
  {
    assert FailedOutside(t, t.pending.Keys, attempt, kind, now).waiters == t.waiters;
  }

  lemma OneVisited(t: Table, ids: set<nat>, id: nat, attempt: nat, kind: Kind, now: int)
    requires t.Linked() && id in ids && ids <= t.pending.Keys
    ensures FailAt(FailedOutside(t, ids, attempt, kind, now), t.pending[id], attempt, kind, now)
         == FailedOutside(t, ids - {id}, attempt, kind, now)
  {
    var u := FailAt(FailedOutside(t, ids, attempt, kind, now), t.pending[id], attempt, kind, now);
    assert u.waiters == FailedOutside(t, ids - {id}, attempt, kind, now).waiters;
  }

  lemma AllVisited(t: Table, attempt: nat, kind: Kind, now: int)
    ensures FailedOutside(t, {}, attempt, kind, now).(queueKnown := false) == OnFail(t, attempt, kind, now)
  {
    assert FailedOutside(t, {}, attempt, kind, now).waiters == OnFail(t, attempt, kind, now).waiters;
  }

  /** `recordPacketControl`: only packets of our own node, as routing errors or echoes. */
  function OnPacket(t: Table, attempt: nat, ownNode: nat, p: Packet, now: int): Table
    requires t.Linked()
  {
    if p.from != 0 && p.from != ownNode then t
    else
      match p.content
      case Routing(requestID, decoded) =>
        if requestID == 0 || decoded.None? || decoded.value == NoError then t
        else OnRouting(t, attempt, requestID, decoded.value, now)
      case Payload(textEcho) => OnEcho(t, attempt, p.id, p.dest, textEcho, now)
  }

  /** A new record under an id that is free. */
  function OnRegister(t: Table, id: nat, destination: nat, attempt: nat): Table {
    t.(pending := t.pending[id := |t.waiters|],
       waiters := t.waiters + [Waiter(id, destination, attempt, false, false, 0, Pending, 0, None)])
  }

  /** The sender finishes its own record: in `removeAcceptance`, or while waiting. */
  function OnFinish(t: Table, i: nat, kind: Kind, at: int): Table
    requires i < |t.waiters|
  {
    t.(waiters := t.waiters[i := Finish(t.waiters[i], kind, at)])
  }

  /** Taking a record out of the table, if it is still the one under its id. */
  function OnRemove(t: Table, i: nat): Table
    requires i < |t.waiters|
  {
    var id := t.waiters[i].id;
    if id in t.pending && t.pending[id] == i then t.(pending := t.pending - {id}) else t
  }

  /** The quiet window of `waitAcceptance` is over. */
  function OnQuiet(t: Table, i: nat): Table
    requires i < |t.waiters|
  {
    if t.waiters[i].terminal == Pending && t.waiters[i].queueOK
    then OnFinish(t, i, Accepted, t.waiters[i].queueAt) else t
  }

  /** A Res-0 status and a valid echo lead to the same verdict in either order. */
  lemma EitherOrderAccepts(t: Table, attempt: nat, id: nat, free: nat, now: int, later: int)
    requires t.Linked() && id != 0 && t.Open(id)
    requires t.Get(id).attempt == attempt && !t.Get(id).queueOK && !t.Get(id).echoOK
    ensures var dest := t.Get(id).destination;
            var a := OnEcho(OnStatus(t, id, 0, free, now), attempt, id, dest, true, later);
            var b := OnStatus(OnEcho(t, attempt, id, dest, true, now), id, 0, free, later);
            && a.Get(id).terminal == Accepted && a.Get(id).at == later
            && b.Get(id) == a.Get(id).(queueAt := later)
            && a.queueFree == b.queueFree && a.pending == b.pending
  {
  }

  /** What a QueueStatus means for the free count and for the open record that it names. */
  lemma StatusMeans(t: Table, id: nat, res: int, free: nat, now: int)
    requires t.Linked() && id != 0
    ensures var u := OnStatus(t, id, res, free, now);
            && u.queueKnown && u.queueFree == free && u.pending == t.pending
            && (!t.Open(id) ==> u.waiters == t.waiters)
            && (t.Open(id) ==>
                  && u.Linked()
                  && var w, v := t.Get(id), u.Get(id);
                     if res == 0 then
                       v.queueOK && v.queueAt == now
                       && (if w.echoOK then v.terminal == Accepted && v.at == now else v.terminal == Pending)
                     else
                       v.at == now && v.terminal == if res == 32 && free == 0 then QueueFull else Permanent)
  {
  }

  /** What a packet of the own node means for the open record that it names: a routing error
      is a verdict, an echo of the text to the same destination a confirmation.  Packets of
      other nodes, of other attempts and without meaning change nothing. */
  lemma PacketMeans(t: Table, attempt: nat, ownNode: nat, p: Packet, now: int)
    requires t.Linked()
    ensures var u := OnPacket(t, attempt, ownNode, p, now);
            var id := if p.content.Routing? then p.content.requestID else p.id;
            var heard := t.Open(id) && t.Get(id).attempt == attempt && (p.from == 0 || p.from == ownNode);
            && (!heard ==> u == t)
            && (heard ==>
                  && u.Linked() && id in u.pending
                  && var w, v := t.Get(id), u.Get(id);
                     match p.content
                     case Routing(_, None) => u == t
                     case Routing(_, Some(reason)) =>
                       if reason == NoError || id == 0 then u == t
                       else
                         v.at == now && v.terminal ==
                           if reason == RateLimitExceeded then Rate
                           else if reason == DutyCycleLimit then Duty else Permanent
                     case Payload(textEcho) =>
                       if p.dest != w.destination || !textEcho then u == t
                       else v.echoOK && (if w.queueOK then v.terminal == Accepted && v.at == now
                                         else v.terminal == Pending))
  {
    hide StatusFor;
  }

  // ----- the records themselves

  class Record {
    ghost const serial: nat
    const id: nat
    const destination: nat
    const attempt: nat
    var queueOK: bool
    var echoOK: bool
    var queueAt: int
    var terminal: Kind
    var at: int
    var duty: Option<nat>

    function View(): Waiter
      reads this
    {
      Waiter(id, destination, attempt, queueOK, echoOK, queueAt, terminal, at, duty)
    }

    constructor (ghost serial: nat, id: nat, destination: nat, attempt: nat)
      ensures this.serial == serial && this.id == id
      ensures View() == Waiter(id, destination, attempt, false, false, 0, Pending, 0, None)
    {
      this.serial := serial;
      this.id := id;
      this.destination := destination;
      this.attempt := attempt;
      queueOK, echoOK, queueAt := false, false, 0;
      terminal, at, duty := Pending, 0, None;
    }

    /** `finishLocked`. */
    method FinishLocked(kind: Kind, now: int)
      modifies this`terminal, this`at
      ensures View() == Finish(old(View()), kind, now)
    {
      if terminal != Pending {
        return;
      }
      terminal, at := kind, now;
    }

    /** The `switch` of `recordQueueStatus`. */
    method Status(res: int, free: nat, now: int)
      modifies this
      ensures View() == StatusFor(old(View()), res, free, now)
    {
      if res == 0 {
        queueOK, queueAt := true, now;
        if echoOK {
          FinishLocked(Accepted, now);
        }
      } else if res == 32 && free == 0 {
        FinishLocked(QueueFull, now);
      } else {
        FinishLocked(Permanent, now);
      }
    }

    /** The `switch` of `recordPacketControl`. */
    method Rejection(reason: Reason, now: int)
      modifies this
      ensures View() == RejectionFor(old(View()), reason, now)
    {
      match reason {
        case RateLimitExceeded => FinishLocked(Rate, now);
        case DutyCycleLimit => FinishLocked(Duty, now);
        case _ => FinishLocked(Permanent, now);
      }
    }

    /** The end of `recordPacketControl`. */
    method Echo(dest: nat, textEcho: bool, now: int)
      modifies this
      ensures View() == EchoFor(old(View()), dest, textEcho, now)
    {
      var validEcho := dest == destination && textEcho;
      if validEcho {
        echoOK := true;
        if queueOK {
          FinishLocked(Accepted, now);
        }
      }
    }

    method SetDuty(minutes: nat)
      modifies this
      ensures View() == old(View()).(duty := Some(minutes))
    {
      duty := Some(minutes);
    }
  }

  class PendingTable {
    var pending: map<nat, Record>
    var queueFree: nat
    var queueKnown: bool
    var dutyID: nat
    var dutyMinutes: Option<nat>
    /** All records made so far; each knows its place. */
    ghost var all: seq<Record>

    ghost predicate Valid()
      reads this, all
    {
      && (forall i :: 0 <= i < |all| ==> all[i].serial == i)
      && (forall id :: id in pending ==>
            && pending[id].serial < |all| && all[pending[id].serial] == pending[id]
            && pending[id].id == id)
    }

    ghost function Views(): (ws: seq<Waiter>)
      reads this, all
      ensures |ws| == |all| && forall i :: 0 <= i < |all| ==> ws[i] == all[i].View()
    {
      seq(|all|, i requires 0 <= i < |all| reads this, all => all[i].View())
    }

    ghost function View(): (t: Table)
      requires Valid()
      reads this, all
      ensures t.Linked()
    {
      Table(map id | id in pending :: pending[id].serial, Views(),
            queueFree, queueKnown, dutyID, dutyMinutes)
    }

    constructor ()
      ensures Valid() && View() == Table(map[], [], 0, false, 0, None)
    {
      pending, queueFree, queueKnown, dutyID, dutyMinutes, all := map[], 0, false, 0, None, [];
      new;
      assert Views() == [];
    }

    /** One record may have changed and nothing else: so may one place of the view. */
    twostate lemma OneChanged(r: Record)
      requires old(Valid()) && Valid() && all == old(all)
      requires r.serial < |all| && all[r.serial] == r
      requires forall i :: 0 <= i < |all| && i != r.serial ==> all[i].View() == old(all[i].View())
      ensures Views() == old(Views())[r.serial := r.View()]
    {
    }

    twostate lemma NoneChanged()
      requires old(Valid()) && Valid() && all == old(all)
      requires forall i :: 0 <= i < |all| ==> all[i].View() == old(all[i].View())
      ensures Views() == old(Views())
    {
    }

    /** `recordQueueStatus`. */
    method RecordQueueStatus(id: nat, res: int, free: nat, now: int)
      requires Valid()
      modifies this`queueFree, this`queueKnown, all
      ensures Valid() && all == old(all)
      ensures View() == OnStatus(old(View()), id, res, free, now)
    {
      hide StatusFor, Views;
      queueFree, queueKnown := free, true;
      if id != 0 && id in pending && pending[id].terminal == Pending {
        var a := pending[id];
        a.Status(res, free, now);
        OneChanged(a);
      } else {
        NoneChanged();
      }
    }

    /** The routing-error part of `recordPacketControl`. */
    method RoutingError(attempt: nat, id: nat, reason: Reason, now: int)
      requires Valid()
      modifies all
      ensures Valid() && all == old(all)
      ensures View() == OnRouting(old(View()), attempt, id, reason, now)
    {
      hide RejectionFor;
      if id in pending && pending[id].attempt == attempt && pending[id].terminal == Pending {
        var w := pending[id];
        w.Rejection(reason, now);
        OneChanged(w);
      } else {
        NoneChanged();
      }
    }

    /** The local-echo part of `recordPacketControl`. */
    method LocalEcho(attempt: nat, id: nat, dest: nat, textEcho: bool, now: int)
      requires Valid()
      modifies all
      ensures Valid() && all == old(all)
      ensures View() == OnEcho(old(View()), attempt, id, dest, textEcho, now)
    {
      hide EchoFor;
      if id !in pending || pending[id].attempt != attempt || pending[id].terminal != Pending {
        NoneChanged();
        return;
      }
      var w := pending[id];
      w.Echo(dest, textEcho, now);
      OneChanged(w);
    }

    /** `recordPacketControl`, for a packet received during `attempt`. */
    method RecordPacketControl(attempt: nat, ownNode: nat, p: Packet, now: int)
      requires Valid()
      modifies all
      ensures Valid() && all == old(all)
      ensures View() == OnPacket(old(View()), attempt, ownNode, p, now)
    {
      hide View, OnRouting, OnEcho, Valid;
      if p.from != 0 && p.from != ownNode {
        return;
      }
      match p.content {
        case Routing(requestID, decoded) =>
          if requestID == 0 || decoded.None? || decoded.value == NoError {
            return;
          }
          RoutingError(attempt, requestID, decoded.value, now);
        case Payload(textEcho) =>
          LocalEcho(attempt, p.id, p.dest, textEcho, now);
      }
    }

    /** A duty recovery under way takes over the minutes. */
    method UpdateRecovery(id: nat, minutes: nat)
      requires Valid()
      modifies this`dutyMinutes
      ensures Valid()
      ensures View() == old(View()).(dutyMinutes := if dutyID == id then Some(minutes) else old(dutyMinutes))
    {
      if dutyID == id {
        dutyMinutes := Some(minutes);
      }
      NoneChanged();
    }

    /** `recordNotification`, for a warning that names a packet and a number of minutes. */
    method RecordNotification(id: nat, minutes: nat)
      requires Valid()
      modifies this`dutyMinutes, all
      ensures Valid() && all == old(all)
      ensures View() == OnNotice(old(View()), id, minutes)
    {
      hide Views;
      if id in pending && pending[id].terminal == Pending {
        var a := pending[id];
        a.SetDuty(minutes);
        OneChanged(a);
      } else {
        NoneChanged();
      }
      UpdateRecovery(id, minutes);
    }

    /** One turn of the loop in `failPending`. */
    method FailOne(id: nat, attempt: nat, kind: Kind, now: int)
      requires Valid() && id in pending
      modifies all
      ensures Valid() && all == old(all)
      ensures View() == FailAt(old(View()), pending[id].serial, attempt, kind, now)
    {
      var a := pending[id];
      if a.attempt == attempt {
        a.FinishLocked(kind, now);
      }
      OneChanged(a);
    }

    method ForgetQueue()
      requires Valid()
      modifies this`queueKnown
      ensures Valid() && View() == old(View()).(queueKnown := false)
    {
      queueKnown := false;
      NoneChanged();
    }

    lemma ViewKeys()
      requires Valid()
      ensures View().pending.Keys == pending.Keys
      ensures forall id :: id in pending ==> View().pending[id] == pending[id].serial
    {
    }

    /** `failPending`: visits the table in whatever order the map yields it. */
    method FailPending(attempt: nat, kind: Kind, now: int)
      requires Valid()
      modifies this`queueKnown, all
      ensures Valid() && all == old(all)
      ensures View() == OnFail(old(View()), attempt, kind, now)
    {
      hide View, FailAt, OnFail, FailedOutside, Views, Valid;
      var ids := pending.Keys;
      ghost var was := View();
      ViewKeys();
      NoneVisited(was, attempt, kind, now);
      while ids != {}
        invariant Valid() && all == old(all) && ids <= pending.Keys
        invariant was.Linked() && was.pending.Keys == pending.Keys
        invariant forall id :: id in pending ==> was.pending[id] == pending[id].serial
        invariant View() == FailedOutside(was, ids, attempt, kind, now)
        decreases |ids|
      {
        var id :| id in ids;
        OneVisited(was, ids, id, attempt, kind, now);
        ids := ids - {id};
        FailOne(id, attempt, kind, now);
      }
      AllVisited(was, attempt, kind, now);
      ForgetQueue();
    }

    twostate lemma RegisteredViews(new w: Record)
      requires all == old(all) + [w]
      requires forall i :: 0 <= i < |old(all)| ==> old(all)[i].View() == old(all[i].View())
      ensures Views() == old(Views()) + [w.View()]
    {
    }

    twostate lemma RegisteredIds(new w: Record)
      requires old(Valid()) && Valid() && pending == old(pending)[w.id := w]
      ensures View().pending == old(View()).pending[w.id := w.serial]
    {
      hide Views, Valid, Table.Linked;
    }

    twostate lemma Registered(new w: Record)
      requires old(Valid()) && Valid() && all == old(all) + [w] && w.serial == |old(all)|
      requires pending == old(pending)[w.id := w]
      requires queueFree == old(queueFree) && queueKnown == old(queueKnown)
      requires dutyID == old(dutyID) && dutyMinutes == old(dutyMinutes)
      requires forall i :: 0 <= i < |old(all)| ==> old(all)[i].View() == old(all[i].View())
      requires w.View() == Waiter(w.id, w.destination, w.attempt, false, false, 0, Pending, 0, None)
      ensures View() == OnRegister(old(View()), w.id, w.destination, w.attempt)
    {
      hide Views, Valid, Table.Linked, Record.View;
      RegisteredViews(w);
      RegisteredIds(w);
    }

    /** Registration in `sendPhysical`; refused when the id is taken. */
    method Register(id: nat, destination: nat, attempt: nat) returns (ok: bool)
      requires Valid()
      modifies this`pending, this`all
      ensures Valid()
      ensures ok <==> id !in old(pending)
      ensures !ok ==> View() == old(View())
      ensures ok ==> View() == OnRegister(old(View()), id, destination, attempt)
    {
      if id in pending {
        return false;
      }
      var w := new Record(|all|, id, destination, attempt);
      pending := pending[id := w];
      all := all + [w];
      Registered(w);
      return true;
    }

    method FinishRecord(w: Record, kind: Kind, at: int)
      requires Valid() && w.serial < |all| && all[w.serial] == w
      modifies w
      ensures Valid() && all == old(all)
      ensures View() == OnFinish(old(View()), w.serial, kind, at)
    {
      w.FinishLocked(kind, at);
      OneChanged(w);
    }

    /** `removeExact`. */
    method RemoveExact(w: Record)
      requires Valid() && w.serial < |all| && all[w.serial] == w
      modifies this`pending
      ensures Valid() && all == old(all)
      ensures View() == OnRemove(old(View()), w.serial)
    {
      hide Views;
      NoneChanged();
      if w.id in pending && pending[w.id] == w {
        pending := pending - {w.id};
      }
    }

    lemma Shows(w: Record)
      requires Valid() && w.serial < |all| && all[w.serial] == w
      ensures |View().waiters| == |all| && View().waiters[w.serial] == w.View()
    {
    }

    /** `removeAcceptance`, for a record that is in the table. */
    method RemoveAcceptance(w: Record, fallback: Kind, now: int) returns (kind: Kind)
      requires Valid() && w.id in pending && pending[w.id] == w
      modifies this`pending, w
      ensures Valid() && all == old(all)
      ensures View() == OnRemove(OnFinish(old(View()), w.serial, fallback, now), w.serial)
      ensures kind == View().waiters[w.serial].terminal
    {
      hide View, OnRemove, OnFinish;
      FinishRecord(w, fallback, now);
      RemoveExact(w);
      kind := w.terminal;
      Shows(w);
    }

    /** The critical section of `waitAcceptance` after the quiet window. */
    method QuietAccept(w: Record)
      requires Valid() && w.serial < |all| && all[w.serial] == w
      modifies w
      ensures Valid() && all == old(all)
      ensures View() == OnQuiet(old(View()), w.serial)
      ensures w.View() ==
        if old(w.terminal) == Pending && old(w.queueOK)
        then old(w.View()).(terminal := Accepted, at := old(w.queueAt)) else old(w.View())
    {
      if w.terminal == Pending && w.queueOK {
        w.FinishLocked(Accepted, w.queueAt);
      }
      OneChanged(w);
    }
  }
}
