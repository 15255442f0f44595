/** The receive loop of meshtastic.go: one connection attempt from its start to its teardown. */
module Lifecycle {
  import opened Options
  import opened Acceptance
  import opened Readiness

  class AttemptState {
    const serial: nat
    var configID: nat
    var gotMyInfo: bool
    var ownNode: nat
    var shortName: string
    var channels: map<nat, Role>
    var cancelled: bool
    /** Whether the handshake watchdog is set (in the source a local of runAttempt). */
    var watching: bool

    constructor (serial: nat, configID: nat)
      ensures this.serial == serial && this.configID == configID
      ensures !gotMyInfo && ownNode == 0 && shortName == "" && channels == map[] && !cancelled
    {
      this.serial, this.configID := serial, configID;
      gotMyInfo, ownNode, shortName, channels, cancelled, watching := false, 0, "", map[], false, false;
    }
  }

  /** What one receive brings: an envelope; a reboot, with the new config id if one could be
      drawn and whether the want-config went out; or the end of the stream. */
  datatype Arrival = Arrived(e: Envelope) | Rebooted(newID: Option<nat>, sent: bool) | Ended

  predicate Survivable(l: Link, arrival: Arrival) {
    match arrival
    case Arrived(e) => Process(l, e).Some?
    case Rebooted(newID, sent) => newID.Some? && sent
    case Ended => false
  }

  predicate Is(turn: Turn, arrival: Arrival) {
    match arrival
    case Arrived(e) => turn == Heard(e)
    case Rebooted(newID, _) => newID.Some? && turn == Reboot(newID.value)
    case Ended => false
  }

  /** The table after the first `n` arrivals: every reboot fails the open records of the attempt. */
  function Failures(t: Table, attempt: nat, arrivals: seq<Arrival>, times: seq<int>, n: nat): Table
    requires n <= |arrivals| == |times|
  {
    if n == 0 then t
    else
      var before := Failures(t, attempt, arrivals, times, n - 1);
      if arrivals[n - 1].Rebooted? then OnFail(before, attempt, Ambiguous, times[n - 1]) else before
  }

  lemma OneMoreTurn(l: Link, turns: seq<Turn>, turn: Turn)
    requires TakeAll(l, turns).Some?
    ensures TakeAll(l, turns + [turn]) == Take(TakeAll(l, turns).value, turn)
  {
    assert (turns + [turn])[..|turns|] == turns;
  }

  class Channel {
    var attempt: AttemptState?
    var ready: bool
    var ownNode: nat
    var shortName: string
    var channels: map<nat, Role>
    const table: PendingTable

    predicate Unpublished()
      reads this
    {
      ownNode == 0 && shortName == "" && channels == map[]
    }

    constructor (table: PendingTable)
      ensures this.table == table && !ready && attempt == null && Unpublished()
    {
      this.table := table;
      attempt, ready, ownNode, shortName, channels := null, false, 0, "", map[];
    }

    function LinkOf(a: AttemptState): Link
      reads this, a
    {
      Link(a.configID, a.gotMyInfo, a.ownNode, a.shortName, a.channels,
           ready, ownNode, shortName, channels, a.watching)
    }

    /** `publishReady`. */
    method PublishReady(a: AttemptState)
      modifies this`ready, this`ownNode, this`shortName, this`channels
      ensures attempt == a ==>
        LinkOf(a) == old(LinkOf(a)).(ready := true, readyNode := a.ownNode, readyName := a.shortName,
                                     readyChannels := a.channels)
      ensures attempt != a ==> LinkOf(a) == old(LinkOf(a))
    {
      if attempt == a {
        ready, ownNode, shortName, channels := true, a.ownNode, a.shortName, a.channels;
      }
    }

    /** The handshake part of `processEnvelope`. */
    method ProcessEnvelope(a: AttemptState, e: Envelope) returns (ok: bool)
      requires attempt == a
      modifies this`ready, this`ownNode, this`shortName, this`channels
      modifies a`gotMyInfo, a`ownNode, a`shortName, a`channels
      ensures ok == Process(old(LinkOf(a)), e).Some?
      ensures LinkOf(a) == if ok then Process(old(LinkOf(a)), e).value else old(LinkOf(a))
    {
      match e {
        case MyInfo(num) =>
          a.ownNode := num;
          a.gotMyInfo := a.ownNode != 0;
        case NodeInfo(num, user) =>
          if a.ownNode != 0 && num == a.ownNode && user.Some? {
            a.shortName := user.value;
          }
        case ChannelInfo(index, role) =>
          if index >= 0 && index <= 7 {
            a.channels := a.channels[index as nat := role];
          }
        case ConfigComplete(id) =>
          if id == a.configID {
            if !a.gotMyInfo {
              return false;
            }
            PublishReady(a);
          }
        case Other =>
      }
      return true;
    }

    /** `invalidateAttempt`. */
    method InvalidateAttempt(a: AttemptState, kind: Kind, now: int)
      requires table.Valid()
      modifies this`ready, this`ownNode, this`shortName, this`channels, table`queueKnown, table.all
      ensures table.Valid() && table.all == old(table.all)
      ensures table.View() == OnFail(old(table.View()), a.serial, kind, now)
      ensures attempt == a ==>
        LinkOf(a) == old(LinkOf(a)).(ready := false, readyNode := 0, readyName := "", readyChannels := map[])
      ensures attempt != a ==> LinkOf(a) == old(LinkOf(a))
    {
      hide OnFail, PendingTable.View, PendingTable.Valid;
      if attempt == a {
        ready, ownNode, shortName, channels := false, 0, "", map[];
      }
      table.FailPending(a.serial, kind, now);
    }

    /** One turn of the loop in `runAttempt`; `alive` says whether the loop goes on. */
    method OneArrival(a: AttemptState, arrival: Arrival, now: int) returns (alive: bool, ghost turn: Option<Turn>)
      requires attempt == a && table.Valid()
      modifies this`ready, this`ownNode, this`shortName, this`channels, a, table`queueKnown, table.all
      ensures table.Valid() && table.all == old(table.all)
      ensures alive <==> Survivable(old(LinkOf(a)), arrival)
      ensures alive ==> turn.Some? && Is(turn.value, arrival) && Take(old(LinkOf(a)), turn.value) == Some(LinkOf(a))
      ensures arrival.Rebooted? ==> !ready
      ensures !alive && !arrival.Rebooted? ==> LinkOf(a) == old(LinkOf(a))
      ensures table.View() ==
        if arrival.Rebooted? then OnFail(old(table.View()), a.serial, Ambiguous, now) else old(table.View())
    {
      hide OnFail, PendingTable.View, PendingTable.Valid;
      turn := None;
      match arrival {
        case Ended =>
          return false, None;
        case Rebooted(newID, sent) =>
          InvalidateAttempt(a, Ambiguous, now);
          if newID.None? {
            return false, None;
          }
          a.configID, a.gotMyInfo, a.ownNode, a.shortName := newID.value, false, 0, "";
          a.channels := map[];
          if !sent {
            return false, None;
          }
          if !a.watching {
            a.watching := true;
          }
          return true, Some(Reboot(newID.value));
        case Arrived(e) =>
          var readyBefore := attempt == a && ready;
          var ok := ProcessEnvelope(a, e);
          if !ok {
            return false, None;
          }
          if !readyBefore && attempt == a && ready {
            a.watching := false;
          }
          return true, Some(Heard(e));
      }
    }

    lemma Starts(a: AttemptState)
      requires !a.gotMyInfo && a.ownNode == 0 && a.shortName == "" && a.channels == map[] && a.watching
      requires Unpublished() && !ready
      ensures TakeAll(Begin(a.configID), []) == Some(LinkOf(a))
    {
    }

    /** `runAttempt` on an open transport that took the want-config.  It takes the arrivals
        for as long as the attempt can go on, and then the state is that of `TakeAll`; it stops
        early exactly at the first arrival that the attempt cannot survive. */
    method RunAttempt(a: AttemptState, arrivals: seq<Arrival>, times: seq<int>)
        returns (alive: bool, ghost turns: seq<Turn>)
      requires table.Valid() && |times| == |arrivals|
      requires !a.gotMyInfo && a.ownNode == 0 && a.shortName == "" && a.channels == map[] && Unpublished()
      modifies this, a, table`queueKnown, table.all
      ensures table.Valid() && table.all == old(table.all) && attempt == a
      ensures |turns| <= |arrivals|
      ensures forall k :: 0 <= k < |turns| ==> Is(turns[k], arrivals[k])
      ensures TakeAll(Begin(old(a.configID)), turns).Some?
      ensures alive ==>
        && |turns| == |arrivals|
        && TakeAll(Begin(old(a.configID)), turns) == Some(LinkOf(a)) && LinkOK(Since(turns), LinkOf(a))
      ensures !alive ==>
        && |turns| < |arrivals|
        && !Survivable(TakeAll(Begin(old(a.configID)), turns).value, arrivals[|turns|])
        && (if arrivals[|turns|].Rebooted? then !ready
            else TakeAll(Begin(old(a.configID)), turns) == Some(LinkOf(a)))
      ensures table.View() ==
        Failures(old(table.View()), a.serial, arrivals, times, if alive then |turns| else |turns| + 1)
    {
      hide LinkOK, Since, TakeAll, Take, Is, LinkOf, Survivable, PendingTable.View, OnFail, PendingTable.Valid, Begin;
      attempt, ready := a, false;
      a.watching := true;
      alive, turns := true, [];
      Starts(a);
      ReadinessHolds(a.configID, []);
      var i := 0;
      while i < |arrivals|
        invariant i <= |arrivals| && |turns| == i
        invariant attempt == a && table.Valid() && table.all == old(table.all)
        invariant TakeAll(Begin(old(a.configID)), turns) == Some(LinkOf(a))
        invariant LinkOK(Since(turns), LinkOf(a))
        invariant forall k :: 0 <= k < |turns| ==> Is(turns[k], arrivals[k])
        invariant alive && table.View() == Failures(old(table.View()), a.serial, arrivals, times, i)
      {
        ghost var turn;
        alive, turn := OneArrival(a, arrivals[i], times[i]);
        if !alive {
          return;
        }
        OneMoreTurn(Begin(old(a.configID)), turns, turn.value);
        turns := turns + [turn.value];
        ReadinessHolds(old(a.configID), turns);
        i := i + 1;
      }
    }

    /** `teardownAttempt`: not ready any more, and no record of the attempt is left open. */
    method TeardownAttempt(a: AttemptState, now: int)
      requires table.Valid() && attempt == a
      modifies this`ready, this`ownNode, this`shortName, this`channels, a`cancelled, table`queueKnown, table.all
      ensures table.Valid() && !ready && a.cancelled && Unpublished()
      ensures table.pending == old(table.pending)
      ensures table.View() == OnFail(old(table.View()), a.serial, Ambiguous, now)
      ensures forall id :: id in table.pending && table.pending[id].attempt == a.serial ==>
        table.pending[id].terminal != Pending
    {
      ghost var was := table.View();
      InvalidateAttempt(a, Ambiguous, now);
      a.cancelled := true;
      forall id | id in table.pending && table.pending[id].attempt == a.serial
        ensures table.pending[id].terminal != Pending
      {
        var r := table.pending[id];
        table.Shows(r);
        assert was.pending[id] == r.serial;
        FailureLeavesNoneOpen(was, a.serial, Ambiguous, now, id);
      }
    }
  }
}
