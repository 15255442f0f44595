/** Readiness: the configuration handshake, reboots and the end of a connection attempt. */
module Readiness {
  import opened Options
  import opened Acceptance

  datatype Role = Disabled | Primary | Secondary

  predicate UsableRole(r: Role) { r == Primary || r == Secondary }

  /** The messages of the handshake; anything else leaves readiness alone. */
  datatype Envelope =
    | MyInfo(num: nat)
    | NodeInfo(num: nat, user: Option<string>)
    | ChannelInfo(index: int, role: Role)
    | ConfigComplete(id: nat)
    | Other

  /** The attempt's own fields, what the channel has published of them, and whether the
      handshake watchdog is running. */
  datatype Link = Link(
    configID: nat, gotMyInfo: bool, ownNode: nat, shortName: string, channels: map<nat, Role>,
    ready: bool, readyNode: nat, readyName: string, readyChannels: map<nat, Role>,
    watching: bool)

  /** The start of an attempt, after setAttempt and the first want-config. */
  function Begin(configID: nat): Link {
    Link(configID, false, 0, "", map[], false, 0, "", map[], true)
  }

  /** `processEnvelope`; None when the handshake completes without a node number. */
  function Process(l: Link, e: Envelope): Option<Link> {
    match e
    case MyInfo(num) => Some(l.(ownNode := num, gotMyInfo := num != 0))
    case NodeInfo(num, user) =>
      Some(if l.ownNode != 0 && num == l.ownNode && user.Some? then l.(shortName := user.value) else l)
    case ChannelInfo(index, role) =>
      Some(if 0 <= index <= 7 then l.(channels := l.channels[index as nat := role]) else l)
    case ConfigComplete(id) =>
      if id != l.configID then Some(l)
      else if !l.gotMyInfo then None
      else Some(l.(ready := true, readyNode := l.ownNode, readyName := l.shortName,
                   readyChannels := l.channels))
    case Other => Some(l)
  }

  /** One turn of the receive loop: an envelope, or a reboot with its new config id. */
  datatype Turn = Heard(e: Envelope) | Reboot(newID: nat)

  function Take(l: Link, turn: Turn): Option<Link> {
    match turn
    case Reboot(id) =>
      Some(l.(configID := id, gotMyInfo := false, ownNode := 0, shortName := "", channels := map[],
              ready := false, readyNode := 0, readyName := "", readyChannels := map[],
              watching := true))
    case Heard(e) =>
      var next := Process(l, e);
      if next.None? then None
      else if !l.ready && next.value.ready then Some(next.value.(watching := false)) else next
  }

  /** The state at the loop head after these turns, if the attempt is still alive. */
  function TakeAll(l: Link, turns: seq<Turn>): Option<Link>
    decreases |turns|
  {
    if turns == [] then Some(l)
    else
      var before := TakeAll(l, turns[..|turns| - 1]);
      if before.None? then None else Take(before.value, turns[|turns| - 1])
  }

  // ----- what has been heard since the attempt began or the radio rebooted

  function Since(turns: seq<Turn>): seq<Envelope>
    decreases |turns|
  {
    if turns == [] then []
    else
      match turns[|turns| - 1]
      case Reboot(_) => []
      case Heard(e) => Since(turns[..|turns| - 1]) + [e]
  }

  /** The config id asked for last. */
  function CurrentID(first: nat, turns: seq<Turn>): nat
    decreases |turns|
  {
    if turns == [] then first
    else
      match turns[|turns| - 1]
      case Reboot(id) => id
      case Heard(_) => CurrentID(first, turns[..|turns| - 1])
  }

  /** The node number reported last, zero if none. */
  ghost predicate LatestNode(heard: seq<Envelope>, num: nat) {
    || (num == 0 && forall i :: 0 <= i < |heard| ==> !heard[i].MyInfo?)
    || exists i :: 0 <= i < |heard| && heard[i] == MyInfo(num) && forall k :: i < k < |heard| ==> !heard[k].MyInfo?
  }

  predicate RoleKept(heard: seq<Envelope>, lo: nat, k: nat) {
    forall j :: lo <= j < |heard| ==> !(heard[j].ChannelInfo? && heard[j].index == k)
  }

  ghost predicate RoleOf(heard: seq<Envelope>, k: nat, role: Role) {
    exists i :: 0 <= i < |heard| && heard[i] == ChannelInfo(k, role) && RoleKept(heard, i + 1, k)
  }

  /** Message `i` names the node whose number had been reported by then. */
  ghost predicate Naming(heard: seq<Envelope>, i: int)
    requires 0 <= i < |heard|
  {
    && heard[i].NodeInfo? && heard[i].user.Some?
    && heard[i].num != 0 && LatestNode(heard[..i], heard[i].num)
  }

  /** The name reported last for the own node, empty if none. */
  ghost predicate LatestName(heard: seq<Envelope>, name: string) {
    || (name == "" && forall i :: 0 <= i < |heard| ==> !Naming(heard, i))
    || exists i :: 0 <= i < |heard| && Naming(heard, i) && heard[i].user == Some(name)
         && forall k :: i < k < |heard| ==> !Naming(heard, k)
  }

  /** The roles reported last, for the indices 0..7. */
  ghost predicate LatestRoles(heard: seq<Envelope>, roles: map<nat, Role>) {
    && (forall k :: k in roles ==> k <= 7 && RoleOf(heard, k, roles[k]))
    && (forall i :: 0 <= i < |heard| && heard[i].ChannelInfo? && 0 <= heard[i].index <= 7 ==>
          heard[i].index as nat in roles)
  }

  /** `j` is the latest matching completion. */
  ghost predicate Completed(heard: seq<Envelope>, id: nat, j: nat) {
    && j < |heard| && heard[j] == ConfigComplete(id)
    && forall k :: j < k < |heard| ==> heard[k] != ConfigComplete(id)
  }

  /** The attempt has collected what was last reported. */
  ghost predicate Collected(heard: seq<Envelope>, node: nat, name: string, roles: map<nat, Role>) {
    LatestNode(heard, node) && LatestName(heard, name) && LatestRoles(heard, roles)
  }

  /** Ready means: a completion with the current config id was heard since the attempt began
      or the radio last rebooted, and what is published was collected by then, with a node
      number that is not zero.  Without one, there has been no such completion. */
  ghost predicate ReadyMeans(heard: seq<Envelope>, l: Link) {
    if l.ready then
      && l.readyNode != 0
      && exists j: nat :: Completed(heard, l.configID, j)
           && Collected(heard[..j], l.readyNode, l.readyName, l.readyChannels)
    else forall k :: 0 <= k < |heard| ==> heard[k] != ConfigComplete(l.configID)
  }

  ghost predicate LinkOK(heard: seq<Envelope>, l: Link) {
    && Collected(heard, l.ownNode, l.shortName, l.channels)
    && (l.gotMyInfo <==> l.ownNode != 0)
    && ReadyMeans(heard, l)
    && (l.watching <==> !l.ready)
  }

  lemma NodeMore(heard: seq<Envelope>, e: Envelope, node: nat)
    requires LatestNode(heard, node)
    ensures LatestNode(heard + [e], if e.MyInfo? then e.num else node)
  {
    var all := heard + [e];
    if e.MyInfo? {
      assert all[|heard|] == e;
    } else if !(node == 0 && forall i :: 0 <= i < |heard| ==> !heard[i].MyInfo?) {
      var i :| 0 <= i < |heard| && heard[i] == MyInfo(node) && forall k :: i < k < |heard| ==> !heard[k].MyInfo?;
      assert all[i] == MyInfo(node);
    }
  }

  lemma OneLatestNode(heard: seq<Envelope>, a: nat, b: nat)
    requires LatestNode(heard, a) && LatestNode(heard, b)
    ensures a == b
  {
  }

  lemma NamingBefore(heard: seq<Envelope>, e: Envelope, i: nat)
    requires i < |heard|
    ensures Naming(heard + [e], i) == Naming(heard, i)
  {
    assert (heard + [e])[..i] == heard[..i];
  }

  lemma NameMore(heard: seq<Envelope>, e: Envelope, l: Link)
    requires LatestNode(heard, l.ownNode) && LatestName(heard, l.shortName) && Process(l, e).Some?
    ensures LatestName(heard + [e], Process(l, e).value.shortName)
  {
    hide LatestNode;
    var all := heard + [e];
    assert all[..|heard|] == heard && all[|heard|] == e;
    forall i | 0 <= i < |heard|
      ensures Naming(all, i) == Naming(heard, i) && all[i] == heard[i]
    {
      NamingBefore(heard, e, i);
    }
    if Naming(all, |heard|) {
      OneLatestNode(heard, l.ownNode, e.num);
    } else if exists i :: 0 <= i < |heard| && Naming(heard, i) {
      var i :| 0 <= i < |heard| && Naming(heard, i) && heard[i].user == Some(l.shortName)
        && forall k :: i < k < |heard| ==> !Naming(heard, k);
      assert Naming(all, i);
    }
  }

  lemma RoleMore(heard: seq<Envelope>, e: Envelope, roles: map<nat, Role>, k: nat)
    requires LatestRoles(heard, roles)
    requires k in roles || (e.ChannelInfo? && e.index == k <= 7)
    ensures k <= 7
    ensures RoleOf(heard + [e], k, if e.ChannelInfo? && e.index == k then e.role else roles[k])
  {
    var all := heard + [e];
    if e.ChannelInfo? && e.index == k {
      assert all[|heard|] == ChannelInfo(k, e.role) && RoleKept(all, |heard| + 1, k);
    } else {
      var i :| 0 <= i < |heard| && heard[i] == ChannelInfo(k, roles[k]) && RoleKept(heard, i + 1, k);
      assert all[i] == heard[i] && RoleKept(all, i + 1, k);
    }
  }

  lemma RolesMore(heard: seq<Envelope>, e: Envelope, roles: map<nat, Role>)
    requires LatestRoles(heard, roles)
    ensures LatestRoles(heard + [e],
      if e.ChannelInfo? && 0 <= e.index <= 7 then roles[e.index as nat := e.role] else roles)
  {
    var all := heard + [e];
    var roles' := if e.ChannelInfo? && 0 <= e.index <= 7 then roles[e.index as nat := e.role] else roles;
    forall k | k in roles'
      ensures k <= 7 && RoleOf(all, k, roles'[k])
    {
      RoleMore(heard, e, roles, k);
    }
  }

  lemma CollectsMore(heard: seq<Envelope>, e: Envelope, l: Link)
    requires Collected(heard, l.ownNode, l.shortName, l.channels) && Process(l, e).Some?
    ensures var next := Process(l, e).value;
            Collected(heard + [e], next.ownNode, next.shortName, next.channels)
  {
    var next := Process(l, e).value;
    NodeMore(heard, e, l.ownNode);
    NameMore(heard, e, l);
    RolesMore(heard, e, l.channels);
  }

  lemma ReadyMore(heard: seq<Envelope>, e: Envelope, l: Link)
    requires LinkOK(heard, l) && Process(l, e).Some?
    ensures ReadyMeans(heard + [e], Process(l, e).value)
  {
    hide Collected;
    var all, next := heard + [e], Process(l, e).value;
    if e == ConfigComplete(l.configID) {
      assert all[|heard|] == e && all[..|heard|] == heard;
      assert Completed(all, l.configID, |heard|);
    } else if l.ready {
      var j: nat :| Completed(heard, l.configID, j) && Collected(heard[..j], l.readyNode, l.readyName, l.readyChannels);
      assert all[..j] == heard[..j] && Completed(all, l.configID, j);
    }
  }

  /** The handshake fails exactly when it is completed while no node number, or zero, is the
      one reported last. */
  lemma CompletionFailsIff(heard: seq<Envelope>, l: Link, e: Envelope)
    requires LinkOK(heard, l)
    ensures Process(l, e).None? <==> e == ConfigComplete(l.configID) && LatestNode(heard, 0)
  {
    hide LatestNode, LatestName, LatestRoles, ReadyMeans;
    if LatestNode(heard, 0) {
      OneLatestNode(heard, 0, l.ownNode);
    }
  }

  lemma CollectsNothing()
    ensures Collected([], 0, "", map[])
  {
  }

  /** Readiness in every state at the loop head: for all turns of an attempt, ready holds
      exactly when a completion with the current config id was heard since the attempt began
      or the radio last rebooted; what is published was collected by then, with a non-zero
      node number; and the handshake watchdog runs exactly while the attempt is not ready. */
  lemma {:induction false} ReadinessHolds(configID: nat, turns: seq<Turn>)
    requires TakeAll(Begin(configID), turns).Some?
    ensures LinkOK(Since(turns), TakeAll(Begin(configID), turns).value)
    ensures TakeAll(Begin(configID), turns).value.configID == CurrentID(configID, turns)
    decreases |turns|
  {
    hide Collected;
    if turns == [] {
      CollectsNothing();
    } else {
      var before := turns[..|turns| - 1];
      ReadinessHolds(configID, before);
      var l := TakeAll(Begin(configID), before).value;
      match turns[|turns| - 1] {
        case Reboot(_) => CollectsNothing();
        case Heard(e) =>
          CollectsMore(Since(before), e, l);
          ReadyMore(Since(before), e, l);
      }
    }
  }

  /** After an attempt has failed, none of its registered records is still open. */
  lemma FailureLeavesNoneOpen(t: Table, attempt: nat, kind: Kind, now: int, id: nat)
    requires t.Linked() && id in t.pending && t.Get(id).attempt == attempt && kind != Pending
    ensures OnFail(t, attempt, kind, now).Linked()
    ensures OnFail(t, attempt, kind, now).Get(id).terminal != Pending
  {
    forall k | k in t.pending
      ensures OnFail(t, attempt, kind, now).waiters[t.pending[k]].id == k
    {
    }
  }
}
