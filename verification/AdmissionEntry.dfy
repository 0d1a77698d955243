/** Which requests of a run end in a socket of the agent's loopback server, and what ends one, written out. */
module AdmissionEntry {
  import opened Wrappers
  import opened Pairings
  import opened Admission

  // The port as text

  function ValueOf(text: string): int {
    if text == "" then 0 else 10 * ValueOf(text[..|text| - 1]) + (text[|text| - 1] as int - '0' as int)
  }

  /** A port is written in decimal digits that spell it, without a leading zero. */
  lemma {:induction false} DecimalSpells(n: nat)
    ensures Decimal(n) != "" && ValueOf(Decimal(n)) == n
    ensures forall i :: 0 <= i < |Decimal(n)| ==> '0' <= Decimal(n)[i] <= '9'
    ensures n > 0 ==> Decimal(n)[0] != '0'
  {
    if n >= 10 {
      DecimalSpells(n / 10);
      assert Decimal(n)[..|Decimal(n)| - 1] == Decimal(n / 10);
    } else {
      assert Decimal(n)[..0] == "";
    }
  }

  // One request

  /** The one path and the two hosts of this server. */
  predicate IsForHere(r: Request, port: nat) {
    && r.path == "/host"
    && (r.host == Some("127.0.0.1:" + Decimal(port)) || r.host == Some("localhost:" + Decimal(port)))
  }

  predicate FromPaired(r: Request, pairings: seq<Pairing>) {
    r.origin.Some? && exists i :: 0 <= i < |pairings| && pairings[i].origin == r.origin.value
  }

  /**
   An upgrade, and then the refresh it waits for, open a socket if and only if it is for here, comes from the origin of
   a pairing, and the agent goes on and has fewer than 16 sockets; the socket is the request's, and not let in yet.
   */
  lemma WhenUpgradeOpens(s: State, upgrade: UpgradeId, r: Request, id: SocketId)
    requires upgrade !in s.waiting && id !in s.sockets
    ensures var t := Step(Step(s, Upgrade(upgrade, r)), Refreshed(upgrade, id));
      && (id in t.sockets <==> IsForHere(r, s.port) && FromPaired(r, s.pairings) && !s.stopping && |s.sockets| < 16)
      && (id in t.sockets ==>
            t.sockets == s.sockets[id := Socket(s.nextCallerId, r.host.value, r.origin.value, Opened, false)])
      && (id !in t.sockets ==> t.sockets == s.sockets)
  {
    UpgradeWaits(s, upgrade, r);
    RefreshOpens(if IsForHere(r, s.port) then s.(waiting := s.waiting[upgrade := r]) else s, upgrade, id);
  }

  lemma UpgradeWaits(s: State, upgrade: UpgradeId, r: Request)
    ensures Step(s, Upgrade(upgrade, r)) == if IsForHere(r, s.port) then s.(waiting := s.waiting[upgrade := r]) else s
  {
  }

  lemma RefreshOpens(s: State, upgrade: UpgradeId, id: SocketId)
    requires id !in s.sockets && (upgrade in s.waiting ==> s.waiting[upgrade].host.Some?)
    ensures var t := Step(s, Refreshed(upgrade, id));
      if upgrade in s.waiting && FromPaired(s.waiting[upgrade], s.pairings) && !s.stopping && |s.sockets| < 16 then
        var r := s.waiting[upgrade];
        t.sockets == s.sockets[id := Socket(s.nextCallerId, r.host.value, r.origin.value, Opened, false)]
      else t.sockets == s.sockets
  {
  }

  /** It waits no longer, so it opens no other socket, and the next caller has the next id. */
  lemma UpgradeOpensOnce(s: State, upgrade: UpgradeId, id: SocketId)
    requires upgrade in s.waiting && id !in s.sockets
    ensures var t := Step(s, Refreshed(upgrade, id));
      && t.waiting.Keys == s.waiting.Keys - {upgrade} && t.pairings == s.pairings
      && t.nextCallerId == (if id in t.sockets then s.nextCallerId + 1 else s.nextCallerId)
      && forall other :: Step(t, Refreshed(upgrade, other)) == t
  {
    RefreshAdmits(s, Refreshed(upgrade, id), id);
  }

  /** What it is told: 404 elsewhere, 403 under another host; then 503, 4403 or 4429, or which caller it is. */
  lemma UpgradeIsTold(s: State, r: Request)
    ensures UpgradeAnswer(s, r) == Refuse(404) <==> r.path != "/host"
    ensures UpgradeAnswer(s, r) == Refuse(403) <==> r.path == "/host" && !IsForHere(r, s.port)
    ensures UpgradeAnswer(s, r) == Wait <==> IsForHere(r, s.port)
    ensures RefreshedAnswer(s, r) == Refuse(503) <==> s.stopping
    ensures RefreshedAnswer(s, r) == CloseWith(4403) <==> !s.stopping && !FromPaired(r, s.pairings)
    ensures RefreshedAnswer(s, r) == CloseWith(4429) <==> !s.stopping && FromPaired(r, s.pairings) && |s.sockets| >= 16
    ensures RefreshedAnswer(s, r) == Accept(s.nextCallerId)
            <==> !s.stopping && FromPaired(r, s.pairings) && |s.sockets| < 16
  {
    assert FromPaired(r, s.pairings) <==> r.origin.Some? && PairedOrigin(s.pairings, r.origin.value);
  }

  // Every run

  /** The run has this upgrade, for here. */
  ghost predicate Asked(es: seq<Event>, upgrade: UpgradeId, r: Request, port: nat) {
    IsForHere(r, port) && Upgrade(upgrade, r) in es
  }

  /** And one with this host and origin. */
  ghost predicate CameIn(es: seq<Event>, socket: Socket, port: nat) {
    exists upgrade, r :: Asked(es, upgrade, r, port) && r.host == Some(socket.host) && r.origin == Some(socket.origin)
  }

  ghost predicate AllCameIn(es: seq<Event>, t: State) {
    && (forall u :: u in t.waiting ==> Asked(es, u, t.waiting[u], t.port))
    && (forall id :: id in t.sockets ==> CameIn(es, t.sockets[id], t.port))
  }

  lemma StillAsked(es: seq<Event>, upgrade: UpgradeId, r: Request, port: nat)
    requires es != [] && Asked(es[..|es| - 1], upgrade, r, port)
    ensures Asked(es, upgrade, r, port)
  {
    var i :| 0 <= i < |es| - 1 && es[..|es| - 1][i] == Upgrade(upgrade, r);
    assert es[i] == Upgrade(upgrade, r);
  }

  lemma StillCameIn(es: seq<Event>, before: Socket, after: Socket, port: nat)
    requires es != [] && CameIn(es[..|es| - 1], before, port)
             && after.host == before.host && after.origin == before.origin
    ensures CameIn(es, after, port)
  {
    var upgrade, r :| Asked(es[..|es| - 1], upgrade, r, port)
      && r.host == Some(before.host) && r.origin == Some(before.origin);
    StillAsked(es, upgrade, r, port);
  }

  lemma WaitingCameIn(es: seq<Event>, e: Event, before: State, u: UpgradeId)
    requires AllCameIn(es, before) && u in Step(before, e).waiting
    ensures Asked(es + [e], u, Step(before, e).waiting[u], before.port)
  {
    assert (es + [e])[..|es + [e]| - 1] == es;
    if u in before.waiting && Step(before, e).waiting[u] == before.waiting[u] {
      StillAsked(es + [e], u, before.waiting[u], before.port);
    } else {
      WaitingComesFrom(before, e, u);
      assert (es + [e])[|es|] == e;
    }
  }

  lemma WaitingComesFrom(s: State, e: Event, u: UpgradeId)
    requires u in Step(s, e).waiting && !(u in s.waiting && Step(s, e).waiting[u] == s.waiting[u])
    ensures e == Upgrade(u, Step(s, e).waiting[u]) && IsForHere(Step(s, e).waiting[u], s.port)
  {
  }

  lemma SocketCameIn(es: seq<Event>, e: Event, before: State, id: SocketId)
    requires AllCameIn(es, before) && id in Step(before, e).sockets
    ensures CameIn(es + [e], Step(before, e).sockets[id], before.port)
  {
    assert (es + [e])[..|es + [e]| - 1] == es;
    if id in before.sockets {
      SocketsKeepIdentity(before, e, id);
      StillCameIn(es + [e], before.sockets[id], Step(before, e).sockets[id], before.port);
    } else {
      OnlyRefreshAdmits(before, e, id);
      StillAsked(es + [e], e.upgrade, before.waiting[e.upgrade], before.port);
      NewSocketIsRequests(before, e, id);
    }
  }

  lemma NewSocketIsRequests(s: State, e: Event, id: SocketId)
    requires id !in s.sockets && id in Step(s, e).sockets && e.Refreshed? && e.upgrade in s.waiting
    requires s.waiting[e.upgrade].host.Some? && s.waiting[e.upgrade].origin.Some?
    ensures Step(s, e).sockets[id].host == s.waiting[e.upgrade].host.value
    ensures Step(s, e).sockets[id].origin == s.waiting[e.upgrade].origin.value
  {
    OnlyRefreshAdmits(s, e, id);
  }

  lemma StepKeepsPort(s: State, e: Event)
    ensures Step(s, e).port == s.port
  {
  }

  lemma NextCameIn(es: seq<Event>, e: Event, before: State, after: State)
    requires AllCameIn(es, before) && after == Step(before, e)
    ensures AllCameIn(es + [e], after)
  {
    StepKeepsPort(before, e);
    forall u | u in after.waiting ensures Asked(es + [e], u, after.waiting[u], after.port) {
      WaitingCameIn(es, e, before, u);
    }
    forall id | id in after.sockets ensures CameIn(es + [e], after.sockets[id], after.port) {
      SocketCameIn(es, e, before, id);
    }
  }

  /** In every run, each upgrade that waits and each socket came for the one path, by the port on a loopback name. */
  lemma {:induction false} SocketsCameForHere(s: State, es: seq<Event>)
    requires Init(s)
    ensures AllCameIn(es, Execute(s, es)) && Execute(s, es).port == s.port
    decreases |es|
  {
    if es != [] {
      var earlier, e := es[..|es| - 1], es[|es| - 1];
      SocketsCameForHere(s, earlier);
      StepKeepsPort(Execute(s, earlier), e);
      NextCameIn(earlier, e, Execute(s, earlier), Execute(s, es));
      assert earlier + [e] == es;
    }
  }

  // What ends a socket

  /** No pairing of the list has the id. */
  predicate IsUnpaired(pairings: seq<Pairing>, pairingId: string) {
    forall i :: 0 <= i < |pairings| ==> pairings[i].pairingId != pairingId
  }

  lemma {:induction false} FoundIsPaired(pairings: seq<Pairing>, pairingId: string)
    ensures Find(pairings, pairingId).None? <==> IsUnpaired(pairings, pairingId)
  {
    if pairings != [] {
      FoundIsPaired(pairings[1..], pairingId);
      if IsUnpaired(pairings, pairingId) {
        forall i | 0 <= i < |pairings[1..]| ensures pairings[1..][i].pairingId != pairingId {
          assert pairings[i + 1].pairingId != pairingId;
        }
      }
      if pairings[0].pairingId != pairingId && IsUnpaired(pairings[1..], pairingId) {
        forall i | 0 <= i < |pairings| ensures pairings[i].pairingId != pairingId {
          if i > 0 { assert pairings[1..][i - 1].pairingId != pairingId; }
        }
      }
    }
  }

  /**
   A socket goes only when its peer does, and is told to end exactly by `close()` or by news that its pairing is gone.
   */
  lemma WhenSocketEnds(s: State, e: Event, id: SocketId)
    requires id in s.sockets && !s.sockets[id].ended
    ensures id !in Step(s, e).sockets <==> e == PeerClosed(id)
    ensures id in Step(s, e).sockets ==>
      (Step(s, e).sockets[id].ended
       <==> e.Close? || (e.Notified? && !s.stopping && s.sockets[id].phase.Bound?
                         && IsUnpaired(s.pairings, s.sockets[id].phase.proven.pairingId)))
  {
    if s.sockets[id].phase.Bound? { FoundIsPaired(s.pairings, s.sockets[id].phase.proven.pairingId); }
  }

  /** In every run callers are numbered from 1000000 on, past every number the desktop gives, and no two alike. */
  lemma CallersAreNumbered(s: State, es: seq<Event>, id: SocketId, other: SocketId)
    requires Init(s) && id in Execute(s, es).sockets && other in Execute(s, es).sockets
    ensures var t := Execute(s, es);
      && 1_000_000 <= t.sockets[id].callerId < t.nextCallerId
      && (id != other ==> t.sockets[id].callerId != t.sockets[other].callerId)
  {
    AdmissionIsSafe(s, es);
  }
}
