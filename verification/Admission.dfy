/**
 Who the agent's loopback server lets in (`packages/agent/src/server.ts`), as a state machine: each event is one
 handler's run between two `await`s. The pairing store beside it is its cached list, which may become any other
 list at any time, since other processes edit the file; what `runHostSocket` does on the wire is not part of it.
 */
module Admission {
  import opened Wrappers
  import opened Pairings

  const CALLER_ID_BASE: nat := 1_000_000
  const MAX_SOCKETS: nat := 16

  type SocketId = nat
  type UpgradeId = nat

  /** A header that is missing or repeated is `None`. */
  datatype Request = Request(path: string, host: Option<string>, origin: Option<string>)

  /** How far a socket has come; `Bound` keeps the pairing it proved itself with and where its nonce was redeemed. */
  datatype Phase =
    | Opened
    | Refreshing(pairingId: string)
    | Redeeming(pairing: Pairing)
    | Bound(proven: Pairing, redeemedAt: string)
    | TurnedAway

  datatype Socket = Socket(callerId: nat, host: string, origin: string, phase: Phase, ended: bool)

  datatype State = State(
    port: nat,
    pairings: seq<Pairing>,             // the store's cache
    pending: bool,                      // the store changed and has not told its listeners yet
    waiting: map<UpgradeId, Request>,   // upgrades waiting for the store's refresh
    sockets: map<SocketId, Socket>,
    nextCallerId: nat,
    stopping: bool)

  datatype Event =
    | Upgrade(upgrade: UpgradeId, request: Request)
    | Refreshed(upgrade: UpgradeId, socket: SocketId)      // `socket` names the socket it opens, if any
    | AuthFrame(socket: SocketId, pairingId: Option<string>)  // `None` is a frame that is not an auth frame
    | AuthRefreshed(socket: SocketId)
    | NonceAnswered(socket: SocketId, accepted: bool)
    | PeerClosed(socket: SocketId)
    | StoreChanged(pairings: seq<Pairing>)
    | Notified
    | Close

  datatype Answer = Refuse(status: nat) | Wait | CloseWith(code: nat) | Accept(callerId: nat) | Nothing

  function Decimal(n: nat): string {
    if n < 10 then [('0' as int + n) as char] else Decimal(n / 10) + [('0' as int + n % 10) as char]
  }

  predicate Loopback(host: string, port: nat) {
    host == "127.0.0.1:" + Decimal(port) || host == "localhost:" + Decimal(port)
  }

  predicate PairedOrigin(pairings: seq<Pairing>, origin: string) {
    exists i :: 0 <= i < |pairings| && pairings[i].origin == origin
  }

  /** What an upgrade request is told: refused before the handshake, or to wait for the refresh. */
  function UpgradeAnswer(s: State, r: Request): Answer {
    if r.path != "/host" then Refuse(404)
    else if r.host.None? || !Loopback(r.host.value, s.port) then Refuse(403)
    else Wait
  }

  /** And what it is told once the store has been refreshed. */
  function RefreshedAnswer(s: State, r: Request): Answer {
    if s.stopping then Refuse(503)
    else if r.origin.None? || !PairedOrigin(s.pairings, r.origin.value) then CloseWith(4403)
    else if |s.sockets| >= MAX_SOCKETS then CloseWith(4429)
    else Accept(s.nextCallerId)
  }

  function SetPhase(s: State, id: SocketId, phase: Phase): State
    requires id in s.sockets
  {
    s.(sockets := s.sockets[id := s.sockets[id].(phase := phase)])
  }

  predicate Gone(pairings: seq<Pairing>, socket: Socket) {
    socket.phase.Bound? && Find(pairings, socket.phase.proven.pairingId).None?
  }

  /** The pairing an authenticating socket may redeem for: one of the origin it came from. */
  function PairingFor(s: State, socket: Socket): Option<Pairing>
    requires socket.phase.Refreshing?
  {
    var found := Find(s.pairings, socket.phase.pairingId);
    if found.Some? && found.value.origin == socket.origin then found else None
  }

  function Step(s: State, e: Event): State {
    match e
    case Upgrade(upgrade, request) =>
      if UpgradeAnswer(s, request).Wait? then s.(waiting := s.waiting[upgrade := request]) else s
    case Refreshed(upgrade, socket) =>
      if upgrade !in s.waiting || socket in s.sockets then s
      else
        var r := s.waiting[upgrade];
        var s' := s.(waiting := s.waiting - {upgrade});
        if RefreshedAnswer(s, r).Accept? then
          var admitted := Socket(s.nextCallerId, r.host.GetOr(""), r.origin.GetOr(""), Opened, false);
          s'.(sockets := s.sockets[socket := admitted], nextCallerId := s.nextCallerId + 1)
        else s'
    case AuthFrame(id, pairingId) =>
      if id !in s.sockets || !s.sockets[id].phase.Opened? then s
      else SetPhase(s, id, if pairingId.None? then TurnedAway else Refreshing(pairingId.value))
    case AuthRefreshed(id) =>
      if id !in s.sockets || !s.sockets[id].phase.Refreshing? then s
      else
        var pairing := PairingFor(s, s.sockets[id]);
        SetPhase(s, id, if pairing.None? then TurnedAway else Redeeming(pairing.value))
    case NonceAnswered(id, accepted) =>
      if id !in s.sockets || !s.sockets[id].phase.Redeeming? then s
      else
        var pairing := s.sockets[id].phase.pairing;
        SetPhase(s, id,
          if accepted && Find(s.pairings, pairing.pairingId).Some? then Bound(pairing, pairing.serverUrl)
          else TurnedAway)
    case PeerClosed(id) => s.(sockets := s.sockets - {id})
    case StoreChanged(pairings) => s.(pairings := pairings, pending := true)
    case Notified =>
      if s.stopping then s.(pending := false)
      else s.(sockets := Pruned(s.sockets, s.pairings), pending := false)
    case Close => s.(stopping := true, sockets := AllEnded(s.sockets))
  }

  function Pruned(sockets: map<SocketId, Socket>, pairings: seq<Pairing>): map<SocketId, Socket> {
    map id | id in sockets :: if Gone(pairings, sockets[id]) then sockets[id].(ended := true) else sockets[id]
  }

  function AllEnded(sockets: map<SocketId, Socket>): map<SocketId, Socket> {
    map id | id in sockets :: sockets[id].(ended := true)
  }

  function Execute(s: State, es: seq<Event>): State {
    if es == [] then s else Step(Execute(s, es[..|es| - 1]), es[|es| - 1])
  }

  ghost predicate Init(s: State) {
    s.waiting == map[] && s.sockets == map[] && s.nextCallerId == CALLER_ID_BASE && !s.stopping
  }

  // The safety property

  /** A socket that is served: it came through loopback, from its pairing's origin, proven at its pairing's server. */
  predicate ServedRightly(s: State, socket: Socket) {
    && Loopback(socket.host, s.port)
    && (socket.phase.Redeeming? ==> socket.phase.pairing.origin == socket.origin)
    && (socket.phase.Bound? ==>
          && socket.phase.proven.origin == socket.origin
          && socket.phase.redeemedAt == socket.phase.proven.serverUrl
          && (Find(s.pairings, socket.phase.proven.pairingId).Some? || socket.ended || s.pending))
  }

  ghost predicate NumberedSafely(s: State) {
    && |s.sockets| <= MAX_SOCKETS && s.nextCallerId >= CALLER_ID_BASE
    && (forall id :: id in s.sockets ==> CALLER_ID_BASE <= s.sockets[id].callerId < s.nextCallerId)
    && (forall id, other :: id in s.sockets && other in s.sockets && id != other
                            ==> s.sockets[id].callerId != s.sockets[other].callerId)
  }

  ghost predicate AllServedRightly(s: State) {
    forall id :: id in s.sockets ==> ServedRightly(s, s.sockets[id])
  }

  predicate ThroughLoopback(r: Request, port: nat) {
    r.host.Some? && Loopback(r.host.value, port)
  }

  ghost predicate WaitedThroughLoopback(s: State) {
    forall u :: u in s.waiting ==> ThroughLoopback(s.waiting[u], s.port)
  }

  ghost predicate EndedOnceStopping(s: State) {
    s.stopping ==> forall id :: id in s.sockets ==> s.sockets[id].ended
  }

  ghost predicate Safe(s: State) {
    NumberedSafely(s) && AllServedRightly(s) && WaitedThroughLoopback(s) && EndedOnceStopping(s)
  }

  lemma SameKeysSameSize<V>(m: map<SocketId, V>, n: map<SocketId, V>)
    requires n.Keys <= m.Keys
    ensures |n| <= |m|
  {
    SubsetSize(n.Keys, m.Keys);
    assert |n| == |n.Keys| && |m| == |m.Keys|;
  }

  lemma {:induction false} SubsetSize(a: set<SocketId>, b: set<SocketId>)
    requires a <= b
    ensures |a| <= |b|
  {
    if a != {} {
      var x :| x in a;
      SubsetSize(a - {x}, b - {x});
    }
  }

  /** Whatever the event, a socket that was there keeps its caller id, host and origin, and an ended one stays ended. */
  lemma SocketsKeepIdentity(s: State, e: Event, id: SocketId)
    requires id in s.sockets && id in Step(s, e).sockets
    ensures var a, b := s.sockets[id], Step(s, e).sockets[id];
      b.callerId == a.callerId && b.host == a.host && b.origin == a.origin && (a.ended ==> b.ended)
  {
  }

  lemma OthersAdmitNone(s: State, e: Event)
    requires !e.Refreshed?
    ensures Step(s, e).sockets.Keys <= s.sockets.Keys
  {
  }

  /**
   A socket is added exactly by the refresh of an upgrade that waited, while the agent is not stopping, has fewer than
   16 and some pairing is of the upgrade's origin; it gets the next caller id.
   */
  lemma OnlyRefreshAdmits(s: State, e: Event, id: SocketId)
    requires id !in s.sockets
    ensures id in Step(s, e).sockets
            <==> e.Refreshed? && e.socket == id && e.upgrade in s.waiting && !s.stopping && |s.sockets| < MAX_SOCKETS
                 && s.waiting[e.upgrade].origin.Some? && PairedOrigin(s.pairings, s.waiting[e.upgrade].origin.value)
    ensures id in Step(s, e).sockets ==>
      && Step(s, e).sockets.Keys == s.sockets.Keys + {id} && Step(s, e).nextCallerId == s.nextCallerId + 1
      && Step(s, e).sockets[id].callerId == s.nextCallerId
  {
    if e.Refreshed? { RefreshAdmits(s, e, id); } else { OthersAdmitNone(s, e); }
  }

  lemma RefreshAdmits(s: State, e: Event, id: SocketId)
    requires id !in s.sockets && e.Refreshed?
    ensures id in Step(s, e).sockets
            <==> e.socket == id && e.upgrade in s.waiting && !s.stopping && |s.sockets| < MAX_SOCKETS
                 && s.waiting[e.upgrade].origin.Some? && PairedOrigin(s.pairings, s.waiting[e.upgrade].origin.value)
    ensures id in Step(s, e).sockets ==>
      && Step(s, e).sockets.Keys == s.sockets.Keys + {id} && Step(s, e).nextCallerId == s.nextCallerId + 1
      && Step(s, e).sockets[id].callerId == s.nextCallerId
  {
  }

  lemma WhenRedeeming(s: State, id: SocketId, named: string, atRefresh: seq<Pairing>)
    requires id in s.sockets && s.sockets[id].phase.Opened?
    ensures var a := Step(Step(s, AuthFrame(id, Some(named))), StoreChanged(atRefresh));
      var b := Step(a, AuthRefreshed(id));
      var found := Find(atRefresh, named);
      && id in b.sockets && b.sockets[id].origin == s.sockets[id].origin
      && b.sockets[id].phase
            == if found.Some? && found.value.origin == s.sockets[id].origin then Redeeming(found.value) else TurnedAway
  {
  }

  lemma WhenAnswered(s: State, id: SocketId, atAnswer: seq<Pairing>, accepted: bool)
    requires id in s.sockets && (s.sockets[id].phase.Redeeming? || s.sockets[id].phase.TurnedAway?)
    ensures var c := Step(Step(s, StoreChanged(atAnswer)), NonceAnswered(id, accepted));
      && id in c.sockets
      && (c.sockets[id].phase.Bound?
          <==> s.sockets[id].phase.Redeeming? && accepted
               && Find(atAnswer, s.sockets[id].phase.pairing.pairingId).Some?)
  {
  }

  /**
   A socket that names a pairing is bound to it exactly by these three answers in turn, each asked of the store then.
   */
  lemma WhenBound(s: State, id: SocketId, named: string, atRefresh: seq<Pairing>, atAnswer: seq<Pairing>,
                  accepted: bool)
    requires id in s.sockets && s.sockets[id].phase.Opened?
    ensures var a := Step(Step(s, AuthFrame(id, Some(named))), StoreChanged(atRefresh));
      var b := Step(a, AuthRefreshed(id));
      var c := Step(Step(b, StoreChanged(atAnswer)), NonceAnswered(id, accepted));
      && id in c.sockets
      && (c.sockets[id].phase.Bound?
          <==> Find(atRefresh, named).Some? && Find(atRefresh, named).value.origin == s.sockets[id].origin
               && accepted && Find(atAnswer, Find(atRefresh, named).value.pairingId).Some?)
  {
    WhenRedeeming(s, id, named, atRefresh);
    var named' := Step(Step(s, AuthFrame(id, Some(named))), StoreChanged(atRefresh));
    WhenAnswered(Step(named', AuthRefreshed(id)), id, atAnswer, accepted);
  }

  lemma NothingNewSameIds(s: State, e: Event)
    requires forall id :: id in Step(s, e).sockets ==> id in s.sockets
    ensures Step(s, e).nextCallerId >= s.nextCallerId
  {
  }

  lemma StepKeepsNumbers(s: State, e: Event)
    requires NumberedSafely(s)
    ensures NumberedSafely(Step(s, e))
  {
    var s' := Step(s, e);
    if id :| id in s'.sockets && id !in s.sockets {
      OnlyRefreshAdmits(s, e, id);
      assert |s'.sockets| == |s'.sockets.Keys| == |s.sockets.Keys| + 1 && |s.sockets| == |s.sockets.Keys|;
    } else {
      SameKeysSameSize(s.sockets, s'.sockets);
      NothingNewSameIds(s, e);
    }
    forall id | id in s'.sockets && id in s.sockets { SocketsKeepIdentity(s, e, id); }
    forall id | id in s'.sockets && id !in s.sockets { OnlyRefreshAdmits(s, e, id); }
  }

  lemma KeptSocketServed(s: State, e: Event, id: SocketId)
    requires id in s.sockets && id in Step(s, e).sockets && ServedRightly(s, s.sockets[id])
    requires s.stopping ==> s.sockets[id].ended
    ensures ServedRightly(Step(s, e), Step(s, e).sockets[id])
  {
  }

  lemma NewSocketServed(s: State, e: Event, id: SocketId)
    requires id !in s.sockets && id in Step(s, e).sockets && WaitedThroughLoopback(s)
    ensures ServedRightly(Step(s, e), Step(s, e).sockets[id])
  {
    OnlyRefreshAdmits(s, e, id);
    assert ThroughLoopback(s.waiting[e.upgrade], s.port);
  }

  lemma StepKeepsServed(s: State, e: Event)
    requires AllServedRightly(s) && WaitedThroughLoopback(s) && EndedOnceStopping(s)
    ensures AllServedRightly(Step(s, e))
  {
    forall id | id in Step(s, e).sockets ensures ServedRightly(Step(s, e), Step(s, e).sockets[id]) {
      if id in s.sockets { KeptSocketServed(s, e, id); } else { NewSocketServed(s, e, id); }
    }
  }

  lemma StepKeepsWaiting(s: State, e: Event)
    requires WaitedThroughLoopback(s)
    ensures WaitedThroughLoopback(Step(s, e))
  {
  }

  lemma StepKeepsStopped(s: State, e: Event)
    requires EndedOnceStopping(s)
    ensures EndedOnceStopping(Step(s, e))
  {
    forall id | id in Step(s, e).sockets && Step(s, e).stopping ensures Step(s, e).sockets[id].ended {
      if s.stopping {
        if id !in s.sockets { OnlyRefreshAdmits(s, e, id); } else { SocketsKeepIdentity(s, e, id); }
      }
    }
  }

  lemma StepKeepsSafe(s: State, e: Event)
    requires Safe(s)
    ensures Safe(Step(s, e))
  {
    StepKeepsNumbers(s, e);
    StepKeepsServed(s, e);
    StepKeepsWaiting(s, e);
    StepKeepsStopped(s, e);
  }

  /** In every reachable state every socket was let in rightly, and the bounds hold. */
  lemma {:induction false} AdmissionIsSafe(s: State, es: seq<Event>)
    requires Init(s)
    ensures Safe(Execute(s, es))
    decreases |es|
  {
    if es != [] {
      AdmissionIsSafe(s, es[..|es| - 1]);
      StepKeepsSafe(Execute(s, es[..|es| - 1]), es[|es| - 1]);
    }
  }

  /** Once `close()` has started, no run adds a socket. */
  lemma {:induction false} NoneAfterClose(s: State, es: seq<Event>)
    requires s.stopping
    ensures Execute(s, es).stopping && Execute(s, es).sockets.Keys <= s.sockets.Keys
    decreases |es|
  {
    if es != [] {
      var before, e := Execute(s, es[..|es| - 1]), es[|es| - 1];
      NoneAfterClose(s, es[..|es| - 1]);
      forall id | id in Step(before, e).sockets ensures id in before.sockets {
        if id !in before.sockets { OnlyRefreshAdmits(before, e, id); }
      }
    }
  }

  // Where a served socket's nonce was redeemed

  /** As `pair` makes them: the origin a server answers with must be the address it was paired at. */
  predicate AtOwnServer(pairing: Pairing) {
    pairing.origin == pairing.serverUrl
  }

  predicate AllAtOwnServer(pairings: seq<Pairing>) {
    forall i :: 0 <= i < |pairings| ==> AtOwnServer(pairings[i])
  }

  /** What `pair` keeps of a server's answer; `origin` is the canonical form of the one answered, if it has one. */
  function Paired(serverUrl: string, origin: Option<string>, pairingId: string, email: string, sshOptIn: bool,
                  createdAt: string, port: nat): Option<Pairing>
  {
    if origin.None? || origin.value != serverUrl then None
    else Some(Pairing(pairingId, serverUrl, origin.value, email, sshOptIn, createdAt, Some(port)))
  }

  /** Adding what `pair` keeps, like any other change, leaves every pairing of the file at its own server. */
  lemma {:induction false} FileKeepsOwnServers(change: Change, now: File)
    requires AllAtOwnServer(now.pairings) && Decide(change, Some(now)).Written?
    requires change.Add? ==> exists url, origin, id, email, ssh, at, port ::
               Paired(url, origin, id, email, ssh, at, port) == Some(change.pairing)
    ensures AllAtOwnServer(Decide(change, Some(now)).file.pairings)
  {
    match change
    case Add(pairing) => WithoutKeepsOwnServers(now.pairings, pairing.pairingId);
    case Remove(id) => WithoutKeepsOwnServers(now.pairings, id);
    case _ =>
  }

  lemma {:induction false} WithoutKeepsOwnServers(pairings: seq<Pairing>, id: string)
    requires AllAtOwnServer(pairings)
    ensures AllAtOwnServer(Without(pairings, id))
  {
    if pairings != [] { WithoutKeepsOwnServers(pairings[1..], id); }
  }

  lemma {:induction false} FoundAtOwnServer(pairings: seq<Pairing>, id: string)
    requires AllAtOwnServer(pairings) && Find(pairings, id).Some?
    ensures AtOwnServer(Find(pairings, id).value)
  {
    if pairings[0].pairingId != id { FoundAtOwnServer(pairings[1..], id); }
  }

  predicate AtOwnServerSocket(socket: Socket) {
    && (socket.phase.Redeeming? ==> AtOwnServer(socket.phase.pairing))
    && (socket.phase.Bound? ==> AtOwnServer(socket.phase.proven))
  }

  ghost predicate OwnServersOnly(s: State) {
    AllAtOwnServer(s.pairings) && forall id :: id in s.sockets ==> AtOwnServerSocket(s.sockets[id])
  }

  lemma SocketKeepsOwnServer(s: State, e: Event, id: SocketId)
    requires AllAtOwnServer(s.pairings) && id in Step(s, e).sockets
    requires id in s.sockets ==> AtOwnServerSocket(s.sockets[id])
    ensures AtOwnServerSocket(Step(s, e).sockets[id])
  {
    if e.AuthRefreshed? && e.socket == id && id in s.sockets && s.sockets[id].phase.Refreshing? {
      if PairingFor(s, s.sockets[id]).Some? { FoundAtOwnServer(s.pairings, s.sockets[id].phase.pairingId); }
    }
  }

  lemma StepKeepsOwnServers(s: State, e: Event)
    requires OwnServersOnly(s) && (e.StoreChanged? ==> AllAtOwnServer(e.pairings))
    ensures OwnServersOnly(Step(s, e))
  {
    forall id | id in Step(s, e).sockets ensures AtOwnServerSocket(Step(s, e).sockets[id]) {
      SocketKeepsOwnServer(s, e, id);
    }
  }

  /**
   With only pairings `pair` made in the file, every served socket's nonce was redeemed at the origin it came from.
   */
  lemma {:induction false} RedeemedAtOrigin(s: State, es: seq<Event>, id: SocketId)
    requires Init(s) && AllAtOwnServer(s.pairings)
    requires forall i :: 0 <= i < |es| && es[i].StoreChanged? ==> AllAtOwnServer(es[i].pairings)
    ensures OwnServersOnly(Execute(s, es))
    ensures id in Execute(s, es).sockets && Execute(s, es).sockets[id].phase.Bound?
            ==> Execute(s, es).sockets[id].phase.redeemedAt == Execute(s, es).sockets[id].origin
    decreases |es|
  {
    if es != [] {
      RedeemedAtOrigin(s, es[..|es| - 1], id);
      StepKeepsOwnServers(Execute(s, es[..|es| - 1]), es[|es| - 1]);
    }
    AdmissionIsSafe(s, es);
    OwnServerIsOrigin(Execute(s, es), id);
  }

  lemma OwnServerIsOrigin(s: State, id: SocketId)
    requires Safe(s) && OwnServersOnly(s)
    ensures id in s.sockets && s.sockets[id].phase.Bound? ==> s.sockets[id].phase.redeemedAt == s.sockets[id].origin
  {
    assert id in s.sockets ==> ServedRightly(s, s.sockets[id]) && AtOwnServerSocket(s.sockets[id]);
  }
}
