/**
 A pairing id that comes to mean another server. The agent looks a bound socket's pairing up by its id alone, so whether
 the socket is still served for the server it was proven at is a matter of the lists the store's cache goes through.
 */
module ServedServers {
  import opened Wrappers
  import opened Pairings
  import opened Admission

  /** What the list says of the pairing's id, if anything, is its server. */
  predicate Agrees(pairings: seq<Pairing>, proven: Pairing) {
    var found := Find(pairings, proven.pairingId);
    found.Some? ==> found.value.serverUrl == proven.serverUrl
  }

  /** The socket is bound and has not been told to end. */
  predicate Serves(s: State, id: SocketId) {
    id in s.sockets && s.sockets[id].phase.Bound? && !s.sockets[id].ended
  }

  /** Every socket still served is served for the server the list has under its pairing's id. */
  ghost predicate Matching(s: State) {
    forall id :: Serves(s, id) ==> Agrees(s.pairings, s.sockets[id].phase.proven)
  }

  predicate Holding(pairings: seq<Pairing>, pairingId: string) {
    Find(pairings, pairingId).Some?
  }

  // What the cache goes through in a run

  function Last(es: seq<Event>): Event
    requires es != []
  {
    es[|es| - 1]
  }

  function Earlier(es: seq<Event>): seq<Event>
    requires es != []
  {
    es[..|es| - 1]
  }

  /** The id left the list since the listeners were last told. */
  predicate LeftUnheard(s: State, es: seq<Event>, pairingId: string)
    decreases |es|
  {
    es != [] && !Last(es).Notified? &&
    (LeftUnheard(s, Earlier(es), pairingId) ||
     (Last(es).StoreChanged? && Holding(Execute(s, Earlier(es)).pairings, pairingId)
       && !Holding(Last(es).pairings, pairingId)))
  }

  predicate IsRedeeming(s: State, id: SocketId) {
    id in s.sockets && s.sockets[id].phase.Redeeming?
  }

  /** The id of the pairing the socket redeems for left the list since it was looked up there. */
  predicate LeftWhileRedeeming(s: State, es: seq<Event>, id: SocketId)
    decreases |es|
  {
    es != [] && IsRedeeming(Execute(s, Earlier(es)), id) && IsRedeeming(Execute(s, es), id) &&
    (LeftWhileRedeeming(s, Earlier(es), id) ||
     (Last(es).StoreChanged? && !Holding(Last(es).pairings, Execute(s, es).sockets[id].phase.pairing.pairingId)))
  }

  /**
   Each list the cache takes over has the ids it keeps at their servers: so does each version of the file after the one
   before it (`StoreTheorems.PairingIdsStayPinned`), but a refresh may miss one.
   */
  ghost predicate ServersKept(s: State, es: seq<Event>)
    decreases |es|
  {
    es == [] ||
    (ServersKept(s, Earlier(es)) &&
     (Last(es).StoreChanged? ==> SameServers(Execute(s, Earlier(es)).pairings, Last(es).pairings)))
  }

  /**
   The cache takes over a list only once the listeners were told of the one before: the store's work goes one piece
   after the other, and each change of the cache is told before the next work begins.
   */
  predicate ToldInTurn(s: State, es: seq<Event>)
    decreases |es|
  {
    es == [] ||
    (ToldInTurn(s, Earlier(es)) && (Last(es).StoreChanged? ==> !Execute(s, Earlier(es)).pending))
  }

  predicate BackForSocket(s: State, es: seq<Event>, pairings: seq<Pairing>, id: SocketId) {
    LeftWhileRedeeming(s, es, id) && Holding(pairings, Execute(s, es).sockets[id].phase.pairing.pairingId)
  }

  /** No id that left comes back to the list while a socket still redeems for it. */
  ghost predicate AnsweredBeforeBack(s: State, es: seq<Event>)
    decreases |es|
  {
    es == [] ||
    (AnsweredBeforeBack(s, Earlier(es)) &&
     (Last(es).StoreChanged? ==> forall id :: !BackForSocket(s, Earlier(es), Last(es).pairings, id)))
  }

  // The invariant

  /** An id whose leaving was not heard yet still has its notification to come, */
  lemma {:induction false} UnheardIsPending(s: State, es: seq<Event>, pairingId: string)
    requires LeftUnheard(s, es, pairingId)
    ensures Execute(s, es).pending
    decreases |es|
  {
    if LeftUnheard(s, Earlier(es), pairingId) { UnheardIsPending(s, Earlier(es), pairingId); }
  }

  /** so none is back before the listeners heard that it left. */
  lemma HeardBeforeBack(s: State, es: seq<Event>, pairingId: string)
    requires ToldInTurn(s, es) && es != [] && Last(es).StoreChanged?
    ensures !LeftUnheard(s, Earlier(es), pairingId)
  {
    if LeftUnheard(s, Earlier(es), pairingId) { UnheardIsPending(s, Earlier(es), pairingId); }
  }

  ghost predicate SocketMatches(s: State, es: seq<Event>, id: SocketId, socket: Socket) {
    var pairings := Execute(s, es).pairings;
    && (socket.phase.Bound? && !socket.ended ==>
          && Agrees(pairings, socket.phase.proven)
          && (Holding(pairings, socket.phase.proven.pairingId) || LeftUnheard(s, es, socket.phase.proven.pairingId)))
    && (socket.phase.Redeeming? ==>
          && Agrees(pairings, socket.phase.pairing)
          && (Holding(pairings, socket.phase.pairing.pairingId) || LeftWhileRedeeming(s, es, id)))
  }

  lemma KeptAgrees(before: seq<Pairing>, after: seq<Pairing>, proven: Pairing)
    requires SameServers(before, after) && Agrees(before, proven) && Holding(before, proven.pairingId)
    ensures Agrees(after, proven)
  {
    FindFinds(before, proven.pairingId);
    FindFinds(after, proven.pairingId);
  }

  lemma ChangeMatches(s: State, es: seq<Event>, id: SocketId)
    requires es != [] && Last(es).StoreChanged? && id in Execute(s, Earlier(es)).sockets
    requires SocketMatches(s, Earlier(es), id, Execute(s, Earlier(es)).sockets[id])
    requires SameServers(Execute(s, Earlier(es)).pairings, Last(es).pairings)
    requires ToldInTurn(s, es)
    requires !BackForSocket(s, Earlier(es), Last(es).pairings, id)
    ensures SocketMatches(s, es, id, Execute(s, Earlier(es)).sockets[id])
  {
    var before := Execute(s, Earlier(es));
    var socket := before.sockets[id];
    assert Execute(s, es) == before.(pairings := Last(es).pairings, pending := true);
    if socket.phase.Bound? && !socket.ended {
      HeardBeforeBack(s, es, socket.phase.proven.pairingId);
      KeptAgrees(before.pairings, Last(es).pairings, socket.phase.proven);
    }
    if socket.phase.Redeeming? && Holding(before.pairings, socket.phase.pairing.pairingId) {
      KeptAgrees(before.pairings, Last(es).pairings, socket.phase.pairing);
    }
  }

  /** Apart from a new list, an event has a socket redeem only for what the list has, or leaves it redeeming. */
  lemma RedeemingComesFrom(s: State, e: Event, id: SocketId)
    requires !e.StoreChanged? && IsRedeeming(Step(s, e), id)
    ensures Step(s, e).pairings == s.pairings
    ensures var phase := Step(s, e).sockets[id].phase;
      || (IsRedeeming(s, id) && s.sockets[id].phase == phase)
      || Find(s.pairings, phase.pairing.pairingId) == Some(phase.pairing)
  {
    if e.AuthRefreshed? && e.socket == id && id in s.sockets && s.sockets[id].phase.Refreshing? {
      FindFinds(s.pairings, s.sockets[id].phase.pairingId);
    }
  }

  /** And one that is served was served before, or redeemed then and its pairing is in the list. */
  lemma BoundComesFrom(s: State, e: Event, id: SocketId)
    requires !e.StoreChanged? && Serves(Step(s, e), id) && EndedOnceStopping(s)
    ensures Step(s, e).pairings == s.pairings
    ensures var proven := Step(s, e).sockets[id].phase.proven;
      || (Serves(s, id) && s.sockets[id].phase.proven == proven
            && (e.Notified? ==> Holding(s.pairings, proven.pairingId)))
      || (IsRedeeming(s, id) && s.sockets[id].phase.pairing == proven && Holding(s.pairings, proven.pairingId))
  {
    match e
    case Notified => ServedThroughNotice(s, id);
    case NonceAnswered(_, _) =>
    case Refreshed(_, _) =>
    case _ => ServedThroughOther(s, e, id);
  }

  lemma ServedThroughNotice(s: State, id: SocketId)
    requires Serves(Step(s, Notified), id) && EndedOnceStopping(s)
    ensures Serves(s, id) && Step(s, Notified).sockets[id] == s.sockets[id]
    ensures Holding(s.pairings, s.sockets[id].phase.proven.pairingId)
  {
  }

  lemma ServedThroughOther(s: State, e: Event, id: SocketId)
    requires !e.StoreChanged? && !e.Notified? && !e.NonceAnswered? && !e.Refreshed? && Serves(Step(s, e), id)
    ensures Serves(s, id) && Step(s, e).sockets[id] == s.sockets[id] && Step(s, e).pairings == s.pairings
  {
  }

  lemma OtherMatches(s: State, es: seq<Event>, id: SocketId)
    requires es != [] && !Last(es).StoreChanged?
             && id in Execute(s, es).sockets && EndedOnceStopping(Execute(s, Earlier(es)))
    requires id in Execute(s, Earlier(es)).sockets
             ==> SocketMatches(s, Earlier(es), id, Execute(s, Earlier(es)).sockets[id])
    ensures SocketMatches(s, es, id, Execute(s, es).sockets[id])
  {
    var before := Execute(s, Earlier(es));
    if IsRedeeming(Execute(s, es), id) { RedeemingComesFrom(before, Last(es), id); }
    if Serves(Execute(s, es), id) { BoundComesFrom(before, Last(es), id); }
  }

  ghost predicate AllMatch(s: State, es: seq<Event>) {
    forall id :: id in Execute(s, es).sockets ==> SocketMatches(s, es, id, Execute(s, es).sockets[id])
  }

  lemma NextMatch(s: State, es: seq<Event>)
    requires es != [] && AllMatch(s, Earlier(es)) && EndedOnceStopping(Execute(s, Earlier(es)))
    requires ToldInTurn(s, es) && ServersKept(s, es) && AnsweredBeforeBack(s, es)
    ensures AllMatch(s, es)
  {
    forall id | id in Execute(s, es).sockets ensures SocketMatches(s, es, id, Execute(s, es).sockets[id]) {
      if Last(es).StoreChanged? {
        assert Execute(s, es).sockets == Execute(s, Earlier(es)).sockets;
        ChangeMatches(s, es, id);
      } else {
        OtherMatches(s, es, id);
      }
    }
  }

  /**
   In every run of the store's own discipline in which each list keeps the servers of the ids it keeps, and no id is
   back while a socket redeems for it, no socket is ever served for another server than its own.
   */
  lemma {:induction false} ServedForOwnServer(s: State, es: seq<Event>)
    requires Init(s) && ToldInTurn(s, es) && ServersKept(s, es) && AnsweredBeforeBack(s, es)
    ensures AllMatch(s, es) && Matching(Execute(s, es))
    decreases |es|
  {
    if es != [] {
      ServedForOwnServer(s, Earlier(es));
      AdmissionIsSafe(s, Earlier(es));
      NextMatch(s, es);
    }
    MatchIsMatching(s, es);
  }

  lemma MatchIsMatching(s: State, es: seq<Event>)
    requires AllMatch(s, es)
    ensures Matching(Execute(s, es))
  {
    forall id | Serves(Execute(s, es), id)
      ensures Agrees(Execute(s, es).pairings, Execute(s, es).sockets[id].phase.proven)
    {
      assert SocketMatches(s, es, id, Execute(s, es).sockets[id]);
    }
  }

  // Neither condition can go

  /** A run and one more event. */
  lemma Extend(s: State, es: seq<Event>, e: Event)
    ensures Last(es + [e]) == e && Earlier(es + [e]) == es
    ensures Execute(s, es + [e]) == Step(Execute(s, es), e)
  {
    assert (es + [e])[..|es + [e]| - 1] == es;
  }

  /** An event other than a new list keeps all three. */
  lemma ExtendKeeps(s: State, es: seq<Event>, e: Event)
    requires !e.StoreChanged?
    ensures ServersKept(s, es + [e]) <==> ServersKept(s, es)
    ensures ToldInTurn(s, es + [e]) <==> ToldInTurn(s, es)
    ensures AnsweredBeforeBack(s, es + [e]) <==> AnsweredBeforeBack(s, es)
  {
    assert es + [e] != [];
    Extend(s, es, e);
  }

  /** The store has not changed in this run. */
  predicate Quiet(es: seq<Event>) {
    forall i :: 0 <= i < |es| ==> !es[i].StoreChanged?
  }

  lemma {:induction false} QuietKeepsAll(s: State, es: seq<Event>)
    requires Quiet(es)
    ensures ToldInTurn(s, es) && ServersKept(s, es) && AnsweredBeforeBack(s, es)
    ensures forall id :: !LeftWhileRedeeming(s, es, id)
    ensures !s.pending ==> !Execute(s, es).pending
    decreases |es|
  {
    if es != [] { QuietKeepsAll(s, Earlier(es)); }
  }

  /** A tab of the pairing comes in: up to the redeeming of its nonce. */
  function ComesIn(s: State, mine: Pairing): seq<Event> {
    var r := Request("/host", Some("127.0.0.1:" + Decimal(s.port)), Some(mine.origin));
    [Upgrade(0, r), Refreshed(0, 0), AuthFrame(0, Some(mine.pairingId)), AuthRefreshed(0)]
  }

  /** The state once the tab redeems. */
  ghost predicate Redeems(t: State, mine: Pairing, phase: Phase) {
    && 0 in t.sockets && t.sockets[0].phase == phase && !t.sockets[0].ended && !t.stopping && t.pairings == [mine]
    && t.sockets.Keys == {0}
  }

  lemma InOpens(s: State, mine: Pairing)
    requires Init(s) && s.pairings == [mine]
    ensures var es := ComesIn(s, mine);
      var t := Step(Step(s, es[0]), es[1]);
      && Redeems(t, mine, Opened) && t.sockets[0].origin == mine.origin
  {
    assert PairedOrigin(s.pairings, mine.origin) by { assert s.pairings[0].origin == mine.origin; }
  }

  lemma FourSteps(s: State, a: Event, b: Event, c: Event, d: Event)
    ensures Execute(s, [a, b, c, d]) == Step(Step(Step(Step(s, a), b), c), d)
  {
    assert Execute(s, []) == s;
    Extend(s, [], a);
    Extend(s, [a], b);
    Extend(s, [a, b], c);
    Extend(s, [a, b, c], d);
    assert [] + [a] == [a] && [a] + [b] == [a, b] && [a, b] + [c] == [a, b, c] && [a, b, c] + [d] == [a, b, c, d];
  }

  lemma InRedeems(s: State, mine: Pairing)
    requires Init(s) && s.pairings == [mine]
    ensures Quiet(ComesIn(s, mine)) && Redeems(Execute(s, ComesIn(s, mine)), mine, Redeeming(mine))
  {
    var es := ComesIn(s, mine);
    InOpens(s, mine);
    FourSteps(s, es[0], es[1], es[2], es[3]);
    assert es == [es[0], es[1], es[2], es[3]];
    OpenRedeems(Step(Step(s, es[0]), es[1]), mine);
  }

  lemma OpenRedeems(t: State, mine: Pairing)
    requires Redeems(t, mine, Opened) && t.sockets[0].origin == mine.origin
    ensures Redeems(Step(Step(t, AuthFrame(0, Some(mine.pairingId))), AuthRefreshed(0)), mine, Redeeming(mine))
  {
  }

  lemma InBound(s: State, mine: Pairing)
    requires Init(s) && s.pairings == [mine]
    ensures var es := ComesIn(s, mine) + [NonceAnswered(0, true)];
      Quiet(es) && Redeems(Execute(s, es), mine, Bound(mine, mine.serverUrl))
  {
    InRedeems(s, mine);
    Extend(s, ComesIn(s, mine), NonceAnswered(0, true));
  }

  /** Two pairings of one id at different servers. */
  predicate Reused(mine: Pairing, other: Pairing) {
    mine.pairingId == other.pairingId && mine.serverUrl != other.serverUrl
  }

  /** The listeners have heard of everything, and the tab is served for `mine` while the list has `other`. */
  ghost predicate ServedForAnother(t: State, mine: Pairing, other: Pairing) {
    !t.pending && Serves(t, 0) && t.sockets[0].phase.proven == mine
      && t.pairings == [other] && !Agrees(t.pairings, mine)
  }

  /** The tab was served, and the cache takes over one list that has both: the id gone and in use elsewhere. */
  lemma ServersKeptNeeded(s: State, mine: Pairing, other: Pairing)
    requires Init(s) && !s.pending && s.pairings == [mine] && Reused(mine, other)
    ensures var es := ComesIn(s, mine) + [NonceAnswered(0, true)] + [StoreChanged([other])] + [Notified];
      ToldInTurn(s, es) && AnsweredBeforeBack(s, es) && ServedForAnother(Execute(s, es), mine, other)
  {
    var es := ComesIn(s, mine) + [NonceAnswered(0, true)];
    InBound(s, mine);
    QuietKeepsAll(s, es);
    Extend(s, es, StoreChanged([other]));
    Extend(s, es + [StoreChanged([other])], Notified);
    ExtendKeeps(s, es + [StoreChanged([other])], Notified);
  }

  lemma Leaves(s: State, es: seq<Event>, mine: Pairing)
    requires Quiet(es) && !s.pending && Execute(s, es).pairings == [mine]
    ensures var left := es + [StoreChanged([])];
      ToldInTurn(s, left) && ServersKept(s, left) && AnsweredBeforeBack(s, left)
  {
    QuietKeepsAll(s, es);
    Extend(s, es, StoreChanged([]));
  }

  /**
   The tab redeems; its id leaves the list, which the listeners hear of, and is back at another server before the
   answer.
   */
  lemma AnsweredBeforeBackNeeded(s: State, mine: Pairing, other: Pairing)
    requires Init(s) && !s.pending && s.pairings == [mine] && Reused(mine, other)
    ensures var es := ComesIn(s, mine) + [StoreChanged([])] + [Notified] + [StoreChanged([other])] + [Notified]
                      + [NonceAnswered(0, true)];
      ToldInTurn(s, es) && ServersKept(s, es) && ServedForAnother(Execute(s, es), mine, other)
  {
    var heard := ComesIn(s, mine) + [StoreChanged([])] + [Notified];
    var back := heard + [StoreChanged([other])];
    HeardItLeft(s, mine);
    Extend(s, heard, StoreChanged([other]));
    assert ToldInTurn(s, back) && ServersKept(s, back);
    ExtendKeeps(s, back, Notified);
    ExtendKeeps(s, back + [Notified], NonceAnswered(0, true));
    Extend(s, back, Notified);
    Extend(s, back + [Notified], NonceAnswered(0, true));
    AnswersForAnother(Execute(s, heard), mine, other);
  }

  /** The tab redeems for `mine`, which is in no list any more. */
  ghost predicate RedeemsForGone(t: State, mine: Pairing) {
    && t.pairings == [] && IsRedeeming(t, 0) && t.sockets[0].phase.pairing == mine
    && !t.sockets[0].ended && !t.stopping && !t.pending
  }

  lemma HeardItLeft(s: State, mine: Pairing)
    requires Init(s) && !s.pending && s.pairings == [mine]
    ensures var heard := ComesIn(s, mine) + [StoreChanged([])] + [Notified];
      ToldInTurn(s, heard) && ServersKept(s, heard) && RedeemsForGone(Execute(s, heard), mine)
  {
    var es := ComesIn(s, mine);
    InRedeems(s, mine);
    Leaves(s, es, mine);
    ExtendKeeps(s, es + [StoreChanged([])], Notified);
    Extend(s, es, StoreChanged([]));
    Extend(s, es + [StoreChanged([])], Notified);
  }

  lemma AnswersForAnother(t: State, mine: Pairing, other: Pairing)
    requires RedeemsForGone(t, mine) && Reused(mine, other)
    ensures var back := Step(Step(t, StoreChanged([other])), Notified);
      ServedForAnother(Step(back, NonceAnswered(0, true)), mine, other)
  {
  }
}
