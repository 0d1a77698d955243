/**
 The agent's server as it runs (`packages/agent/src/server.ts`): one object whose fields its event handlers update,
 each handler proved to take exactly the step of `Admission` that its event names.
 */
module AgentServer {
  import opened Wrappers
  import Pairings
  import opened Admission

  class Agent {
    var port: nat
    var pairings: seq<Pairings.Pairing>
    var pending: bool
    var waiting: map<UpgradeId, Request>
    var sockets: map<SocketId, Socket>
    var nextCallerId: nat
    var stopping: bool

    function Model(): State
      reads this
    {
      State(port, pairings, pending, waiting, sockets, nextCallerId, stopping)
    }

    constructor (port: nat, pairings: seq<Pairings.Pairing>)
      ensures Init(Model()) && Model().port == port && Model().pairings == pairings && !Model().pending
    {
      this.port, this.pairings, this.pending := port, pairings, false;
      this.waiting, this.sockets := map[], map[];
      this.nextCallerId, this.stopping := CALLER_ID_BASE, false;
    }

    /** Whether some pairing of the list is of this origin. */
    method IsPairedOrigin(origin: string) returns (paired: bool)
      ensures paired == PairedOrigin(pairings, origin)
    {
      paired := false;
      var i := 0;
      while i < |pairings|
        invariant i <= |pairings|
        invariant paired == exists j :: 0 <= j < i && pairings[j].origin == origin
      {
        if pairings[i].origin == origin {
          paired := true;
        }
        i := i + 1;
      }
    }

    /** An upgrade request arrives: it is refused, or waits for the store to be read again. */
    method OnUpgrade(upgrade: UpgradeId, request: Request) returns (answer: Answer)
      modifies this
      ensures answer == UpgradeAnswer(old(Model()), request)
      ensures Model() == Step(old(Model()), Upgrade(upgrade, request))
    {
      if request.path != "/host" {
        return Refuse(404);
      }
      if request.host != Some("127.0.0.1:" + Decimal(port)) && request.host != Some("localhost:" + Decimal(port)) {
        return Refuse(403);
      }
      waiting := waiting[upgrade := request];
      answer := Wait;
    }

    /** The store was read again for a waiting upgrade; `socket` is the socket it opens if it may. */
    method AfterRefresh(upgrade: UpgradeId, socket: SocketId) returns (answer: Answer)
      requires upgrade in waiting && socket !in sockets
      modifies this
      ensures answer == RefreshedAnswer(old(Model()), old(waiting[upgrade]))
      ensures Model() == Step(old(Model()), Refreshed(upgrade, socket))
    {
      var request := waiting[upgrade];
      waiting := waiting - {upgrade};
      if stopping {
        return Refuse(503);
      }
      if request.origin.None? {
        return CloseWith(4403);
      }
      var paired := IsPairedOrigin(request.origin.value);
      if !paired {
        return CloseWith(4403);
      }
      if |sockets| >= MAX_SOCKETS {
        return CloseWith(4429);
      }
      answer := Accept(nextCallerId);
      AcceptSocket(socket, request.host.GetOr(""), request.origin.value);
    }

    method AcceptSocket(socket: SocketId, host: string, origin: string)
      requires socket !in sockets
      modifies this`sockets, this`nextCallerId
      ensures sockets == old(sockets)[socket := Socket(old(nextCallerId), host, origin, Opened, false)]
      ensures nextCallerId == old(nextCallerId) + 1
    {
      var callerId := nextCallerId;
      nextCallerId := nextCallerId + 1;
      sockets := sockets[socket := Socket(callerId, host, origin, Opened, false)];
    }

    /** The socket's first frame: an auth frame names a pairing and a nonce, anything else turns the socket away. */
    method OnAuthFrame(socket: SocketId, pairingId: Option<string>)
      modifies this`sockets
      ensures Model() == Step(old(Model()), AuthFrame(socket, pairingId))
    {
      if socket in sockets && sockets[socket].phase.Opened? {
        if pairingId.None? {
          sockets := sockets[socket := sockets[socket].(phase := TurnedAway)];
        } else {
          sockets := sockets[socket := sockets[socket].(phase := Refreshing(pairingId.value))];
        }
      }
    }

    /** The store was read again for an authenticating socket: it may redeem only for a pairing of its own origin. */
    method AfterAuthRefresh(socket: SocketId)
      modifies this`sockets
      ensures Model() == Step(old(Model()), AuthRefreshed(socket))
    {
      if socket !in sockets || !sockets[socket].phase.Refreshing? {
        return;
      }
      var pairing := Pairings.Find(pairings, sockets[socket].phase.pairingId);
      if pairing.None? || pairing.value.origin != sockets[socket].origin {
        sockets := sockets[socket := sockets[socket].(phase := TurnedAway)];
        return;
      }
      sockets := sockets[socket := sockets[socket].(phase := Redeeming(pairing.value))];
    }

    /** The pairing's server answered for the nonce; the pairing may have gone meanwhile. */
    method OnNonceAnswer(socket: SocketId, accepted: bool)
      modifies this`sockets
      ensures Model() == Step(old(Model()), NonceAnswered(socket, accepted))
    {
      if socket !in sockets || !sockets[socket].phase.Redeeming? {
        return;
      }
      var pairing := sockets[socket].phase.pairing;
      var now := Pairings.Find(pairings, pairing.pairingId);
      if !accepted || now.None? {
        sockets := sockets[socket := sockets[socket].(phase := TurnedAway)];
        return;
      }
      sockets := sockets[socket := sockets[socket].(phase := Bound(pairing, pairing.serverUrl))];
    }

    method OnPeerClosed(socket: SocketId)
      modifies this`sockets
      ensures Model() == Step(old(Model()), PeerClosed(socket))
    {
      sockets := sockets - {socket};
    }

    /** The store holds another list now; its listeners hear of it later. */
    method OnStoreChanged(list: seq<Pairings.Pairing>)
      modifies this`pairings, this`pending
      ensures Model() == Step(old(Model()), StoreChanged(list))
    {
      pairings, pending := list, true;
    }

    /**
     The store's notification: every socket of a pairing that is gone is told to end, unless the agent has stopped.
     */
    method Prune()
      modifies this`sockets, this`pending
      ensures Model() == Step(old(Model()), Notified)
    {
      pending := false;
      if stopping {
        return;
      }
      ghost var before := sockets;
      var left := sockets.Keys;
      while left != {}
        invariant left <= sockets.Keys && sockets.Keys == before.Keys
        invariant forall id :: id in left ==> sockets[id] == before[id]
        invariant forall id :: id in before && id !in left ==> sockets[id] == Pruned(before, pairings)[id]
        invariant !pending && !stopping
        decreases left
      {
        var id :| id in left;
        left := left - {id};
        if sockets[id].phase.Bound? {
          var now := Pairings.Find(pairings, sockets[id].phase.proven.pairingId);
          if now.None? {
            sockets := sockets[id := sockets[id].(ended := true)];
          }
        }
      }
      assert sockets == Pruned(before, pairings);
    }

    /** `close()` starts: no socket is let in from here on, and every one there is told to end. */
    method Stop()
      modifies this`sockets, this`stopping
      ensures Model() == Step(old(Model()), Event.Close)
    {
      stopping := true;
      ghost var before := sockets;
      var left := sockets.Keys;
      while left != {}
        invariant left <= sockets.Keys && sockets.Keys == before.Keys && stopping
        invariant forall id :: id in left ==> sockets[id] == before[id]
        invariant forall id :: id in before && id !in left ==> sockets[id] == AllEnded(before)[id]
        decreases left
      {
        var id :| id in left;
        left := left - {id};
        sockets := sockets[id := sockets[id].(ended := true)];
      }
      assert sockets == AllEnded(before);
    }
  }
}
