/**
 A shared terminal as it runs (`e2e/helpers/fake-server.ts`): one object whose handlers update its viewers and send
 messages in loops, each handler proved to take exactly the step of `Relay` that its event names.
 */
module ShareRelay {
  import opened Wrappers
  import opened Relay
  import opened RelayTheorems

  class Terminal {
    const ownerEmail: string
    var live: bool
    var owner: Option<Peer>
    var viewers: seq<Viewer>
    var control: Option<Peer>
    var replay: seq<Byte>
    var cols: int
    var rows: int
    var joined: set<Peer>
    var closed: set<Peer>
    var gone: set<Peer>
    var inbox: Inboxes
    ghost var stream: seq<Byte>

    ghost function Now(): Share
      reads this
    {
      Share(ownerEmail, live, owner, viewers, control, replay, cols, rows, joined, closed, gone, stream)
    }

    ghost function Model(): State
      reads this
    {
      State(Now(), inbox)
    }

    /** Nobody sits twice. */
    ghost predicate Apart()
      reads this
    {
      Distinct(viewers) && (owner.Some? ==> owner.value !in PeersOf(viewers))
    }

    constructor (ownerEmail: string, cols: int, rows: int)
      ensures Init(Model()) && Sound(Model())
      ensures this.ownerEmail == ownerEmail && this.cols == cols && this.rows == rows && closed == {} && gone == {}
    {
      this.ownerEmail, this.cols, this.rows := ownerEmail, cols, rows;
      live, owner, viewers, control, replay := true, None, [], None, [];
      joined, closed, gone, inbox, stream := {}, {}, {}, Inboxes(map[]), [];
      new;
      SharesStaySound(Model(), []);
    }

    method Tell(peer: Peer, m: Message)
      modifies this`inbox
      ensures inbox == DeliverOne(old(inbox), closed, Post({peer}, m))
    {
      inbox := Inboxes(inbox.of[peer := if peer in closed then Inbox(inbox, peer) else Inbox(inbox, peer) + [m]]);
      assert inbox.of == DeliverOne(old(inbox), closed, Post({peer}, m)).of;
    }

    method TellAllViewers(m: Message)
      requires Distinct(viewers)
      modifies this`inbox
      ensures inbox == DeliverOne(old(inbox), closed, Post(PeersOf(viewers), m))
    {
      ghost var before := inbox;
      for i := 0 to |viewers|
        invariant inbox == DeliverOne(before, closed, Post(PeersOf(viewers[..i]), m))
      {
        PeersAre(viewers[..i], viewers[i].peer);
        PeersTogether(viewers[..i], [viewers[i]]);
        assert viewers[..i] + [viewers[i]] == viewers[..i + 1];
        assert PeersOf([viewers[i]]) == {viewers[i].peer};
        DeliverTogether(before, closed, PeersOf(viewers[..i]), {viewers[i].peer}, m);
        Tell(viewers[i].peer, m);
      }
      assert viewers[..|viewers|] == viewers;
    }

    /** The owner first, then the viewers. */
    method TellEveryone(m: Message)
      requires Apart()
      modifies this`inbox
      ensures inbox == DeliverOne(old(inbox), closed, Post(Everyone(Now()), m))
    {
      if owner.Some? {
        DeliverTogether(inbox, closed, {owner.value}, PeersOf(viewers), m);
        Tell(owner.value, m);
      }
      TellAllViewers(m);
      assert Everyone(Now()) == PeersOf(viewers) + if owner.Some? then {owner.value} else {};
    }

    method SendPresence()
      requires Apart()
      modifies this`inbox
      ensures inbox == DeliverOne(old(inbox), closed, ViewersPost(Now()))
    {
      var list: seq<Seen> := [];
      for i := 0 to |viewers|
        invariant |list| == i
        invariant forall j :: 0 <= j < i ==>
                    list[j] == Seen(viewers[j].userId, control == Some(viewers[j].peer), viewers[j].requesting)
      {
        list := list + [Seen(viewers[i].userId, control == Some(viewers[i].peer), viewers[i].requesting)];
      }
      assert list == SeenNow(Now());
      TellEveryone(Viewers(list));
    }

    method SendControl()
      requires Apart()
      modifies this`inbox
      ensures inbox == Deliver(old(inbox), closed, ControlPosts(Now()))
    {
      ghost var before := inbox;
      var holder: Option<string> := None;
      if control.Some? {
        var v := Find(viewers, control.value);
        if v.Some? {
          holder := Some(v.value.userId);
        }
      }
      TellEveryone(Control(holder));
      SendPresence();
      DeliverTwo(before, closed, Post(Everyone(Now()), Control(holder)), ViewersPost(Now()));
    }

    /** Ends the share, once: everybody is told, then closed. */
    method Finish(reason: string)
      requires Apart()
      modifies this
      ensures Now() == EndShare(old(Now()), reason).share
      ensures inbox == Deliver(old(inbox), old(closed), EndShare(old(Now()), reason).posts)
    {
      if !live {
        return;
      }
      live := false;
      ghost var all := Everyone(Now());
      TellEveryone(Ended(reason));
      DeliverSingle(old(inbox), closed, Post(all, Ended(reason)));
      var leaving := PeersOf(viewers) + if owner.Some? then {owner.value} else {};
      joined, closed := joined - leaving, closed + leaving;
    }

    method SeatOwner(peer: Peer)
      requires Distinct(viewers) && peer !in PeersOf(viewers)
      modifies this`owner, this`joined, this`inbox
      ensures Now() == JoinOwner(old(Now()), peer).share
      ensures inbox == Deliver(old(inbox), closed, JoinOwner(old(Now()), peer).posts)
    {
      joined := joined + {peer};
      owner := Some(peer);
      Tell(peer, OwnerReady);
      SendPresence();
      DeliverTwo(old(inbox), closed, Post({peer}, OwnerReady), ViewersPost(Now()));
    }

    method CatchUp(peer: Peer)
      modifies this`inbox
      ensures inbox == CaughtUp(Now(), old(inbox), peer)
    {
      Tell(peer, ViewerReady(cols, rows));
      ghost var ready := inbox;
      if replay != [] {
        Tell(peer, Output(replay));
      }
      assert inbox == DeliverOne(ready, closed, Post(if replay == [] then {} else {peer}, Output(replay)));
      Tell(peer, Control(None));
    }

    method SeatViewer(peer: Peer, userId: string)
      requires Apart() && peer !in PeersOf(viewers) && owner != Some(peer)
      modifies this`viewers, this`joined, this`inbox
      ensures Now() == JoinViewer(old(Now()), peer, userId).share
      ensures inbox == Deliver(old(inbox), closed, JoinViewer(old(Now()), peer, userId).posts)
    {
      ghost var before := Now();
      StaysApart(before, Viewer(peer, userId, false));
      joined := joined + {peer};
      viewers := viewers + [Viewer(peer, userId, false)];
      assert Now() == JoinViewer(before, peer, userId).share;
      CatchUp(peer);
      SendPresence();
      JoinDelivers(before, old(inbox), peer, userId);
    }

    /** A peer names this share: it becomes the owner's socket or a viewer, or is turned away. */
    method Join(peer: Peer, account: Option<Account>, found: bool)
      requires Seated(Now()) && peer !in joined && peer !in gone
      modifies this
      ensures Model() == Step(old(Model()), Frame(peer, Auth(account, found)))
    {
      if account.None? || !live || !found {
        closed := closed + {peer};
        return;
      }
      if account.value.email == ownerEmail {
        SeatOwner(peer);
      } else {
        SeatViewer(peer, account.value.userId);
      }
    }

    method FirstAsking(userId: string) returns (to: Option<Peer>)
      ensures to == Asking(viewers, userId)
    {
      var i := 0;
      while i < |viewers|
        invariant i <= |viewers| && Asking(viewers, userId) == Asking(viewers[i..], userId)
      {
        if viewers[i].userId == userId && viewers[i].requesting {
          return Some(viewers[i].peer);
        }
        i := i + 1;
      }
      to := None;
    }

    method GrantTo(userId: string)
      requires Apart()
      modifies this`viewers, this`control, this`inbox
      ensures Now() == OnGrant(old(Now()), userId).share
      ensures inbox == Deliver(old(inbox), closed, OnGrant(old(Now()), userId).posts)
    {
      var to := FirstAsking(userId);
      if to.None? {
        return;
      }
      SamePeersHold(viewers, SetRequesting(viewers, to.value, false), to.value);
      viewers, control := SetRequesting(viewers, to.value, false), to;
      SendControl();
    }

    method ClearRequests(userId: string)
      requires Distinct(viewers)
      modifies this`viewers, this`inbox
      ensures viewers == DeclineAll(old(viewers), userId)
      ensures inbox == DeliverOne(old(inbox), closed, Post(AllAsking(old(viewers), userId), Declined))
    {
      ghost var was, before := viewers, inbox;
      for i := 0 to |viewers|
        invariant |viewers| == |was|
        invariant forall j :: i <= j < |was| ==> viewers[j] == was[j]
        invariant forall j :: 0 <= j < i ==> viewers[j] == DeclineAll(was, userId)[j]
        invariant inbox == DeliverOne(before, closed, Post(AllAsking(was[..i], userId), Declined))
      {
        AskingNext(was, userId, i);
        if viewers[i].userId == userId && viewers[i].requesting {
          viewers := viewers[i := viewers[i].(requesting := false)];
          DeliverTogether(before, closed, AllAsking(was[..i], userId), {was[i].peer}, Declined);
          Tell(viewers[i].peer, Declined);
        }
      }
      assert was[..|was|] == was;
      assert viewers == DeclineAll(was, userId);
    }

    method DeclineFor(userId: string)
      requires Apart()
      modifies this`viewers, this`inbox
      ensures Now() == OnDecline(old(Now()), userId).share
      ensures inbox == Deliver(old(inbox), closed, OnDecline(old(Now()), userId).posts)
    {
      ghost var before := Now();
      SamePeersHold(viewers, DeclineAll(viewers, userId), 0);
      ClearRequests(userId);
      assert Now() == OnDecline(before, userId).share;
      SendPresence();
      DeclineDelivers(before, old(inbox), userId);
    }

    method ChangeSize(cols: int, rows: int)
      requires Apart()
      modifies this`cols, this`rows, this`inbox
      ensures Now() == old(Now()).(cols := cols, rows := rows)
      ensures inbox == Deliver(old(inbox), closed, [Post(PeersOf(viewers), Resized(cols, rows))])
    {
      this.cols, this.rows := cols, rows;
      TellAllViewers(Resized(cols, rows));
      DeliverSingle(old(inbox), closed, Post(PeersOf(viewers), Resized(cols, rows)));
    }

    method AskFor(peer: Peer)
      requires Apart()
      modifies this`viewers, this`inbox
      ensures Now() == OnFrame(old(Now()), peer, RequestControl).share
      ensures inbox == Deliver(old(inbox), closed, OnFrame(old(Now()), peer, RequestControl).posts)
    {
      if control != Some(peer) {
        SamePeersHold(viewers, SetRequesting(viewers, peer, true), peer);
        viewers := SetRequesting(viewers, peer, true);
      }
      SendPresence();
      DeliverSingle(old(inbox), closed, ViewersPost(Now()));
    }

    method TakeControl(from: Option<Peer>)
      requires Apart()
      modifies this`control, this`inbox
      ensures Now() == old(Now()).(control := if from.None? || old(control) == from then None else old(control))
      ensures inbox == Deliver(old(inbox), closed, ControlPosts(Now()))
    {
      if from.None? || control == from {
        control := None;
      }
      SendControl();
    }

    method PassOn(peer: Peer, data: string)
      modifies this`inbox
      ensures inbox == Deliver(old(inbox), closed, OnFrame(old(Now()), peer, Input(data)).posts)
    {
      var v := Find(viewers, peer);
      if v.Some? && control == Some(peer) && owner.Some? {
        Tell(owner.value, Typed(v.value.userId, data));
        DeliverSingle(old(inbox), closed, Post({owner.value}, Typed(v.value.userId, data)));
      }
    }

    /** A text frame of a peer that belongs to the share. */
    method Receive(peer: Peer, text: Text)
      requires Seated(Now()) && peer in joined
      modifies this
      ensures Model() == Step(old(Model()), Frame(peer, text))
    {
      Handle(peer, text);
    }

    method Handle(peer: Peer, text: Text)
      requires Seated(Now())
      modifies this
      ensures Now() == OnFrame(old(Now()), peer, text).share
      ensures inbox == Deliver(old(inbox), old(closed), OnFrame(old(Now()), peer, text).posts)
    {
      match text {
        case Ping =>
          Tell(peer, Pong);
          DeliverSingle(old(inbox), closed, Post({peer}, Pong));
        case Resize(c, r) => ChangeSize(c, r);
        case Grant(userId) => GrantTo(userId);
        case Decline(userId) => DeclineFor(userId);
        case TakeBack => TakeControl(None);
        case End => Finish("ended");
        case RequestControl => AskFor(peer);
        case Release => TakeControl(Some(peer));
        case Input(data) => PassOn(peer, data);
        case _ =>
      }
    }

    /** A binary frame: only the owner's counts. It goes to every viewer and into the replay. */
    method ReceiveBytes(peer: Peer, bytes: seq<Byte>)
      requires Seated(Now()) && peer !in gone
      modifies this
      ensures Model() == Step(old(Model()), Binary(peer, bytes))
    {
      if peer !in joined || owner != Some(peer) {
        return;
      }
      stream := stream + bytes;
      replay := replay + bytes;
      if |replay| > REPLAY_LIMIT {
        replay := replay[|replay| - REPLAY_LIMIT..];
      }
      TellAllViewers(Output(bytes));
      DeliverSingle(old(inbox), closed, Post(PeersOf(viewers), Output(bytes)));
    }

    method RemoveViewer(peer: Peer)
      requires Apart()
      modifies this`viewers, this`control, this`inbox
      ensures viewers == Without(old(viewers), peer)
      ensures control == if old(control) == Some(peer) then None else old(control)
      ensures inbox == Deliver(old(inbox), closed,
                               if old(control) == Some(peer) then ControlPosts(Now()) else [ViewersPost(Now())])
    {
      WithoutHolds(viewers, peer);
      viewers := Without(viewers, peer);
      if control == Some(peer) {
        control := None;
        SendControl();
      } else {
        SendPresence();
        DeliverSingle(old(inbox), closed, ViewersPost(Now()));
      }
    }

    /** A peer's connection ended: the owner's takes the share with it, a viewer's its control. */
    method OnPeerClosed(peer: Peer)
      requires Seated(Now()) && peer !in gone
      modifies this
      ensures Model() == Step(old(Model()), Event.Closed(peer))
    {
      var belonged := peer in joined;
      closed, gone, joined := closed + {peer}, gone + {peer}, joined - {peer};
      if belonged {
        Remove(peer);
      }
    }

    method Remove(peer: Peer)
      requires Apart()
      modifies this
      ensures owner == Some(peer) ==>
                && Now() == EndShare(old(Now()), "owner-left").share
                && inbox == Deliver(old(inbox), old(closed), EndShare(old(Now()), "owner-left").posts)
      ensures owner != Some(peer) ==>
                && Now() == old(Now()).(viewers := Without(old(viewers), peer),
                                        control := if old(control) == Some(peer) then None else old(control))
                && inbox == Deliver(old(inbox), closed,
                                    if old(control) == Some(peer) then ControlPosts(Now()) else [ViewersPost(Now())])
    {
      if owner == Some(peer) {
        Finish("owner-left");
      } else {
        RemoveViewer(peer);
      }
    }
  }

  lemma StaysApart(s: Share, v: Viewer)
    requires Distinct(s.viewers) && v.peer !in PeersOf(s.viewers)
    ensures Distinct(s.viewers + [v]) && PeersOf(s.viewers + [v]) == PeersOf(s.viewers) + {v.peer}
  {
    PeersTogether(s.viewers, [v]);
    assert PeersOf([v]) == {v.peer};
    forall i | 0 <= i < |s.viewers| ensures s.viewers[i].peer != v.peer { PeersAre(s.viewers, s.viewers[i].peer); }
  }

  /** Sending a message to some peers and then to others is sending it to all of them. */
  lemma DeliverTogether(inbox: Inboxes, deaf: set<Peer>, first: set<Peer>, others: set<Peer>, m: Message)
    requires first !! others
    ensures DeliverOne(DeliverOne(inbox, deaf, Post(first, m)), deaf, Post(others, m))
            == DeliverOne(inbox, deaf, Post(first + others, m))
  {
    assert DeliverOne(DeliverOne(inbox, deaf, Post(first, m)), deaf, Post(others, m)).of
        == DeliverOne(inbox, deaf, Post(first + others, m)).of;
  }

  lemma DeliverNext(inbox: Inboxes, deaf: set<Peer>, rest: seq<Post>, last: Post)
    ensures Deliver(inbox, deaf, rest + [last]) == DeliverOne(Deliver(inbox, deaf, rest), deaf, last)
  {
    assert (rest + [last])[..|rest + [last]| - 1] == rest;
  }

  lemma DeliverSingle(inbox: Inboxes, deaf: set<Peer>, a: Post)
    ensures Deliver(inbox, deaf, [a]) == DeliverOne(inbox, deaf, a)
  {
    DeliverNext(inbox, deaf, [], a);
    assert [] + [a] == [a];
  }

  lemma DeliverTwo(inbox: Inboxes, deaf: set<Peer>, a: Post, b: Post)
    ensures Deliver(inbox, deaf, [a, b]) == DeliverOne(DeliverOne(inbox, deaf, a), deaf, b)
  {
    DeliverSingle(inbox, deaf, a);
    DeliverNext(inbox, deaf, [a], b);
    assert [a] + [b] == [a, b];
  }

  /** What a newcomer is sent before the list of viewers. */
  ghost function CaughtUp(s: Share, inbox: Inboxes, peer: Peer): Inboxes {
    var ready := DeliverOne(inbox, s.closed, Post({peer}, ViewerReady(s.cols, s.rows)));
    var shown := DeliverOne(ready, s.closed, Post(if s.replay == [] then {} else {peer}, Output(s.replay)));
    DeliverOne(shown, s.closed, Post({peer}, Control(None)))
  }

  lemma DeliverFour(inbox: Inboxes, deaf: set<Peer>, a: Post, b: Post, c: Post, d: Post)
    ensures Deliver(inbox, deaf, [a, b, c, d])
         == DeliverOne(DeliverOne(DeliverOne(DeliverOne(inbox, deaf, a), deaf, b), deaf, c), deaf, d)
  {
    DeliverTwo(inbox, deaf, a, b);
    DeliverNext(inbox, deaf, [a, b], c);
    assert [a, b] + [c] == [a, b, c];
    DeliverNext(inbox, deaf, [a, b, c], d);
    assert [a, b, c] + [d] == [a, b, c, d];
  }

  lemma DeclineDelivers(s: Share, inbox: Inboxes, userId: string)
    ensures var o := OnDecline(s, userId);
      Deliver(inbox, s.closed, o.posts)
        == DeliverOne(DeliverOne(inbox, s.closed, Post(AllAsking(s.viewers, userId), Declined)), s.closed,
                      ViewersPost(o.share))
  {
    DeliverTwo(inbox, s.closed, Post(AllAsking(s.viewers, userId), Declined), ViewersPost(OnDecline(s, userId).share));
  }

  lemma JoinDelivers(s: Share, inbox: Inboxes, peer: Peer, userId: string)
    ensures var o := JoinViewer(s, peer, userId);
      Deliver(inbox, s.closed, o.posts) == DeliverOne(CaughtUp(s, inbox, peer), s.closed, ViewersPost(o.share))
  {
    var posts := JoinViewer(s, peer, userId).posts;
    DeliverFour(inbox, s.closed, posts[0], posts[1], posts[2], posts[3]);
    assert posts == [posts[0], posts[1], posts[2], posts[3]];
  }

  lemma AskingNext(viewers: seq<Viewer>, userId: string, i: nat)
    requires i < |viewers|
    ensures AllAsking(viewers[..i + 1], userId) == AllAsking(viewers[..i], userId)
         + if viewers[i].userId == userId && viewers[i].requesting then {viewers[i].peer} else {}
    ensures Distinct(viewers) ==> viewers[i].peer !in AllAsking(viewers[..i], userId)
  {
    assert viewers[..i + 1][..i] == viewers[..i];
    AskingAreViewers(viewers[..i], userId);
    PeersAre(viewers[..i], viewers[i].peer);
  }
}
