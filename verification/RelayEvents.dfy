/** A shared terminal said of what its peers sent: whose output the viewers see, which size they know, who is let in. */
module RelayEvents {
  import opened Wrappers
  import opened Relay
  import opened RelayTheorems

  // Output

  /** What the owner of this moment, whose frames reach the share, sends with the event. */
  function SentNow(s: Share, e: Event): seq<Byte> {
    if e.Binary? && s.owner == Some(e.peer) && e.peer in s.joined && e.peer !in s.gone then e.bytes else []
  }

  /** All the owners of a run sent while they were it. */
  function Sent(s: State, es: seq<Event>): seq<Byte>
    decreases |es|
  {
    if es == [] then [] else Sent(s, es[..|es| - 1]) + SentNow(Execute(s, es[..|es| - 1]).share, es[|es| - 1])
  }

  /** The last 262144 bytes, or all of them. */
  function LastOf(bytes: seq<Byte>): seq<Byte> {
    bytes[if |bytes| > 262144 then |bytes| - 262144 else 0..]
  }

  predicate IsOpenViewer(s: Share, p: Peer) {
    p !in s.closed && exists i :: 0 <= i < |s.viewers| && s.viewers[i].peer == p
  }

  predicate ComesAsViewer(s: Share, e: Event, p: Peer) {
    JoinsAsViewer(s, e) && p == e.peer && p !in s.closed
  }

  lemma StreamGrows(s: Share, e: Event)
    requires Seated(s)
    ensures React(s, e).share.stream == s.stream + SentNow(s, e)
  {
    if Extends(s, e) {
    } else if JoinsAsViewer(s, e) {
    } else {
      OthersAreQuiet(s, e);
      assert s.stream + [] == s.stream;
    }
  }

  lemma OutputIsShown(s: Share, e: Event, k: Knowledge, p: Peer)
    requires Extends(s, e)
    ensures Hear(k, React(s, e).posts, s.closed, p).shown == k.shown + if IsOpenViewer(s, p) then e.bytes else []
  {
    var posts := React(s, e).posts;
    HearOne(k, posts[0], s.closed, p);
    assert posts == [posts[0]];
    PeersAre(s.viewers, p);
    assert k.shown + [] == k.shown;
  }

  /** What an event shows a peer: the owner's output if it is an open viewer, and the replay if it comes in as one. */
  lemma StepShows(s: State, e: Event, p: Peer)
    requires Seated(s.share) && s.share.replay == LastOf(s.share.stream)
    ensures Known(Step(s, e), p).shown
         == Known(s, p).shown
            + (if IsOpenViewer(s.share, p) then SentNow(s.share, e) else [])
            + (if ComesAsViewer(s.share, e, p) then LastOf(s.share.stream) else [])
  {
    var k := Known(s, p);
    assert k.shown + [] == k.shown;
    if JoinsAsViewer(s.share, e) {
      JoinShows(s, e, p);
    } else {
      StepIsHeard(s, e, p);
      if Extends(s.share, e) {
        OutputIsShown(s.share, e, k, p);
      } else {
        OthersAreQuiet(s.share, e);
        Unheard(k, React(s.share, e).posts, Deaf(s.share, e), p);
      }
    }
  }

  /** What a peer is shown over a run, event by event. */
  function Shown(s: State, es: seq<Event>, p: Peer): seq<Byte>
    decreases |es|
  {
    if es == [] then []
    else
      var earlier, e := es[..|es| - 1], es[|es| - 1];
      var before := Execute(s, earlier).share;
      Shown(s, earlier, p)
      + (if IsOpenViewer(before, p) then SentNow(before, e) else [])
      + (if ComesAsViewer(before, e, p) then LastOf(Sent(s, earlier)) else [])
  }

  lemma TailIsLast(bytes: seq<Byte>)
    ensures Tail(bytes) == LastOf(bytes)
  {
  }

  /** Over any run the share's replay is the end of what the owners sent, */
  lemma {:induction false} StreamIsSent(s: State, es: seq<Event>)
    requires Init(s)
    ensures Execute(s, es).share.stream == Sent(s, es) && Execute(s, es).share.replay == LastOf(Sent(s, es))
    decreases |es|
  {
    SharesStaySound(s, es);
    TailIsLast(Execute(s, es).share.stream);
    if es != [] {
      StreamIsSent(s, es[..|es| - 1]);
      SharesStaySound(s, es[..|es| - 1]);
      StreamGrows(Execute(s, es[..|es| - 1]).share, es[|es| - 1]);
    }
  }

  /** and each peer was shown, of that, what it was an open viewer for, and the end of it when it came. */
  lemma {:induction false} ShownIsSent(s: State, es: seq<Event>, p: Peer)
    requires Init(s)
    ensures Known(Execute(s, es), p).shown == Shown(s, es, p)
    decreases |es|
  {
    if es != [] {
      var earlier := es[..|es| - 1];
      ShownIsSent(s, earlier, p);
      StreamIsSent(s, earlier);
      SharesStaySound(s, earlier);
      StepShows(Execute(s, earlier), es[|es| - 1], p);
    }
  }

  ghost predicate IsStretchOf(shown: seq<Byte>, sent: seq<Byte>, open: bool) {
    exists start: nat, end: nat :: start <= end <= |sent| && shown == sent[start..end] && (open ==> end == |sent|)
  }

  /** So every viewer has seen one stretch of the owners' output, up to its end while the viewer is open. */
  lemma ViewersFollowOwners(s: State, es: seq<Event>, p: Peer)
    requires Init(s) && p in PeersOf(Execute(s, es).share.viewers)
    ensures IsStretchOf(Shown(s, es, p), Sent(s, es), p !in Execute(s, es).share.closed)
  {
    SharesStaySound(s, es);
    StreamIsSent(s, es);
    ShownIsSent(s, es, p);
    assert Follows(Execute(s, es), p);
    var start: nat, end: nat :| IsStretch(Execute(s, es), p, start, end);
    assert Shown(s, es, p) == Sent(s, es)[start..end];
  }

  // The terminal's size

  /** The last size among these messages. */
  function SizeIn(messages: seq<Message>): Option<(int, int)> {
    if messages == [] then None
    else
      match messages[|messages| - 1]
      case ViewerReady(cols, rows) => Some((cols, rows))
      case Resized(cols, rows) => Some((cols, rows))
      case _ => SizeIn(messages[..|messages| - 1])
  }

  predicate TellsSize(m: Message) {
    m.ViewerReady? || m.Resized?
  }

  /** The last size a peer has been told after these posts. */
  function SizeHeard(known: Option<(int, int)>, posts: seq<Post>, deaf: set<Peer>, peer: Peer): Option<(int, int)> {
    if posts == [] then known
    else
      var last := posts[|posts| - 1];
      if Hears(last, deaf, peer) && TellsSize(last.message) then SizeIn([last.message])
      else SizeHeard(known, posts[..|posts| - 1], deaf, peer)
  }

  lemma SizeOfMore(messages: seq<Message>, m: Message)
    ensures SizeIn(messages + [m]) == if TellsSize(m) then SizeIn([m]) else SizeIn(messages)
  {
    assert (messages + [m])[..|messages + [m]| - 1] == messages;
  }

  lemma {:induction false} DeliveredSize(inbox: Inboxes, deaf: set<Peer>, posts: seq<Post>, peer: Peer)
    ensures SizeIn(Inbox(Deliver(inbox, deaf, posts), peer)) == SizeHeard(SizeIn(Inbox(inbox, peer)), posts, deaf, peer)
  {
    if posts != [] {
      var rest, last := posts[..|posts| - 1], posts[|posts| - 1];
      DeliveredSize(inbox, deaf, rest, peer);
      SizeOfMore(Inbox(Deliver(inbox, deaf, rest), peer), last.message);
    }
  }

  lemma {:induction false} NoSizeHeard(known: Option<(int, int)>, posts: seq<Post>, deaf: set<Peer>, peer: Peer)
    requires forall i :: 0 <= i < |posts| ==> !(peer in posts[i].to && TellsSize(posts[i].message))
    ensures SizeHeard(known, posts, deaf, peer) == known
  {
    if posts != [] { NoSizeHeard(known, posts[..|posts| - 1], deaf, peer); }
  }

  predicate Resizes(s: Share, e: Event) {
    e.Frame? && e.text.Resize? && e.peer in s.joined && e.peer !in s.gone
  }

  /** The size is what a participant last asked for, or what the share was made with. */
  function SizeAsked(s: State, es: seq<Event>): (int, int)
    decreases |es|
  {
    if es == [] then (s.share.cols, s.share.rows)
    else
      var e := es[|es| - 1];
      if Resizes(Execute(s, es[..|es| - 1]).share, e) then (e.text.cols, e.text.rows) else SizeAsked(s, es[..|es| - 1])
  }

  ghost predicate SizesKnown(s: State) {
    forall p :: IsOpenViewer(s.share, p) ==> SizeIn(Inbox(s.inbox, p)) == Some((s.share.cols, s.share.rows))
  }

  lemma OthersKeepSize(s: Share, e: Event)
    requires !Resizes(s, e) && !JoinsAsViewer(s, e)
    ensures React(s, e).share.cols == s.cols && React(s, e).share.rows == s.rows
    ensures forall i :: 0 <= i < |React(s, e).posts| ==> !TellsSize(React(s, e).posts[i].message)
  {
  }

  /** Apart from one that comes in, an open viewer was one before. */
  lemma ViewersWereThere(s: Share, e: Event, p: Peer)
    requires Seated(s) && !JoinsAsViewer(s, e) && IsOpenViewer(React(s, e).share, p)
    ensures IsOpenViewer(s, p)
  {
    PeersAre(s.viewers, p);
    PeersAre(React(s, e).share.viewers, p);
    if Extends(s, e) {
    } else {
      OthersAreQuiet(s, e);
    }
  }

  lemma ResizeIsHeard(s: Share, e: Event, known: Option<(int, int)>, p: Peer)
    requires Resizes(s, e) && IsOpenViewer(s, p)
    ensures SizeHeard(known, React(s, e).posts, s.closed, p) == Some((e.text.cols, e.text.rows))
  {
    var posts := React(s, e).posts;
    PeersAre(s.viewers, p);
    assert posts == [Post(PeersOf(s.viewers), Resized(e.text.cols, e.text.rows))];
    assert SizeIn([Resized(e.text.cols, e.text.rows)]) == Some((e.text.cols, e.text.rows));
  }

  lemma JoinTellsSize(s: Share, e: Event, known: Option<(int, int)>, p: Peer)
    requires JoinsAsViewer(s, e) && p !in s.closed
    ensures SizeHeard(known, React(s, e).posts, s.closed, p) == if p == e.peer then Some((s.cols, s.rows)) else known
  {
    var posts := React(s, e).posts;
    assert SizeIn([ViewerReady(s.cols, s.rows)]) == Some((s.cols, s.rows));
    if p == e.peer {
      var one := posts[..1];
      assert posts[..4] == posts && posts[..4][..3] == posts[..3]
             && posts[..3][..2] == posts[..2] && posts[..2][..1] == one;
      assert SizeHeard(known, one, s.closed, p) == SizeHeard(known, posts[..2], s.closed, p);
      assert SizeHeard(known, posts[..2], s.closed, p) == SizeHeard(known, posts[..3], s.closed, p);
    } else {
      NoSizeHeard(known, posts, s.closed, p);
    }
  }

  lemma StepKeepsSizes(s: State, e: Event)
    requires Seated(s.share) && SizesKnown(s)
    ensures SizesKnown(Step(s, e))
  {
    var t, o := Step(s, e), React(s.share, e);
    forall p | IsOpenViewer(t.share, p) ensures SizeIn(Inbox(t.inbox, p)) == Some((t.share.cols, t.share.rows)) {
      DeliveredSize(s.inbox, Deaf(s.share, e), o.posts, p);
      var known := SizeIn(Inbox(s.inbox, p));
      if JoinsAsViewer(s.share, e) {
        JoinTellsSize(s.share, e, known, p);
        JoinedViewers(s.share, e, p);
      } else {
        ViewersWereThere(s.share, e, p);
        if Resizes(s.share, e) {
          ResizeIsHeard(s.share, e, known, p);
        } else {
          OthersKeepSize(s.share, e);
          NoSizeHeard(known, o.posts, Deaf(s.share, e), p);
        }
      }
    }
  }

  lemma JoinedViewers(s: Share, e: Event, p: Peer)
    requires JoinsAsViewer(s, e)
    ensures IsOpenViewer(React(s, e).share, p) ==> p !in s.closed && (p == e.peer || IsOpenViewer(s, p))
    ensures React(s, e).share.cols == s.cols && React(s, e).share.rows == s.rows
  {
  }

  /** Over any run the size is the one last asked for, and every open viewer knows it. */
  lemma {:induction false} SizesAreKnown(s: State, es: seq<Event>)
    requires Init(s)
    ensures SizesKnown(Execute(s, es))
    ensures (Execute(s, es).share.cols, Execute(s, es).share.rows) == SizeAsked(s, es)
    decreases |es|
  {
    if es != [] {
      var earlier, e := es[..|es| - 1], es[|es| - 1];
      SizesAreKnown(s, earlier);
      SharesStaySound(s, earlier);
      StepKeepsSizes(Execute(s, earlier), e);
      var share := Execute(s, earlier).share;
      if !Resizes(share, e) {
        if JoinsAsViewer(share, e) { JoinedViewers(share, e, 0); } else { OthersKeepSize(share, e); }
      }
    }
  }

  // Coming in

  /** Let in, the owner or a viewer; anything else closes the peer, and tells nobody. */
  lemma WhoIsLetIn(s: Share, e: Event)
    requires e.Frame? && e.peer !in s.joined && e.peer !in s.gone
    ensures var t := React(s, e).share;
      if e.text.Auth? && e.text.account.Some? && e.text.found && s.live then
        t == if e.text.account.value.email == s.ownerEmail
             then s.(owner := Some(e.peer), joined := s.joined + {e.peer})
             else s.(viewers := s.viewers + [Viewer(e.peer, e.text.account.value.userId, false)],
                     joined := s.joined + {e.peer})
      else
        t == s.(closed := s.closed + {e.peer}) && React(s, e).posts == []
  {
  }

  // Requests

  /** How often these posts tell a peer this. */
  function Times(posts: seq<Post>, deaf: set<Peer>, peer: Peer, m: Message): nat {
    if posts == [] then 0
    else Times(posts[..|posts| - 1], deaf, peer, m)
         + if Hears(posts[|posts| - 1], deaf, peer) && posts[|posts| - 1].message == m then 1 else 0
  }

  /** The peer is a viewer of this user that asks for control. */
  predicate AsksAs(viewers: seq<Viewer>, userId: string, p: Peer) {
    exists i :: 0 <= i < |viewers| && viewers[i].peer == p && Asks(viewers[i], userId)
  }

  lemma {:induction false} AllAskingAre(viewers: seq<Viewer>, userId: string, p: Peer)
    ensures p in AllAsking(viewers, userId) <==> AsksAs(viewers, userId, p)
  {
    if viewers != [] {
      var n := |viewers| - 1;
      AllAskingAre(viewers[..n], userId, p);
      if i :| 0 <= i < n && viewers[..n][i].peer == p && Asks(viewers[..n][i], userId) { assert viewers[i].peer == p; }
      if i :| 0 <= i < |viewers| && viewers[i].peer == p && Asks(viewers[i], userId) && i < n {
        assert viewers[..n][i].peer == p;
      }
    }
  }

  /** A decline closes every request of its user and no other, and tells each viewer that asked, once. */
  lemma DeclineClosesRequests(s: Share, peer: Peer, userId: string, p: Peer)
    requires peer in s.joined && peer !in s.gone
    ensures var o := React(s, Frame(peer, Decline(userId)));
      && |o.share.viewers| == |s.viewers| && o.share == s.(viewers := o.share.viewers)
      && (forall i :: 0 <= i < |s.viewers| ==>
            o.share.viewers[i]
              == if s.viewers[i].userId == userId then s.viewers[i].(requesting := false) else s.viewers[i])
      && Times(o.posts, s.closed, p, Declined)
         == if p !in s.closed && AsksAs(s.viewers, userId, p) then 1 else 0
  {
    var posts := React(s, Frame(peer, Decline(userId))).posts;
    AllAskingAre(s.viewers, userId, p);
    assert posts[..2] == posts && posts[..2][..1] == posts[..1] && posts[..1][..0] == [];
    assert Times(posts[..1], s.closed, p, Declined) == Times(posts, s.closed, p, Declined);
  }

  /** Asking marks the asking viewer, unless it holds control, and changes nothing else. */
  lemma AskingMarksOwn(s: Share, peer: Peer)
    requires peer in s.joined && peer !in s.gone
    ensures var t := React(s, Frame(peer, RequestControl)).share;
      && |t.viewers| == |s.viewers| && t == s.(viewers := t.viewers)
      && (forall i :: 0 <= i < |s.viewers| ==>
            t.viewers[i]
              == if s.viewers[i].peer == peer && s.control != Some(peer) then s.viewers[i].(requesting := true)
                            else s.viewers[i])
  {
  }

  /** A ping is answered, to whoever sent it and nobody else. */
  lemma PingIsAnswered(s: Share, peer: Peer, p: Peer)
    requires peer in s.joined && peer !in s.gone
    ensures React(s, Frame(peer, Ping)).share == s
    ensures Times(React(s, Frame(peer, Ping)).posts, s.closed, p, Pong) == if p == peer && p !in s.closed then 1 else 0
  {
    var posts := React(s, Frame(peer, Ping)).posts;
    assert posts[..0] == [];
  }

  // Ends and closings

  /** A participant ends the share, or its owner leaves. */
  predicate EndsFor(s: Share, e: Event, reason: string) {
    && s.live && e.peer in s.joined && e.peer !in s.gone
    && ((e.Frame? && e.text.End? && reason == "ended")
        || (e.Closed? && s.owner == Some(e.peer) && reason == "owner-left"))
  }

  lemma QuietUnlessEnding(s: Share, e: Event)
    requires !EndsFor(s, e, "ended") && !EndsFor(s, e, "owner-left")
    ensures React(s, e).share.live == s.live && NoEnding(React(s, e).posts)
  {
  }

  lemma EndingIs(s: Share, e: Event, reason: string)
    requires EndsFor(s, e, reason)
    ensures React(s, e).posts == [Post(Everyone(s), Ended(reason))] && !React(s, e).share.live
    ensures Everyone(s) <= React(s, e).share.closed
  {
  }

  /** A live share ends exactly so, and all its participants still open are told why, once, and closed. */
  lemma WhenShareEnds(s: Share, e: Event, p: Peer, reason: string)
    ensures React(s, e).share.live <==> s.live && !EndsFor(s, e, "ended") && !EndsFor(s, e, "owner-left")
    ensures EndsFor(s, e, reason) && p in Everyone(s) ==> p in React(s, e).share.closed
    ensures Times(React(s, e).posts, Deaf(s, e), p, Ended(reason))
            == if EndsFor(s, e, reason) && p in Everyone(s) && p !in s.closed && !(e.Closed? && p == e.peer) then 1
               else 0
  {
    if EndsFor(s, e, "ended") || EndsFor(s, e, "owner-left") {
      var why := if EndsFor(s, e, "ended") then "ended" else "owner-left";
      EndingIs(s, e, why);
      TimesOnce(Post(Everyone(s), Ended(why)), Deaf(s, e), p, Ended(reason));
    } else {
      QuietUnlessEnding(s, e);
      NeverTold(React(s, e).posts, Deaf(s, e), p, Ended(reason));
    }
  }

  lemma TimesOnce(post: Post, deaf: set<Peer>, p: Peer, m: Message)
    ensures Times([post], deaf, p, m) == if Hears(post, deaf, p) && post.message == m then 1 else 0
  {
    assert [post][..0] == [];
  }

  predicate IsLetIn(s: Share, e: Event) {
    e.Frame? && e.text.Auth? && e.text.account.Some? && e.text.found && s.live
  }

  /**
   Nothing more is sent to a peer that closes, that is not let in, or whose share ends; and to everybody else it is.
   */
  lemma WhoIsClosed(s: Share, e: Event, p: Peer)
    ensures p in React(s, e).share.closed
            <==> p in s.closed
                 || (p == e.peer && e.peer !in s.gone
                     && (e.Closing? || e.Closed? || (e.Frame? && e.peer !in s.joined && !IsLetIn(s, e))))
                 || (p in Everyone(s) && (EndsFor(s, e, "ended") || EndsFor(s, e, "owner-left")))
  {
  }

  /** The frames that go to the share are those of the peers it let in, until they leave or it ends. */
  lemma WhoIsJoined(s: Share, e: Event, p: Peer)
    ensures p in React(s, e).share.joined
            <==> !(p in Everyone(s) && (EndsFor(s, e, "ended") || EndsFor(s, e, "owner-left")))
                 && !(e.Closed? && p == e.peer && e.peer !in s.gone)
                 && (p in s.joined || (p == e.peer && e.peer !in s.gone && IsLetIn(s, e)))
  {
  }

  predicate ComesAsOwner(s: Share, e: Event) {
    e.peer !in s.gone && e.peer !in s.joined && IsLetIn(s, e) && e.text.account.value.email == s.ownerEmail
  }

  /** An owner that comes in is told so, once, and nobody else is ever told that. */
  lemma OwnerIsWelcomed(s: Share, e: Event, p: Peer)
    ensures Times(React(s, e).posts, Deaf(s, e), p, OwnerReady)
            == if ComesAsOwner(s, e) && p == e.peer && p !in s.closed then 1 else 0
  {
    var posts := React(s, e).posts;
    if ComesAsOwner(s, e) {
      var first := Post({e.peer}, OwnerReady);
      assert posts[..1] == [first] && |posts| == 2 && posts[1].message.Viewers?;
      TimesOnce(first, Deaf(s, e), p, OwnerReady);
    } else {
      NoWelcome(s, e);
      NeverTold(posts, Deaf(s, e), p, OwnerReady);
    }
  }

  predicate Untold(posts: seq<Post>, m: Message) {
    forall i :: 0 <= i < |posts| ==> posts[i].message != m
  }

  lemma NoWelcome(s: Share, e: Event)
    requires !ComesAsOwner(s, e)
    ensures Untold(React(s, e).posts, OwnerReady)
  {
  }

  lemma {:induction false} NeverTold(posts: seq<Post>, deaf: set<Peer>, p: Peer, m: Message)
    requires Untold(posts, m)
    ensures Times(posts, deaf, p, m) == 0
  {
    if posts != [] { NeverTold(posts[..|posts| - 1], deaf, p, m); }
  }

  /** The list of viewers has each viewer's user, whether it holds control, and whether it asks for it, in order. */
  lemma ViewersAreSeen(s: Share)
    ensures |SeenNow(s)| == |s.viewers|
    ensures forall i :: 0 <= i < |s.viewers| ==>
      && SeenNow(s)[i].userId == s.viewers[i].userId && SeenNow(s)[i].requesting == s.viewers[i].requesting
      && (SeenNow(s)[i].control <==> s.control == Some(s.viewers[i].peer))
  {
  }
}
