/**
 One shared terminal (`e2e/helpers/fake-server.ts`): what each frame does to the share and which messages it sends.
 The frames of peers that belong to another share never reach it.
 */
module Relay {
  import opened Wrappers

  const REPLAY_LIMIT: nat := 256 * 1024

  type Peer = nat
  type Byte = x: nat | x < 256

  datatype Account = Account(email: string, userId: string)
  datatype Viewer = Viewer(peer: Peer, userId: string, requesting: bool)
  datatype Seen = Seen(userId: string, control: bool, requesting: bool)

  datatype Message =
    | OwnerReady
    | ViewerReady(cols: int, rows: int)
    | Output(bytes: seq<Byte>)
    | Control(holder: Option<string>)
    | Viewers(viewers: seq<Seen>)
    | Resized(cols: int, rows: int)
    | Declined
    | Typed(userId: string, data: string)
    | Pong
    | Ended(reason: string)

  /** `found` tells whether an `auth` names this share and its workspace; `None` is a token of no session. */
  datatype Text =
    | Auth(account: Option<Account>, found: bool)
    | Ping
    | Resize(cols: int, rows: int)
    | Grant(userId: string)
    | Decline(userId: string)
    | TakeBack
    | End
    | RequestControl
    | Release
    | Input(data: string)
    | Unknown

  datatype Share = Share(
    ownerEmail: string,
    live: bool,
    owner: Option<Peer>,
    viewers: seq<Viewer>,               // in the order they joined
    control: Option<Peer>,
    replay: seq<Byte>,
    cols: int,
    rows: int,
    joined: set<Peer>,                  // the peers whose frames go to this share
    closed: set<Peer>,                  // nothing more is sent to these
    gone: set<Peer>,                    // and nothing more comes from these
    stream: seq<Byte>)                  // all the owner has sent

  /** A message to each of these peers that is not closed. */
  datatype Post = Post(to: set<Peer>, message: Message)
  datatype Outcome = Outcome(share: Share, posts: seq<Post>)

  /** All each peer was sent. */
  datatype Inboxes = Inboxes(of: map<Peer, seq<Message>>)

  /** A share, and what it sent. */
  datatype State = State(share: Share, inbox: Inboxes)

  datatype Event =
    | Frame(peer: Peer, text: Text)
    | Binary(peer: Peer, bytes: seq<Byte>)
    | Closing(peer: Peer)               // a close frame went either way
    | Closed(peer: Peer)

  function Tail(bytes: seq<Byte>): seq<Byte> {
    if |bytes| <= REPLAY_LIMIT then bytes else bytes[|bytes| - REPLAY_LIMIT..]
  }

  function Inbox(inbox: Inboxes, peer: Peer): seq<Message> {
    if peer in inbox.of then inbox.of[peer] else []
  }

  function DeliverOne(inbox: Inboxes, deaf: set<Peer>, post: Post): Inboxes {
    Inboxes(map p | p in inbox.of.Keys + post.to ::
      if p in post.to && p !in deaf then Inbox(inbox, p) + [post.message] else Inbox(inbox, p))
  }

  function Deliver(inbox: Inboxes, deaf: set<Peer>, posts: seq<Post>): Inboxes {
    if posts == [] then inbox
    else DeliverOne(Deliver(inbox, deaf, posts[..|posts| - 1]), deaf, posts[|posts| - 1])
  }

  function PeersOf(viewers: seq<Viewer>): set<Peer> {
    if viewers == [] then {} else {viewers[0].peer} + PeersOf(viewers[1..])
  }

  function Everyone(s: Share): set<Peer> {
    PeersOf(s.viewers) + if s.owner.Some? then {s.owner.value} else {}
  }

  function Find(viewers: seq<Viewer>, peer: Peer): Option<Viewer> {
    if viewers == [] then None else if viewers[0].peer == peer then Some(viewers[0]) else Find(viewers[1..], peer)
  }

  function Without(viewers: seq<Viewer>, peer: Peer): seq<Viewer> {
    if viewers == [] then []
    else if viewers[0].peer == peer then Without(viewers[1..], peer)
    else [viewers[0]] + Without(viewers[1..], peer)
  }

  function SetRequesting(viewers: seq<Viewer>, peer: Peer, requesting: bool): seq<Viewer> {
    seq(|viewers|, i requires 0 <= i < |viewers| =>
      if viewers[i].peer == peer then viewers[i].(requesting := requesting) else viewers[i])
  }

  /** The first viewer of this user that asks for control. */
  function Asking(viewers: seq<Viewer>, userId: string): Option<Peer> {
    if viewers == [] then None
    else if viewers[0].userId == userId && viewers[0].requesting then Some(viewers[0].peer)
    else Asking(viewers[1..], userId)
  }

  function DeclineAll(viewers: seq<Viewer>, userId: string): seq<Viewer> {
    seq(|viewers|, i requires 0 <= i < |viewers| =>
      if viewers[i].userId == userId then viewers[i].(requesting := false) else viewers[i])
  }

  function AllAsking(viewers: seq<Viewer>, userId: string): set<Peer> {
    if viewers == [] then {}
    else
      var v := viewers[|viewers| - 1];
      AllAsking(viewers[..|viewers| - 1], userId) + if v.userId == userId && v.requesting then {v.peer} else {}
  }

  /** The user who holds control. */
  function Holder(s: Share): Option<string> {
    if s.control.None? then None
    else
      var v := Find(s.viewers, s.control.value);
      if v.None? then None else Some(v.value.userId)
  }

  function SeenNow(s: Share): seq<Seen> {
    seq(|s.viewers|, i requires 0 <= i < |s.viewers| =>
      Seen(s.viewers[i].userId, s.control == Some(s.viewers[i].peer), s.viewers[i].requesting))
  }

  /** Everybody is sent the list of viewers. */
  function ViewersPost(s: Share): Post {
    Post(Everyone(s), Viewers(SeenNow(s)))
  }

  /** Everybody is sent who holds control, then the list of viewers. */
  function ControlPosts(s: Share): seq<Post> {
    [Post(Everyone(s), Control(Holder(s))), ViewersPost(s)]
  }

  function EndShare(s: Share, reason: string): Outcome {
    if !s.live then Outcome(s, [])
    else
      var all := Everyone(s);
      Outcome(s.(live := false, joined := s.joined - all, closed := s.closed + all), [Post(all, Ended(reason))])
  }

  function JoinOwner(s: Share, peer: Peer): Outcome {
    var t := s.(owner := Some(peer), joined := s.joined + {peer});
    Outcome(t, [Post({peer}, OwnerReady), ViewersPost(t)])
  }

  /** A viewer is brought up to date: the size, the end of the stream, and that nobody holds control. */
  function JoinViewer(s: Share, peer: Peer, userId: string): Outcome {
    var t := s.(viewers := s.viewers + [Viewer(peer, userId, false)], joined := s.joined + {peer});
    var replay := Post(if s.replay == [] then {} else {peer}, Output(s.replay));
    Outcome(t, [Post({peer}, ViewerReady(s.cols, s.rows)), replay, Post({peer}, Control(None)), ViewersPost(t)])
  }

  function Hangup(s: Share, peer: Peer): Outcome {
    Outcome(s.(closed := s.closed + {peer}), [])
  }

  function OnAuth(s: Share, peer: Peer, account: Option<Account>, found: bool): Outcome {
    if account.None? || !s.live || !found then Hangup(s, peer)
    else if account.value.email == s.ownerEmail then JoinOwner(s, peer)
    else JoinViewer(s, peer, account.value.userId)
  }

  function OnGrant(s: Share, userId: string): Outcome {
    var to := Asking(s.viewers, userId);
    if to.None? then Outcome(s, [])
    else
      var t := s.(viewers := SetRequesting(s.viewers, to.value, false), control := to);
      Outcome(t, ControlPosts(t))
  }

  function OnDecline(s: Share, userId: string): Outcome {
    var t := s.(viewers := DeclineAll(s.viewers, userId));
    Outcome(t, [Post(AllAsking(s.viewers, userId), Declined), ViewersPost(t)])
  }

  function OnFrame(s: Share, peer: Peer, text: Text): Outcome {
    match text
    case Ping => Outcome(s, [Post({peer}, Pong)])
    case Resize(cols, rows) =>
      Outcome(s.(cols := cols, rows := rows), [Post(PeersOf(s.viewers), Resized(cols, rows))])
    case Grant(userId) => OnGrant(s, userId)
    case Decline(userId) => OnDecline(s, userId)
    case TakeBack =>
      var t := s.(control := None);
      Outcome(t, ControlPosts(t))
    case End => EndShare(s, "ended")
    case RequestControl =>
      var t := if s.control == Some(peer) then s else s.(viewers := SetRequesting(s.viewers, peer, true));
      Outcome(t, [ViewersPost(t)])
    case Release =>
      var t := if s.control == Some(peer) then s.(control := None) else s;
      Outcome(t, ControlPosts(t))
    case Input(data) =>
      var v := Find(s.viewers, peer);
      if v.None? || s.control != Some(peer) || s.owner.None? then Outcome(s, [])
      else Outcome(s, [Post({s.owner.value}, Typed(v.value.userId, data))])
    case _ => Outcome(s, [])
  }

  function OnOutput(s: Share, peer: Peer, bytes: seq<Byte>): Outcome {
    if peer !in s.joined || s.owner != Some(peer) then Outcome(s, [])
    else
      Outcome(s.(stream := s.stream + bytes, replay := Tail(s.replay + bytes)),
        [Post(PeersOf(s.viewers), Output(bytes))])
  }

  function OnClosed(s: Share, peer: Peer): Outcome {
    var t := s.(closed := s.closed + {peer}, gone := s.gone + {peer}, joined := s.joined - {peer});
    if peer !in s.joined then Outcome(t, [])
    else if s.owner == Some(peer) then EndShare(t, "owner-left")
    else if s.control == Some(peer) then
      var left := t.(viewers := Without(s.viewers, peer), control := None);
      Outcome(left, ControlPosts(left))
    else
      var left := t.(viewers := Without(s.viewers, peer));
      Outcome(left, [ViewersPost(left)])
  }

  function React(s: Share, e: Event): Outcome {
    if e.peer in s.gone then Outcome(s, [])
    else
      match e
      case Frame(peer, text) =>
        if peer in s.joined then OnFrame(s, peer, text)
        else if text.Auth? then OnAuth(s, peer, text.account, text.found)
        else Hangup(s, peer)
      case Binary(peer, bytes) => OnOutput(s, peer, bytes)
      case Closing(peer) => Hangup(s, peer)
      case Closed(peer) => OnClosed(s, peer)
  }

  /** The peers that hear nothing of what an event sends. */
  function Deaf(s: Share, e: Event): set<Peer> {
    if e.Closed? then s.closed + {e.peer} else s.closed
  }

  function Step(s: State, e: Event): State {
    var o := React(s.share, e);
    State(o.share, Deliver(s.inbox, Deaf(s.share, e), o.posts))
  }

  function Execute(s: State, es: seq<Event>): State {
    if es == [] then s else Step(Execute(s, es[..|es| - 1]), es[|es| - 1])
  }

  /** A share as it is made, before anybody joins it. */
  ghost predicate Init(s: State) {
    && s.share.live && s.share.owner.None? && s.share.viewers == [] && s.share.control.None?
    && s.share.replay == [] && s.share.stream == [] && s.share.joined == {} && s.inbox == Inboxes(map[])
    && s.share.gone <= s.share.closed
  }
}
