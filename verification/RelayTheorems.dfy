/**
 What every run of a shared terminal keeps: the replay, each viewer's stretch of the stream, and who holds control.
 */
module RelayTheorems {
  import opened Wrappers
  import opened Relay

  // What a peer makes of its messages

  /**
   All the output it was shown, the last list of viewers it was sent, who it was last told holds control (nobody,
   before it is told), whose input it was handed, and how often it was told that the share ended.
   */
  datatype Knowledge = Knowledge(
    shown: seq<Byte>,
    viewers: Option<seq<Seen>>,
    control: Option<string>,
    handed: seq<(string, string)>,
    endings: nat)

  const NOTHING := Knowledge([], None, None, [], 0)

  function Learn(k: Knowledge, m: Message): Knowledge {
    match m
    case Output(bytes) => k.(shown := k.shown + bytes)
    case Viewers(viewers) => k.(viewers := Some(viewers))
    case Control(holder) => k.(control := holder)
    case Typed(userId, data) => k.(handed := k.handed + [(userId, data)])
    case Ended(_) => k.(endings := k.endings + 1)
    case _ => k
  }

  function Know(messages: seq<Message>): Knowledge {
    if messages == [] then NOTHING else Learn(Know(messages[..|messages| - 1]), messages[|messages| - 1])
  }

  predicate Hears(post: Post, deaf: set<Peer>, peer: Peer) {
    peer in post.to && peer !in deaf
  }

  /** What a peer knows after these posts. */
  function Hear(k: Knowledge, posts: seq<Post>, deaf: set<Peer>, peer: Peer): Knowledge {
    if posts == [] then k
    else
      var before := Hear(k, posts[..|posts| - 1], deaf, peer);
      if Hears(posts[|posts| - 1], deaf, peer) then Learn(before, posts[|posts| - 1].message) else before
  }

  /** What a peer of a share knows. */
  function Known(s: State, peer: Peer): Knowledge {
    Know(Inbox(s.inbox, peer))
  }

  lemma KnowMore(messages: seq<Message>, m: Message)
    ensures Know(messages + [m]) == Learn(Know(messages), m)
  {
    assert (messages + [m])[..|messages + [m]| - 1] == messages;
  }

  lemma {:induction false} DeliveredIsHeard(inbox: Inboxes, deaf: set<Peer>, posts: seq<Post>, peer: Peer)
    ensures Know(Inbox(Deliver(inbox, deaf, posts), peer)) == Hear(Know(Inbox(inbox, peer)), posts, deaf, peer)
  {
    if posts != [] {
      var rest, last := posts[..|posts| - 1], posts[|posts| - 1];
      DeliveredIsHeard(inbox, deaf, rest, peer);
      KnowMore(Inbox(Deliver(inbox, deaf, rest), peer), last.message);
    }
  }

  /** A step lets each peer hear what the event sends. */
  lemma StepIsHeard(s: State, e: Event, peer: Peer)
    ensures Known(Step(s, e), peer) == Hear(Known(s, peer), React(s.share, e).posts, Deaf(s.share, e), peer)
  {
    DeliveredIsHeard(s.inbox, Deaf(s.share, e), React(s.share, e).posts, peer);
  }

  predicate NoOutput(posts: seq<Post>) {
    forall i :: 0 <= i < |posts| ==> !posts[i].message.Output?
  }

  predicate NoLists(posts: seq<Post>) {
    forall i :: 0 <= i < |posts| ==> !posts[i].message.Viewers?
  }

  predicate NoControl(posts: seq<Post>) {
    forall i :: 0 <= i < |posts| ==> !posts[i].message.Control?
  }

  predicate NoInput(posts: seq<Post>) {
    forall i :: 0 <= i < |posts| ==> !posts[i].message.Typed?
  }

  predicate NoEnding(posts: seq<Post>) {
    forall i :: 0 <= i < |posts| ==> !posts[i].message.Ended?
  }

  /** Posts without output, without lists of viewers and so on leave what a peer knows of those alone. */
  lemma {:induction false} Unheard(k: Knowledge, posts: seq<Post>, deaf: set<Peer>, peer: Peer)
    ensures var now := Hear(k, posts, deaf, peer);
      && (NoOutput(posts) ==> now.shown == k.shown)
      && (NoLists(posts) ==> now.viewers == k.viewers)
      && (NoControl(posts) ==> now.control == k.control)
      && (NoInput(posts) ==> now.handed == k.handed)
      && (NoEnding(posts) ==> now.endings == k.endings)
      && ((forall i :: 0 <= i < |posts| ==> peer !in posts[i].to) ==> now == k)
  {
    if posts != [] { Unheard(k, posts[..|posts| - 1], deaf, peer); }
  }

  // What every run keeps

  predicate Distinct(viewers: seq<Viewer>) {
    forall i, j :: 0 <= i < j < |viewers| ==> viewers[i].peer != viewers[j].peer
  }

  /** Who belongs to a share while it is live. */
  predicate Seated(s: Share) {
    && Distinct(s.viewers)
    && (s.owner.Some? ==> s.owner.value !in PeersOf(s.viewers))
    && (s.live ==> Everyone(s) <= s.joined)
    && (!s.live ==> Everyone(s) !! s.joined)
    && s.joined !! s.gone && s.gone <= s.closed
  }

  /** Control is nobody's, or a viewer's who is not asking for it. */
  predicate ControlHeld(s: Share) {
    s.live && s.control.Some? ==>
      Find(s.viewers, s.control.value).Some? && !Find(s.viewers, s.control.value).value.requesting
  }

  predicate IsStretch(s: State, peer: Peer, start: nat, end: nat) {
    && start <= end <= |s.share.stream| && Known(s, peer).shown == s.share.stream[start..end]
    && (peer !in s.share.closed ==> end == |s.share.stream|)
  }

  /** What a peer has been shown is one stretch of the stream, up to its end while the peer is open. */
  ghost predicate Follows(s: State, peer: Peer) {
    exists start: nat, end: nat :: IsStretch(s, peer, start, end)
  }

  ghost predicate AllFollow(s: State) {
    forall p :: p in PeersOf(s.share.viewers) ==> Follows(s, p)
  }

  /** Nobody hears of a live share before joining it. */
  ghost predicate StrangersUntold(s: State) {
    s.share.live ==> forall p :: p !in s.share.joined && p !in s.share.gone ==> Known(s, p) == NOTHING
  }

  /** Everybody open has been told who the viewers are now. */
  ghost predicate ViewersKnown(s: State) {
    forall p :: p in Everyone(s.share) && p !in s.share.closed ==> Known(s, p).viewers == Some(SeenNow(s.share))
  }

  /** Nobody is told twice that the share ended, and nobody before it does. */
  ghost predicate EndedOnce(s: State) {
    forall p :: Known(s, p).endings <= if s.share.live then 0 else 1
  }

  lemma {:induction false} FindsViewer(viewers: seq<Viewer>, peer: Peer)
    ensures Find(viewers, peer).Some? <==> peer in PeersOf(viewers)
    ensures Find(viewers, peer).Some? ==> Find(viewers, peer).value in viewers && Find(viewers, peer).value.peer == peer
  {
    if viewers != [] { FindsViewer(viewers[1..], peer); }
  }

  lemma {:induction false} PeersAre(viewers: seq<Viewer>, peer: Peer)
    ensures peer in PeersOf(viewers) <==> exists i :: 0 <= i < |viewers| && viewers[i].peer == peer
  {
    if viewers != [] {
      PeersAre(viewers[1..], peer);
      if i :| 0 <= i < |viewers[1..]| && viewers[1..][i].peer == peer { assert viewers[i + 1].peer == peer; }
      if i :| 0 <= i < |viewers| && viewers[i].peer == peer && i > 0 { assert viewers[1..][i - 1].peer == peer; }
    }
  }

  lemma {:induction false} PeersTogether(a: seq<Viewer>, b: seq<Viewer>)
    ensures PeersOf(a + b) == PeersOf(a) + PeersOf(b)
  {
    if a == [] {
      assert a + b == b;
    } else {
      PeersTogether(a[1..], b);
      assert (a + b)[1..] == a[1..] + b;
    }
  }

  lemma {:induction false} AskingAreViewers(viewers: seq<Viewer>, userId: string)
    ensures AllAsking(viewers, userId) <= PeersOf(viewers)
  {
    if viewers != [] {
      var rest, last := viewers[..|viewers| - 1], viewers[|viewers| - 1];
      AskingAreViewers(rest, userId);
      PeersTogether(rest, [last]);
      assert rest + [last] == viewers;
      assert PeersOf([last]) == {last.peer};
    }
  }

  lemma {:induction false} FindsLater(a: seq<Viewer>, v: Viewer, peer: Peer)
    requires v.peer !in PeersOf(a)
    ensures Find(a + [v], peer) == if peer == v.peer then Some(v) else Find(a, peer)
  {
    if a == [] {
      assert a + [v] == [v];
    } else {
      FindsLater(a[1..], v, peer);
      assert (a + [v])[1..] == a[1..] + [v];
    }
  }

  lemma {:induction false} WithoutHolds(viewers: seq<Viewer>, peer: Peer)
    requires Distinct(viewers)
    ensures Distinct(Without(viewers, peer)) && PeersOf(Without(viewers, peer)) == PeersOf(viewers) - {peer}
  {
    if viewers != [] {
      var rest := Without(viewers[1..], peer);
      WithoutHolds(viewers[1..], peer);
      assert ([viewers[0]] + rest)[1..] == rest;
      PeersAre(viewers[1..], viewers[0].peer);
      forall i | 0 <= i < |rest| ensures rest[i].peer != viewers[0].peer { PeersAre(rest, rest[i].peer); }
    }
  }

  lemma {:induction false} WithoutFinds(viewers: seq<Viewer>, peer: Peer, other: Peer)
    requires other != peer
    ensures Find(Without(viewers, peer), other) == Find(viewers, other)
  {
    if viewers != [] {
      WithoutFinds(viewers[1..], peer, other);
      var rest := Without(viewers[1..], peer);
      assert ([viewers[0]] + rest)[1..] == rest;
    }
  }

  /** Two lists of viewers with the same peers and users in the same places. */
  predicate SamePeers(a: seq<Viewer>, b: seq<Viewer>) {
    |a| == |b| && forall i :: 0 <= i < |a| ==> a[i].peer == b[i].peer && a[i].userId == b[i].userId
  }

  lemma {:induction false} SamePeersHold(a: seq<Viewer>, b: seq<Viewer>, peer: Peer)
    requires SamePeers(a, b)
    ensures PeersOf(a) == PeersOf(b) && (Distinct(a) ==> Distinct(b))
    ensures Find(a, peer).Some? <==> Find(b, peer).Some?
    ensures Find(a, peer).Some? ==> Find(a, peer).value.userId == Find(b, peer).value.userId
  {
    if a != [] { SamePeersHold(a[1..], b[1..], peer); }
  }

  lemma {:induction false} SetFinds(viewers: seq<Viewer>, peer: Peer, requesting: bool, other: Peer)
    ensures Find(SetRequesting(viewers, peer, requesting), other)
         == if other == peer && Find(viewers, peer).Some?
            then Some(Find(viewers, peer).value.(requesting := requesting))
            else Find(viewers, other)
  {
    if viewers != [] && viewers[0].peer != other {
      SetFinds(viewers[1..], peer, requesting, other);
      assert SetRequesting(viewers, peer, requesting)[1..] == SetRequesting(viewers[1..], peer, requesting);
    }
  }

  lemma {:induction false} DeclineFinds(viewers: seq<Viewer>, userId: string, peer: Peer)
    ensures Find(DeclineAll(viewers, userId), peer)
         == if Find(viewers, peer).Some? && Find(viewers, peer).value.userId == userId
            then Some(Find(viewers, peer).value.(requesting := false)) else Find(viewers, peer)
  {
    if viewers != [] && viewers[0].peer != peer {
      DeclineFinds(viewers[1..], userId, peer);
      assert DeclineAll(viewers, userId)[1..] == DeclineAll(viewers[1..], userId);
    }
  }

  lemma {:induction false} AskingIsViewer(viewers: seq<Viewer>, userId: string)
    ensures Asking(viewers, userId).Some? ==> Asking(viewers, userId).value in PeersOf(viewers)
  {
    if viewers != [] { AskingIsViewer(viewers[1..], userId); }
  }

  // Each step: who belongs to the share

  lemma FrameKeepsSeated(s: Share, peer: Peer, text: Text)
    requires Seated(s) && peer in s.joined
    ensures Seated(OnFrame(s, peer, text).share)
  {
    match text
    case Grant(userId) =>
      var to := Asking(s.viewers, userId);
      if to.Some? { SamePeersHold(s.viewers, SetRequesting(s.viewers, to.value, false), peer); }
    case Decline(userId) => SamePeersHold(s.viewers, DeclineAll(s.viewers, userId), peer);
    case RequestControl => SamePeersHold(s.viewers, SetRequesting(s.viewers, peer, true), peer);
    case _ =>
  }

  lemma AuthKeepsSeated(s: Share, peer: Peer, account: Option<Account>, found: bool)
    requires Seated(s) && peer !in s.joined && peer !in s.gone
    ensures Seated(OnAuth(s, peer, account, found).share)
  {
    if account.Some? && s.live && found && account.value.email != s.ownerEmail {
      var v := Viewer(peer, account.value.userId, false);
      PeersTogether(s.viewers, [v]);
      assert PeersOf([v]) == {peer};
      forall i | 0 <= i < |s.viewers| ensures s.viewers[i].peer != peer { PeersAre(s.viewers, s.viewers[i].peer); }
    }
  }

  lemma ReactKeepsSeated(s: Share, e: Event)
    requires Seated(s)
    ensures Seated(React(s, e).share)
  {
    if e.peer !in s.gone {
      if e.Frame? && e.peer in s.joined {
        FrameKeepsSeated(s, e.peer, e.text);
      } else if e.Frame? && e.text.Auth? {
        AuthKeepsSeated(s, e.peer, e.text.account, e.text.found);
      } else if e.Closed? {
        WithoutHolds(s.viewers, e.peer);
      }
    }
  }

  // Each step: who holds control

  lemma FrameKeepsControlHeld(s: Share, peer: Peer, text: Text)
    requires ControlHeld(s) && s.live
    ensures ControlHeld(OnFrame(s, peer, text).share)
  {
    match text
    case Grant(userId) =>
      var to := Asking(s.viewers, userId);
      if to.Some? {
        AskingIsViewer(s.viewers, userId);
        FindsViewer(s.viewers, to.value);
        SetFinds(s.viewers, to.value, false, to.value);
      }
    case Decline(userId) => if s.control.Some? { DeclineFinds(s.viewers, userId, s.control.value); }
    case RequestControl => if s.control.Some? { SetFinds(s.viewers, peer, true, s.control.value); }
    case _ =>
  }

  /** Control stays nobody's, or a viewer's who is not asking for it. */
  lemma ReactKeepsControlHeld(s: Share, e: Event)
    requires Seated(s) && ControlHeld(s)
    ensures ControlHeld(React(s, e).share)
  {
    if e.peer !in s.gone && s.live {
      if e.Frame? && e.peer in s.joined {
        FrameKeepsControlHeld(s, e.peer, e.text);
      } else if e.Frame? && e.text.Auth? && e.text.account.Some? {
        if s.control.Some? {
          FindsLater(s.viewers, Viewer(e.peer, e.text.account.value.userId, false), s.control.value);
        }
      } else if e.Closed? && s.control.Some? && s.control.value != e.peer {
        WithoutFinds(s.viewers, e.peer, s.control.value);
      }
    }
  }

  predicate Asks(v: Viewer, userId: string) {
    v.userId == userId && v.requesting
  }

  predicate IsFirstAsking(viewers: seq<Viewer>, userId: string, i: nat) {
    i < |viewers| && Asks(viewers[i], userId) && forall j :: 0 <= j < i ==> !Asks(viewers[j], userId)
  }

  lemma {:induction false} AskingIsFirst(viewers: seq<Viewer>, userId: string)
    ensures Asking(viewers, userId).None? <==> forall i :: 0 <= i < |viewers| ==> !Asks(viewers[i], userId)
    ensures Asking(viewers, userId).Some? ==>
              exists i: nat :: IsFirstAsking(viewers, userId, i) && viewers[i].peer == Asking(viewers, userId).value
  {
    if viewers == [] {
    } else if Asks(viewers[0], userId) {
      FirstAskingHere(viewers, userId, 0);
    } else {
      var rest := viewers[1..];
      AskingIsFirst(rest, userId);
      forall j | 0 < j < |viewers| ensures viewers[j] == rest[j - 1] { }
      if Asking(rest, userId).Some? {
        var i: nat :| IsFirstAsking(rest, userId, i) && rest[i].peer == Asking(rest, userId).value;
        assert viewers[i + 1] == rest[i];
        forall j | 0 <= j < i + 1 ensures !Asks(viewers[j], userId) {
          if j > 0 { assert viewers[j] == rest[j - 1]; }
        }
        FirstAskingHere(viewers, userId, i + 1);
      }
    }
  }

  lemma FirstAskingHere(viewers: seq<Viewer>, userId: string, i: nat)
    requires IsFirstAsking(viewers, userId, i)
    ensures exists k: nat :: IsFirstAsking(viewers, userId, k) && viewers[k].peer == viewers[i].peer
  {
  }

  /**
   A grant gives control to the first of the user's viewers that asks, closes that request and no other, and takes
   control from whoever had it; when none asks it changes nothing.
   */
  lemma GrantGoesToFirst(s: Share, userId: string, i: nat)
    requires Seated(s) && IsFirstAsking(s.viewers, userId, i)
    ensures var t := OnGrant(s, userId).share;
      && t.control == Some(s.viewers[i].peer)
      && t == s.(control := t.control, viewers := s.viewers[i := s.viewers[i].(requesting := false)])
  {
    AskingIsFirst(s.viewers, userId);
    var k: nat :| IsFirstAsking(s.viewers, userId, k) && s.viewers[k].peer == Asking(s.viewers, userId).value;
    assert !(k < i) && !(i < k);
    var t := OnGrant(s, userId).share;
    assert t.viewers == s.viewers[i := s.viewers[i].(requesting := false)];
  }

  // Each step: what the viewers are shown

  /** A peer that is shown nothing more keeps its stretch. */
  lemma StillFollows(s: State, t: State, p: Peer)
    requires Follows(s, p) && t.share.stream == s.share.stream && s.share.closed <= t.share.closed
    requires Known(t, p).shown == Known(s, p).shown
    ensures Follows(t, p)
  {
    var start: nat, end: nat :| IsStretch(s, p, start, end);
    assert IsStretch(t, p, start, end);
  }

  /** A stretch of the stream is extended with it, unless the peer is closed. */
  lemma FollowsOn(s: State, t: State, bytes: seq<Byte>, p: Peer)
    requires Follows(s, p) && t.share.stream == s.share.stream + bytes && t.share.closed == s.share.closed
    requires Known(t, p).shown == Known(s, p).shown + if p in s.share.closed then [] else bytes
    ensures Follows(t, p)
  {
    var start: nat, end: nat :| IsStretch(s, p, start, end);
    StretchOn(s.share.stream, bytes, start, end);
    assert IsStretch(t, p, start, if p in s.share.closed then end else |t.share.stream|);
  }

  lemma StretchOn(stream: seq<Byte>, bytes: seq<Byte>, start: nat, end: nat)
    requires start <= end <= |stream|
    ensures (stream + bytes)[start..end] == stream[start..end]
    ensures (stream + bytes)[start..|stream + bytes|] == stream[start..|stream|] + bytes
  {
  }

  lemma TailIsStretch(t: State, p: Peer)
    requires Known(t, p).shown == if p in t.share.closed then [] else Tail(t.share.stream)
    ensures Follows(t, p)
  {
    var n := |t.share.stream|;
    var start := if p in t.share.closed then n else if n <= REPLAY_LIMIT then 0 else n - REPLAY_LIMIT;
    assert IsStretch(t, p, start, n);
  }

  lemma TailOfMore(stream: seq<Byte>, bytes: seq<Byte>)
    ensures Tail(Tail(stream) + bytes) == Tail(stream + bytes)
  {
  }

  predicate Joins(s: Share, e: Event) {
    && e.Frame? && e.text.Auth? && e.text.account.Some? && e.text.found
    && s.live && e.peer !in s.gone && e.peer !in s.joined
  }

  predicate JoinsAsViewer(s: Share, e: Event) {
    Joins(s, e) && e.text.account.value.email != s.ownerEmail
  }

  predicate Extends(s: Share, e: Event) {
    e.Binary? && e.peer !in s.gone && e.peer in s.joined && s.owner == Some(e.peer)
  }

  /** Apart from a viewer joining and the owner's output, no event shows anybody anything or lets a viewer in. */
  lemma OthersAreQuiet(s: Share, e: Event)
    requires Seated(s) && !JoinsAsViewer(s, e) && !Extends(s, e)
    ensures var t := React(s, e).share;
      && t.stream == s.stream && t.replay == s.replay
            && s.closed <= t.closed && PeersOf(t.viewers) <= PeersOf(s.viewers)
    ensures NoOutput(React(s, e).posts)
  {
    if e.Closed? {
      WithoutHolds(s.viewers, e.peer);
    } else if e.Frame? && e.peer in s.joined {
      FrameIsQuiet(s, e.peer, e.text);
    }
  }

  lemma FrameIsQuiet(s: Share, peer: Peer, text: Text)
    ensures var t := OnFrame(s, peer, text).share;
      && t.stream == s.stream && t.replay == s.replay
            && s.closed <= t.closed && PeersOf(t.viewers) == PeersOf(s.viewers)
    ensures NoOutput(OnFrame(s, peer, text).posts)
  {
    match text
    case Grant(userId) =>
      var to := Asking(s.viewers, userId);
      if to.Some? { SamePeersHold(s.viewers, SetRequesting(s.viewers, to.value, false), peer); }
    case Decline(userId) => SamePeersHold(s.viewers, DeclineAll(s.viewers, userId), peer);
    case RequestControl => SamePeersHold(s.viewers, SetRequesting(s.viewers, peer, true), peer);
    case _ =>
  }

  lemma OutputKeepsFollowing(s: State, e: Event)
    requires AllFollow(s) && Extends(s.share, e)
    ensures AllFollow(Step(s, e))
  {
    var t, posts := Step(s, e), React(s.share, e).posts;
    forall p | p in PeersOf(t.share.viewers) ensures Follows(t, p) {
      StepIsHeard(s, e, p);
      HearOne(Known(s, p), posts[0], s.share.closed, p);
      assert posts == [posts[0]];
      FollowsOn(s, t, e.bytes, p);
    }
  }

  function HeardOne(k: Knowledge, post: Post, deaf: set<Peer>, p: Peer): Knowledge {
    if Hears(post, deaf, p) then Learn(k, post.message) else k
  }

  lemma HearOne(k: Knowledge, a: Post, deaf: set<Peer>, p: Peer)
    ensures Hear(k, [a], deaf, p) == HeardOne(k, a, deaf, p)
  {
    assert [a][..0] == [];
  }

  lemma HearTwo(k: Knowledge, a: Post, b: Post, deaf: set<Peer>, p: Peer)
    ensures Hear(k, [a, b], deaf, p) == HeardOne(HeardOne(k, a, deaf, p), b, deaf, p)
  {
    HearOne(k, a, deaf, p);
    assert [a, b][..1] == [a];
  }

  lemma HearFour(k: Knowledge, a: Post, b: Post, c: Post, d: Post, deaf: set<Peer>, p: Peer)
    ensures Hear(k, [a, b, c, d], deaf, p)
         == HeardOne(HeardOne(HeardOne(HeardOne(k, a, deaf, p), b, deaf, p), c, deaf, p), d, deaf, p)
  {
    HearTwo(k, a, b, deaf, p);
    assert [a, b, c][..2] == [a, b] && [a, b, c, d][..3] == [a, b, c];
  }

  lemma JoinIsHeard(s: Share, peer: Peer, userId: string, k: Knowledge, p: Peer)
    ensures var now := Hear(k, JoinViewer(s, peer, userId).posts, s.closed, p);
      && now.shown == k.shown + (if p == peer && p !in s.closed then s.replay else [])
      && now.control == if p == peer && p !in s.closed then None else k.control
  {
    var posts := JoinViewer(s, peer, userId).posts;
    HearFour(k, posts[0], posts[1], posts[2], posts[3], s.closed, p);
    assert posts == [posts[0], posts[1], posts[2], posts[3]];
  }

  /** A viewer that joins is shown the replay and told that nobody holds control; nobody else is shown anything. */
  lemma JoinShows(s: State, e: Event, p: Peer)
    requires JoinsAsViewer(s.share, e)
    ensures var was, now := Known(s, p), Known(Step(s, e), p);
      && now.shown == was.shown + (if p == e.peer && p !in s.share.closed then s.share.replay else [])
      && now.control == if p == e.peer && p !in s.share.closed then None else was.control
  {
    StepIsHeard(s, e, p);
    JoinIsHeard(s.share, e.peer, e.text.account.value.userId, Known(s, p), p);
  }

  lemma JoinKeepsFollowing(s: State, e: Event)
    requires AllFollow(s) && s.share.replay == Tail(s.share.stream) && StrangersUntold(s) && JoinsAsViewer(s.share, e)
    requires e.peer !in PeersOf(s.share.viewers)
    ensures AllFollow(Step(s, e))
  {
    var t := Step(s, e);
    PeersTogether(s.share.viewers, [Viewer(e.peer, e.text.account.value.userId, false)]);
    forall p | p in PeersOf(t.share.viewers) ensures Follows(t, p) {
      JoinShows(s, e, p);
      if p == e.peer { TailIsStretch(t, p); } else { StillFollows(s, t, p); }
    }
  }

  /** The replay stays the end of the stream, and each viewer's output one stretch of it. */
  lemma StepKeepsFollowing(s: State, e: Event)
    requires Seated(s.share) && AllFollow(s) && s.share.replay == Tail(s.share.stream) && StrangersUntold(s)
    ensures AllFollow(Step(s, e)) && Step(s, e).share.replay == Tail(Step(s, e).share.stream)
  {
    var t := Step(s, e);
    if JoinsAsViewer(s.share, e) {
      JoinKeepsFollowing(s, e);
    } else if Extends(s.share, e) {
      OutputKeepsFollowing(s, e);
      TailOfMore(s.share.stream, e.bytes);
    } else {
      OthersAreQuiet(s.share, e);
      forall p | p in PeersOf(t.share.viewers) ensures Follows(t, p) {
        StepIsHeard(s, e, p);
        Unheard(Known(s, p), React(s.share, e).posts, Deaf(s.share, e), p);
        StillFollows(s, t, p);
      }
    }
  }

  // Each step: who is told what

  ghost predicate TellsOnly(o: Outcome, peers: set<Peer>) {
    forall i :: 0 <= i < |o.posts| ==> o.posts[i].to <= peers
  }

  lemma FrameTells(s: Share, peer: Peer, text: Text)
    requires peer in s.joined
    ensures var o := OnFrame(s, peer, text);
      o.share.live ==> o.share.gone == s.gone && o.share.joined == s.joined && TellsOnly(o, Everyone(o.share) + {peer})
  {
    match text
    case Decline(userId) =>
      SamePeersHold(s.viewers, DeclineAll(s.viewers, userId), peer);
      AskingAreViewers(s.viewers, userId);
    case _ =>
  }

  /** Whoever is told anything of a live share belongs to it, and nobody leaves it unseen. */
  lemma ReactTells(s: Share, e: Event)
    requires Seated(s) && React(s, e).share.live
    ensures var o := React(s, e);
      s.live && s.joined + s.gone <= o.share.joined + o.share.gone && TellsOnly(o, o.share.joined + o.share.gone)
  {
    ReactKeepsSeated(s, e);
    if e.Frame? && e.peer in s.joined { FrameTells(s, e.peer, e.text); }
  }

  lemma StepKeepsStrangers(s: State, e: Event)
    requires Seated(s.share) && StrangersUntold(s)
    ensures StrangersUntold(Step(s, e))
  {
    var t, o := Step(s, e), React(s.share, e);
    if t.share.live {
      ReactTells(s.share, e);
      forall p | p !in t.share.joined && p !in t.share.gone ensures Known(t, p) == NOTHING {
        StepIsHeard(s, e, p);
        Unheard(Known(s, p), o.posts, Deaf(s.share, e), p);
      }
    }
  }

  // Each step: who the viewers are

  /** The last thing sent is the list of viewers, to everybody. */
  predicate Announces(o: Outcome) {
    o.posts != [] && o.posts[|o.posts| - 1] == ViewersPost(o.share)
  }

  /** Or the list stays as it was, and so does who is open. */
  predicate Leaves(s: Share, o: Outcome) {
    && SeenNow(o.share) == SeenNow(s) && NoLists(o.posts)
    && Everyone(o.share) - o.share.closed <= Everyone(s) - s.closed
  }

  lemma FrameAnnounces(s: Share, peer: Peer, text: Text)
    ensures var o := OnFrame(s, peer, text); Announces(o) || Leaves(s, o)
  {
    var o := OnFrame(s, peer, text);
    if text.End? && s.live {
      assert SeenNow(o.share) == SeenNow(s);
    } else if text.Resize? {
      assert SeenNow(o.share) == SeenNow(s);
    }
  }

  lemma ReactAnnounces(s: Share, e: Event)
    requires Seated(s)
    ensures var o := React(s, e);
      && (Announces(o) || Leaves(s, o))
      && Everyone(o.share) - o.share.closed <= Everyone(o.share) - Deaf(s, e)
  {
    if e.peer in s.gone {
    } else if e.Frame? && e.peer in s.joined {
      FrameAnnounces(s, e.peer, e.text);
    } else {
      var o := React(s, e);
      assert o.share.viewers == s.viewers && o.share.control == s.control ==> SeenNow(o.share) == SeenNow(s);
    }
  }

  lemma HearsLast(k: Knowledge, o: Outcome, deaf: set<Peer>, p: Peer)
    requires Announces(o) && p in Everyone(o.share) && p !in deaf
    ensures Hear(k, o.posts, deaf, p).viewers == Some(SeenNow(o.share))
  {
  }

  lemma HearsOfViewers(s: Share, e: Event, k: Knowledge, p: Peer)
    requires Seated(s)
    requires p in Everyone(React(s, e).share) && p !in React(s, e).share.closed
    requires p in Everyone(s) && p !in s.closed ==> k.viewers == Some(SeenNow(s))
    ensures Hear(k, React(s, e).posts, Deaf(s, e), p).viewers == Some(SeenNow(React(s, e).share))
  {
    var o := React(s, e);
    ReactAnnounces(s, e);
    if Announces(o) {
      HearsLast(k, o, Deaf(s, e), p);
    } else {
      Unheard(k, o.posts, Deaf(s, e), p);
    }
  }

  /** After every step each open participant's last list of viewers is the list now. */
  lemma StepKeepsViewersKnown(s: State, e: Event)
    requires Seated(s.share) && ViewersKnown(s)
    ensures ViewersKnown(Step(s, e))
  {
    var t := Step(s, e);
    forall p | p in Everyone(t.share) && p !in t.share.closed ensures Known(t, p).viewers == Some(SeenNow(t.share)) {
      StepIsHeard(s, e, p);
      HearsOfViewers(s.share, e, Known(s, p), p);
    }
  }

  // Each step: who is told who holds control

  /** Everybody open has been told who holds control now. */
  ghost predicate ControlKnown(s: State) {
    forall p :: p in Everyone(s.share) && p !in s.share.closed ==> Known(s, p).control == Holder(s.share)
  }

  /** Everybody is told who holds control, then who the viewers are. */
  predicate TellsControl(o: Outcome) {
    o.posts == ControlPosts(o.share)
  }

  predicate LeavesControl(s: Share, o: Outcome) {
    && Holder(o.share) == Holder(s) && NoControl(o.posts)
    && Everyone(o.share) - o.share.closed <= Everyone(s) - s.closed
  }

  lemma HolderKept(s: Share, viewers: seq<Viewer>)
    requires SamePeers(s.viewers, viewers)
    ensures Holder(s.(viewers := viewers)) == Holder(s) && Everyone(s.(viewers := viewers)) == Everyone(s)
  {
    SamePeersHold(s.viewers, viewers, s.control.GetOr(0));
  }

  lemma RequestsLeaveControl(s: Share, peer: Peer, text: Text)
    requires text.Decline? || text.RequestControl?
    ensures LeavesControl(s, OnFrame(s, peer, text))
  {
    match text
    case Decline(userId) => HolderKept(s, DeclineAll(s.viewers, userId));
    case RequestControl => HolderKept(s, SetRequesting(s.viewers, peer, true));
  }

  lemma EndLeavesControl(s: Share, reason: string)
    ensures LeavesControl(s, EndShare(s, reason))
  {
  }

  lemma FrameTellsControl(s: Share, peer: Peer, text: Text)
    ensures var o := OnFrame(s, peer, text); TellsControl(o) || LeavesControl(s, o)
  {
    if text.Decline? || text.RequestControl? {
      RequestsLeaveControl(s, peer, text);
    } else if text.End? {
      EndLeavesControl(s, "ended");
    }
  }

  lemma ClosedTellsControl(s: Share, peer: Peer)
    requires Seated(s)
    ensures var o := OnClosed(s, peer); TellsControl(o) || LeavesControl(s, o)
  {
    WithoutHolds(s.viewers, peer);
    if s.control.Some? && s.control.value != peer { WithoutFinds(s.viewers, peer, s.control.value); }
  }

  /** Only somebody who joins can be left not knowing who holds control. */
  lemma ReactTellsControl(s: Share, e: Event)
    requires Seated(s) && !Joins(s, e)
    ensures var o := React(s, e);
      && (TellsControl(o) || LeavesControl(s, o))
      && Everyone(o.share) - o.share.closed <= Everyone(o.share) - Deaf(s, e)
  {
    if e.peer !in s.gone {
      if e.Frame? && e.peer in s.joined {
        FrameTellsControl(s, e.peer, e.text);
      } else if e.Closed? {
        ClosedTellsControl(s, e.peer);
      }
    }
  }

  lemma HearsOfControl(s: Share, e: Event, k: Knowledge, p: Peer)
    requires Seated(s) && !Joins(s, e)
    requires p in Everyone(React(s, e).share) && p !in React(s, e).share.closed
    requires p in Everyone(s) && p !in s.closed ==> k.control == Holder(s)
    ensures Hear(k, React(s, e).posts, Deaf(s, e), p).control == Holder(React(s, e).share)
  {
    var o := React(s, e);
    ReactTellsControl(s, e);
    if TellsControl(o) {
      HearTwo(k, o.posts[0], o.posts[1], Deaf(s, e), p);
      assert o.posts == [o.posts[0], o.posts[1]];
    } else {
      Unheard(k, o.posts, Deaf(s, e), p);
    }
  }

  lemma OthersKeepControlKnown(s: State, e: Event)
    requires Seated(s.share) && ControlKnown(s) && !Joins(s.share, e)
    ensures ControlKnown(Step(s, e))
  {
    var t := Step(s, e);
    forall p | p in Everyone(t.share) && p !in t.share.closed ensures Known(t, p).control == Holder(t.share) {
      StepIsHeard(s, e, p);
      HearsOfControl(s.share, e, Known(s, p), p);
    }
  }

  lemma JoinKeepsHolder(s: Share, e: Event)
    requires Seated(s) && ControlHeld(s) && Joins(s, e)
    ensures var t := React(s, e).share;
      Holder(t) == Holder(s) && Everyone(t) - {e.peer} <= Everyone(s) && e.peer in Everyone(t) && t.closed == s.closed
  {
    var v := Viewer(e.peer, e.text.account.value.userId, false);
    PeersTogether(s.viewers, [v]);
    if s.control.Some? {
      FindsViewer(s.viewers, s.control.value);
      FindsLater(s.viewers, v, s.control.value);
    }
  }

  lemma JoinerBelieves(s: State, e: Event, p: Peer)
    requires StrangersUntold(s) && Joins(s.share, e)
    ensures Known(Step(s, e), p).control == if p == e.peer then None else Known(s, p).control
  {
    if JoinsAsViewer(s.share, e) {
      JoinShows(s, e, p);
    } else {
      StepIsHeard(s, e, p);
      Unheard(Known(s, p), React(s.share, e).posts, s.share.closed, p);
    }
  }

  /**
   A newcomer is told that nobody holds control, whoever does. So what the participants were last told stays right
   exactly when nobody open joins while a viewer holds control.
   */
  lemma WhenControlIsKnown(s: State, e: Event)
    requires Seated(s.share) && ControlHeld(s.share) && StrangersUntold(s) && ControlKnown(s)
    ensures ControlKnown(Step(s, e)) <==> !(Joins(s.share, e) && e.peer !in s.share.closed && s.share.control.Some?)
  {
    if Joins(s.share, e) {
      var t := Step(s, e);
      JoinerBelieves(s, e, e.peer);
      JoinKeepsHolder(s.share, e);
      FindsViewer(s.share.viewers, s.share.control.GetOr(0));
      forall p | p in Everyone(t.share) && p != e.peer && p !in t.share.closed
        ensures Known(t, p).control == Holder(t.share)
      {
        JoinerBelieves(s, e, p);
      }
    } else {
      OthersKeepControlKnown(s, e);
    }
  }

  // Each step: whose input reaches whom

  /** The holder of control types, and this is the open owner. */
  predicate TypesTo(s: Share, e: Event, p: Peer) {
    && e.Frame? && e.text.Input? && e.peer in s.joined && e.peer !in s.gone
    && s.control == Some(e.peer) && Find(s.viewers, e.peer).Some?
    && s.owner == Some(p) && p !in s.closed
  }

  function TypedTo(s: Share, e: Event, p: Peer): seq<(string, string)> {
    if TypesTo(s, e, p) then [(Find(s.viewers, e.peer).value.userId, e.text.data)] else []
  }

  lemma OthersHandNothing(s: Share, e: Event)
    requires !(e.Frame? && e.text.Input?)
    ensures NoInput(React(s, e).posts)
  {
  }

  lemma InputIsHanded(s: Share, e: Event, k: Knowledge, p: Peer)
    requires e.Frame? && e.text.Input?
    ensures Hear(k, React(s, e).posts, s.closed, p).handed == k.handed + TypedTo(s, e, p)
  {
    var posts := React(s, e).posts;
    if posts != [] {
      HearOne(k, posts[0], s.closed, p);
      assert posts == [posts[0]];
    }
  }

  /** Exactly the holder's input is handed on, under the holder's name, and only to the owner. */
  lemma OnlyHolderIsHeard(s: State, e: Event, p: Peer)
    ensures Known(Step(s, e), p).handed == Known(s, p).handed + TypedTo(s.share, e, p)
  {
    StepIsHeard(s, e, p);
    if e.Frame? && e.text.Input? {
      InputIsHanded(s.share, e, Known(s, p), p);
    } else {
      OthersHandNothing(s.share, e);
      Unheard(Known(s, p), React(s.share, e).posts, Deaf(s.share, e), p);
    }
  }

  // Each step: the end is told once

  /** The share ends now: everybody is told, once. */
  predicate EndsNow(s: Share, o: Outcome) {
    s.live && !o.share.live && |o.posts| == 1
  }

  lemma ReactEnds(s: Share, e: Event)
    ensures var o := React(s, e); EndsNow(s, o) || (o.share.live == s.live && NoEnding(o.posts))
  {
  }

  lemma HearsOfEnd(s: Share, e: Event, k: Knowledge, p: Peer)
    requires k.endings <= if s.live then 0 else 1
    ensures Hear(k, React(s, e).posts, Deaf(s, e), p).endings <= if React(s, e).share.live then 0 else 1
  {
    var o := React(s, e);
    ReactEnds(s, e);
    if EndsNow(s, o) {
      HearOne(k, o.posts[0], Deaf(s, e), p);
      assert o.posts == [o.posts[0]];
    } else {
      Unheard(k, o.posts, Deaf(s, e), p);
    }
  }

  lemma StepEndsOnce(s: State, e: Event)
    requires EndedOnce(s)
    ensures EndedOnce(Step(s, e))
  {
    var t := Step(s, e);
    forall p ensures Known(t, p).endings <= if t.share.live then 0 else 1 {
      StepIsHeard(s, e, p);
      HearsOfEnd(s.share, e, Known(s, p), p);
    }
  }

  // Every run

  ghost predicate Sound(s: State) {
    && Seated(s.share) && ControlHeld(s.share)
    && s.share.replay == Tail(s.share.stream) && AllFollow(s)
    && StrangersUntold(s) && ViewersKnown(s) && EndedOnce(s)
  }

  lemma StepKeepsSound(s: State, e: Event)
    requires Sound(s)
    ensures Sound(Step(s, e))
  {
    ReactKeepsSeated(s.share, e);
    ReactKeepsControlHeld(s.share, e);
    StepKeepsFollowing(s, e);
    StepKeepsStrangers(s, e);
    StepKeepsViewersKnown(s, e);
    StepEndsOnce(s, e);
  }

  /**
   Over any run the replay is the last 262144 bytes of the owner's stream or all of it, each viewer was shown one
   stretch of it that ends where it ends now, and control is nobody's or a viewer's with no open request.
   */
  lemma {:induction false} SharesStaySound(s: State, es: seq<Event>)
    requires Init(s)
    ensures Sound(Execute(s, es))
    decreases |es|
  {
    if es != [] {
      SharesStaySound(s, es[..|es| - 1]);
      StepKeepsSound(Execute(s, es[..|es| - 1]), es[|es| - 1]);
    }
  }

  /** The input the run's holders typed while this peer was the owner. */
  function HeldInput(s: State, es: seq<Event>, p: Peer): seq<(string, string)> {
    if es == [] then []
    else
      var before := Execute(s, es[..|es| - 1]);
      HeldInput(s, es[..|es| - 1], p) + TypedTo(before.share, es[|es| - 1], p)
  }

  /** Over any run, a peer was handed exactly that, in order. */
  lemma {:induction false} InputComesFromHolders(s: State, es: seq<Event>, p: Peer)
    requires Init(s)
    ensures Known(Execute(s, es), p).handed == HeldInput(s, es, p)
    decreases |es|
  {
    if es != [] {
      InputComesFromHolders(s, es[..|es| - 1], p);
      OnlyHolderIsHeard(Execute(s, es[..|es| - 1]), es[|es| - 1], p);
    }
  }
}
