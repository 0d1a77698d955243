/** How long a viewer of a shared terminal keeps control, over every run. */
module RelayControl {
  import opened Wrappers
  import opened Relay
  import opened RelayTheorems

  /** The share is live and the peer holds its control. */
  predicate HasControl(s: Share, peer: Peer) {
    s.live && s.control == Some(peer)
  }

  /**
   What takes control from its holder: a grant to somebody, a take-back, its own release or close, or the share's end.
   */
  predicate TakesControl(s: Share, e: Event, holder: Peer) {
    e.peer in s.joined && e.peer !in s.gone &&
    match e
    case Frame(peer, text) =>
      || text.TakeBack? || text.End?
      || (text.Release? && peer == holder)
      || (text.Grant? && exists i :: 0 <= i < |s.viewers| && Asks(s.viewers[i], text.userId))
    case Closed(peer) => peer == holder || s.owner == Some(peer)
    case _ => false
  }

  /** A grant finds somebody else: a holder has no open request. */
  lemma HolderDoesNotAsk(s: Share, userId: string)
    requires Seated(s) && ControlHeld(s) && s.live && s.control.Some? && Asking(s.viewers, userId).Some?
    ensures Asking(s.viewers, userId) != s.control
  {
    AskingIsFirst(s.viewers, userId);
    var i: nat :| IsFirstAsking(s.viewers, userId, i) && s.viewers[i].peer == Asking(s.viewers, userId).value;
    FindsViewer(s.viewers, s.control.value);
    var k :| 0 <= k < |s.viewers| && s.viewers[k] == Find(s.viewers, s.control.value).value;
    assert k != i;
    assert s.viewers[if k < i then k else i].peer != s.viewers[if k < i then i else k].peer;
  }

  lemma FrameTakesControl(s: Share, peer: Peer, text: Text, holder: Peer)
    requires Seated(s) && ControlHeld(s) && HasControl(s, holder) && peer in s.joined
    ensures HasControl(OnFrame(s, peer, text).share, holder) <==> !TakesControl(s, Frame(peer, text), holder)
  {
    if text.Grant? {
      AskingIsFirst(s.viewers, text.userId);
      if Asking(s.viewers, text.userId).Some? { HolderDoesNotAsk(s, text.userId); }
    }
  }

  /** A holder loses control by one of those events and by nothing else. */
  lemma WhenControlIsLost(s: Share, e: Event, holder: Peer)
    requires Seated(s) && ControlHeld(s) && HasControl(s, holder)
    ensures HasControl(React(s, e).share, holder) <==> !TakesControl(s, e, holder)
  {
    if e.Frame? && e.peer in s.joined && e.peer !in s.gone {
      FrameTakesControl(s, e.peer, e.text, holder);
    } else if e.Closed? {
      HolderIsJoined(s, holder);
    }
  }

  lemma HolderIsJoined(s: Share, holder: Peer)
    requires Seated(s) && ControlHeld(s) && HasControl(s, holder)
    ensures holder in s.joined && holder !in s.gone && s.owner != Some(holder)
  {
    FindsViewer(s.viewers, holder);
    PeersAre(s.viewers, holder);
  }

  /** The peer holds control at the end of the run and at every moment of it. */
  predicate HoldsThroughout(s: State, es: seq<Event>, peer: Peer)
    decreases |es|
  {
    HasControl(Execute(s, es).share, peer) && (es == [] || HoldsThroughout(s, es[..|es| - 1], peer))
  }

  predicate NeverTaken(s: State, es: seq<Event>, peer: Peer)
    decreases |es|
  {
    es == [] || (NeverTaken(s, es[..|es| - 1], peer)
      && !TakesControl(Execute(s, es[..|es| - 1]).share, es[|es| - 1], peer))
  }

  lemma {:induction false} StaysSeated(s: State, es: seq<Event>)
    requires Seated(s.share) && ControlHeld(s.share)
    ensures Seated(Execute(s, es).share) && ControlHeld(Execute(s, es).share)
    decreases |es|
  {
    if es != [] {
      StaysSeated(s, es[..|es| - 1]);
      ReactKeepsSeated(Execute(s, es[..|es| - 1]).share, es[|es| - 1]);
      ReactKeepsControlHeld(Execute(s, es[..|es| - 1]).share, es[|es| - 1]);
    }
  }

  /** From a grant on, over any run: the viewer holds control throughout if and only if none of those events came. */
  lemma {:induction false} ControlLastsUntilTaken(s: State, es: seq<Event>, peer: Peer)
    requires Seated(s.share) && ControlHeld(s.share) && HasControl(s.share, peer)
    ensures HoldsThroughout(s, es, peer) <==> NeverTaken(s, es, peer)
    decreases |es|
  {
    if es != [] {
      var earlier := es[..|es| - 1];
      ControlLastsUntilTaken(s, earlier, peer);
      StaysSeated(s, earlier);
      if HoldsThroughout(s, earlier, peer) { WhenControlIsLost(Execute(s, earlier).share, es[|es| - 1], peer); }
    }
  }

  /**
   A viewer that asks is given control by the next grant to its user, unless an earlier viewer of that user asks too.
   */
  lemma AskedAndGranted(s: Share, i: nat)
    requires Seated(s) && ControlHeld(s) && s.live && i < |s.viewers| && s.control != Some(s.viewers[i].peer)
    requires forall j :: 0 <= j < i ==> !Asks(s.viewers[j], s.viewers[i].userId)
    ensures var asked := OnFrame(s, s.viewers[i].peer, RequestControl).share;
      HasControl(OnGrant(asked, s.viewers[i].userId).share, s.viewers[i].peer)
  {
    var peer, user := s.viewers[i].peer, s.viewers[i].userId;
    var asked := OnFrame(s, peer, RequestControl).share;
    SamePeersHold(s.viewers, asked.viewers, peer);
    forall j | 0 <= j < i ensures !Asks(asked.viewers[j], user) { assert s.viewers[j].peer != s.viewers[i].peer; }
    assert IsFirstAsking(asked.viewers, user, i);
    GrantGoesToFirst(asked, user, i);
  }
}
