/** Every open subscriber's last list is the list now, although lists are sent only when the computed one changes. */
module PresenceTheorems {
  import opened Wrappers
  import opened Sorting
  import opened Presence

  ghost predicate Distinct(cs: seq<Connection>) {
    forall i, j :: 0 <= i < j < |cs| ==> cs[i].peer != cs[j].peer
  }

  /** How a list compares with the list now: the same, or naming at least everybody who is there. */
  datatype Accuracy = Exact | Covering

  predicate Fits(list: seq<Entry>, now: seq<Entry>, how: Accuracy) {
    if how.Exact? then list == now else forall e :: e in now ==> e in list
  }

  /** This subscription's last list fits the workspace's list now. */
  predicate UpToDate(s: State, c: Connection, workspace: WorkspaceId, how: Accuracy) {
    Attends(c, s.closed, workspace) ==>
      var last := Last(s.sent, c.peer, workspace);
      last.Some? && Fits(last.value, PresenceOf(s, workspace), how)
  }

  ghost predicate Current(s: State, how: Accuracy) {
    forall c, workspace :: c in s.connections ==> UpToDate(s, c, workspace, how)
  }

  ghost predicate Sound(s: State, how: Accuracy) {
    Distinct(s.connections) && Current(s, how)
  }

  // Who is there

  /** Two lists of connections that agree on who attends a workspace. */
  ghost predicate SameAttendance(a: seq<Connection>, b: seq<Connection>, was: set<Peer>, now: set<Peer>,
                                 ws: WorkspaceId) {
    && |a| == |b|
    && forall i :: 0 <= i < |a| ==> (
      a[i].peer == b[i].peer && a[i].email == b[i].email && (Attends(a[i], was, ws) <==> Attends(b[i], now, ws)))
  }

  lemma {:induction false} SameSubscribers(a: seq<Connection>, b: seq<Connection>, was: set<Peer>, now: set<Peer>,
                                           ws: WorkspaceId)
    requires SameAttendance(a, b, was, now, ws)
    ensures Subscribers(a, was, ws) == Subscribers(b, now, ws)
  {
    if a != [] { SameSubscribers(a[..|a| - 1], b[..|b| - 1], was, now, ws); }
  }

  /** The subscribers of a workspace are exactly its attending connections. */
  lemma {:induction false} WhoSubscribes(cs: seq<Connection>, closed: set<Peer>, ws: WorkspaceId)
    ensures forall c :: c in cs && Attends(c, closed, ws) ==> Attendee(c.peer, c.email) in Subscribers(cs, closed, ws)
    ensures forall a :: a in Subscribers(cs, closed, ws) ==>
              a.peer !in closed && exists c :: c in cs && Attends(c, closed, ws) && a == Attendee(c.peer, c.email)
  {
    if cs != [] {
      WhoSubscribes(cs[..|cs| - 1], closed, ws);
      assert cs == cs[..|cs| - 1] + [cs[|cs| - 1]];
    }
  }

  lemma {:induction false} FindsOnly(cs: seq<Connection>, c: Connection)
    requires Distinct(cs) && c in cs
    ensures Find(cs, c.peer) == Some(c)
  {
    if cs[0] != c { FindsOnly(cs[1..], c); }
  }

  lemma {:induction false} FoundIsIn(cs: seq<Connection>, peer: Peer)
    ensures Find(cs, peer).Some? ==> Find(cs, peer).value in cs && Find(cs, peer).value.peer == peer
    ensures Find(cs, peer).None? ==> forall c :: c in cs ==> c.peer != peer
  {
    if cs != [] { FoundIsIn(cs[1..], peer); }
  }

  lemma {:induction false} LessHolds(list: seq<WorkspaceId>, workspace: WorkspaceId)
    ensures forall w :: w in Less(list, workspace) <==> w in list && w != workspace
  {
    if list != [] {
      LessHolds(list[..|list| - 1], workspace);
      assert list == list[..|list| - 1] + [list[|list| - 1]];
    }
  }

  // What was sent

  lemma {:induction false} LastOfMore(sent: seq<Sent>, more: seq<Sent>, peer: Peer, ws: WorkspaceId)
    ensures Last(sent + more, peer, ws)
            == if Last(more, peer, ws).Some? then Last(more, peer, ws) else Last(sent, peer, ws)
  {
    if more == [] {
      assert sent + more == sent;
    } else {
      LastOfMore(sent, more[..|more| - 1], peer, ws);
      assert (sent + more)[..|sent + more| - 1] == sent + more[..|more| - 1];
    }
  }

  predicate IsTold(peers: seq<Attendee>, closed: set<Peer>, peer: Peer) {
    peer !in closed && exists i :: 0 <= i < |peers| && peers[i].peer == peer
  }

  lemma {:induction false} LastOfBroadcast(peers: seq<Attendee>, closed: set<Peer>, m: Message, peer: Peer,
                                           ws: WorkspaceId)
    ensures Last(Broadcast(peers, closed, m), peer, ws)
         == if m.Users? && m.workspace == ws && IsTold(peers, closed, peer) then Some(m.users) else None
  {
    if peers != [] {
      var rest, newest := peers[..|peers| - 1], peers[|peers| - 1];
      LastOfBroadcast(rest, closed, m, peer, ws);
      assert IsTold(peers, closed, peer) <==> IsTold(rest, closed, peer) || (newest.peer == peer && peer !in closed);
      var told := if newest.peer in closed then [] else [Sent(newest.peer, m)];
      LastOfMore(Broadcast(rest, closed, m), told, peer, ws);
      assert Last([], peer, ws) == None;
      if newest.peer !in closed { assert told[..0] == []; }
    }
  }

  /** A list sent to the subscribers of a workspace is the last one each of them has, and changes no other. */
  lemma LastAfterSend(s: State, ws: WorkspaceId, users: seq<Entry>, c: Connection, other: WorkspaceId)
    requires c in s.connections && Attends(c, s.closed, other)
    ensures var sent := Send(s, Subscribers(s.connections, s.closed, ws), Users(ws, users)).sent;
      Last(sent, c.peer, other) == if other == ws then Some(users) else Last(s.sent, c.peer, other)
  {
    var to := Subscribers(s.connections, s.closed, ws);
    LastOfMore(s.sent, Broadcast(to, s.closed, Users(ws, users)), c.peer, other);
    LastOfBroadcast(to, s.closed, Users(ws, users), c.peer, other);
    if other == ws {
      WhoSubscribes(s.connections, s.closed, ws);
      assert Attendee(c.peer, c.email) in to;
    }
  }

  lemma LastAfterOne(s: State, to: Peer, m: Message, peer: Peer, ws: WorkspaceId)
    requires peer !in s.closed
    ensures Last(SendOne(s, to, m).sent, peer, ws)
         == if m.Users? && m.workspace == ws && to == peer then Some(m.users) else Last(s.sent, peer, ws)
  {
    if to !in s.closed {
      LastOfMore(s.sent, [Sent(to, m)], peer, ws);
      assert Last([], peer, ws) == None;
      assert [Sent(to, m)][..0] == [];
    }
  }

  // One change of a subscription

  ghost predicate ChangesOnly(before: State, after: State, peer: Peer, ws: WorkspaceId) {
    && after == before.(connections := after.connections)
    && |after.connections| == |before.connections|
    && (forall i :: 0 <= i < |before.connections| ==> SameButFor(before.connections[i], after.connections[i], peer, ws))
  }

  ghost predicate SameButFor(a: Connection, b: Connection, peer: Peer, ws: WorkspaceId) {
    && b.peer == a.peer && b.email == a.email && b.token == a.token
    && (a.peer != peer ==> b == a)
    && (forall other :: other != ws ==> (other in a.subscriptions <==> other in b.subscriptions))
  }

  lemma OthersKeepPresence(before: State, after: State, peer: Peer, ws: WorkspaceId, other: WorkspaceId)
    requires ChangesOnly(before, after, peer, ws) && other != ws
    ensures PresenceOf(after, other) == PresenceOf(before, other)
  {
    forall i | 0 <= i < |before.connections|
      ensures Attends(before.connections[i], before.closed, other)
              <==> Attends(after.connections[i], after.closed, other)
    {
      assert SameButFor(before.connections[i], after.connections[i], peer, ws);
    }
    SameSubscribers(before.connections, after.connections, before.closed, after.closed, other);
  }

  /** Nobody attends the workspace who did not before. */
  ghost predicate NobodyJoins(before: State, after: State, ws: WorkspaceId) {
    forall d :: d in after.connections && ws in d.subscriptions ==> WasThere(before, d.peer, ws)
  }

  ghost predicate WasThere(s: State, peer: Peer, ws: WorkspaceId) {
    exists b :: b in s.connections && b.peer == peer && ws in b.subscriptions
  }

  /** After the announcement of a change by which nobody joins, every list is as good as before. */
  lemma AnnouncedKeepsCurrent(before: State, after: State, peer: Peer, ws: WorkspaceId, c: Connection,
                              other: WorkspaceId, how: Accuracy)
    requires Current(before, how) && ChangesOnly(before, after, peer, ws) && c in after.connections
    requires NobodyJoins(before, after, ws)
    ensures UpToDate(Announced(before, after, ws), c, other, how)
  {
    if Attends(c, after.closed, other) {
      var i :| 0 <= i < |after.connections| && after.connections[i] == c;
      var b := before.connections[i];
      assert SameButFor(b, c, peer, ws);
      var users := PresenceOf(after, ws);
      if users != PresenceOf(before, ws) { LastAfterSend(after, ws, users, c, other); }
      if other != ws {
        OthersKeepPresence(before, after, peer, ws, other);
        assert UpToDate(before, b, other, how);
      } else if users == PresenceOf(before, ws) {
        assert WasThere(before, c.peer, ws);
        var was :| was in before.connections && was.peer == c.peer && ws in was.subscriptions;
        assert UpToDate(before, was, ws, how);
      }
    }
  }

  lemma DropChangesOnly(s: State, peer: Peer, ws: WorkspaceId, list: seq<WorkspaceId>)
    requires Distinct(s.connections)
    requires forall other :: other != ws ==> (other in list <==> other in SubscriptionsOf(s.connections, peer))
    ensures ChangesOnly(s, s.(connections := WithSubscriptions(s.connections, peer, list)), peer, ws)
  {
    forall i | 0 <= i < |s.connections|
      ensures SameButFor(s.connections[i], WithSubscriptions(s.connections, peer, list)[i], peer, ws)
    {
      FindsOnly(s.connections, s.connections[i]);
    }
  }

  lemma DropKeepsSound(s: State, peer: Peer, ws: WorkspaceId, how: Accuracy)
    requires Sound(s, how)
    ensures Sound(Drop(s, peer, ws), how)
  {
    LessHolds(SubscriptionsOf(s.connections, peer), ws);
    var left := Less(SubscriptionsOf(s.connections, peer), ws);
    var after := s.(connections := WithSubscriptions(s.connections, peer, left));
    DropChangesOnly(s, peer, ws, left);
    forall d | d in after.connections && ws in d.subscriptions
      ensures WasThere(s, d.peer, ws)
    {
      assert d in s.connections;
    }
    forall c, other | c in after.connections ensures UpToDate(Drop(s, peer, ws), c, other, how) {
      AnnouncedKeepsCurrent(s, after, peer, ws, c, other, how);
    }
  }

  lemma JoinKeepsSound(s: State, peer: Peer, ws: WorkspaceId, how: Accuracy)
    requires Sound(s, how)
    ensures Sound(Join(s, peer, ws), how)
  {
    var c := Find(s.connections, peer);
    if c.None? {
    } else if !Allowed(s.users, s.directory, ws, c.value.email) {
      OneKeepsSound(s, peer, Refused(ws), how);
    } else if ws !in c.value.subscriptions {
      var list := c.value.subscriptions + [ws];
      var joined := s.(connections := WithSubscriptions(s.connections, peer, list));
      DropChangesOnly(s, peer, ws, list);
      forall d, other | d in joined.connections ensures UpToDate(Join(s, peer, ws), d, other, how) {
        JoinedIsCurrent(s, joined, peer, ws, d, other, how);
      }
    }
  }

  lemma JoinedIsCurrent(s: State, joined: State, peer: Peer, ws: WorkspaceId, d: Connection, other: WorkspaceId,
                        how: Accuracy)
    requires Sound(s, how) && ChangesOnly(s, joined, peer, ws) && d in joined.connections
    ensures var users := PresenceOf(joined, ws);
      UpToDate(if users == PresenceOf(s, ws) then SendOne(joined, peer, Users(ws, users))
               else Send(joined, Subscribers(joined.connections, joined.closed, ws), Users(ws, users)), d, other, how)
  {
    if Attends(d, joined.closed, other) {
      var i :| 0 <= i < |joined.connections| && joined.connections[i] == d;
      var b := s.connections[i];
      assert SameButFor(b, d, peer, ws);
      var users := PresenceOf(joined, ws);
      if users == PresenceOf(s, ws) {
        LastAfterOne(joined, peer, Users(ws, users), d.peer, other);
      } else {
        LastAfterSend(joined, ws, users, d, other);
      }
      if other != ws { OthersKeepPresence(s, joined, peer, ws, other); }
      assert UpToDate(s, b, other, how);
    }
  }

  lemma OneKeepsSound(s: State, peer: Peer, m: Message, how: Accuracy)
    requires Sound(s, how) && !m.Users?
    ensures Sound(SendOne(s, peer, m), how)
  {
    forall c, ws | c in s.connections ensures UpToDate(SendOne(s, peer, m), c, ws, how) {
      if Attends(c, s.closed, ws) { LastAfterOne(s, peer, m, c.peer, ws); }
      assert UpToDate(s, c, ws, how);
    }
  }

  // Announcements and ended sessions

  lemma {:induction false} AnnounceToKeepsSound(s: State, peer: Peer, email: string, affected: set<WorkspaceId>,
                                                list: seq<WorkspaceId>, how: Accuracy)
    requires Sound(s, how)
    ensures Sound(AnnounceTo(s, peer, email, affected, list), how)
    decreases |list|
  {
    if list != [] {
      var told := SendOne(s, peer, AccessChanged(list[0]));
      OneKeepsSound(s, peer, AccessChanged(list[0]), how);
      DropKeepsSound(told, peer, list[0], how);
      AnnounceToKeepsSound(AnnounceOne(s, peer, email, affected, list[0]), peer, email, affected, list[1..], how);
    }
  }

  lemma {:induction false} AnnounceAllKeepsSound(s: State, peers: seq<Attendee>, affected: set<WorkspaceId>,
                                                 how: Accuracy)
    requires Sound(s, how)
    ensures Sound(AnnounceAll(s, peers, affected), how)
    decreases |peers|
  {
    if peers != [] {
      var list := SubscriptionsOf(s.connections, peers[0].peer);
      AnnounceToKeepsSound(s, peers[0].peer, peers[0].email, affected, list, how);
      AnnounceAllKeepsSound(AnnounceTo(s, peers[0].peer, peers[0].email, affected, list), peers[1..], affected, how);
    }
  }

  lemma {:induction false} DropAllKeepsSound(s: State, peer: Peer, list: seq<WorkspaceId>, how: Accuracy)
    requires Sound(s, how)
    ensures Sound(DropAll(s, peer, list), how)
    decreases |list|
  {
    if list != [] {
      DropKeepsSound(s, peer, list[0], how);
      DropAllKeepsSound(Drop(s, peer, list[0]), peer, list[1..], how);
    }
  }

  lemma {:induction false} FindUpdated(cs: seq<Connection>, peer: Peer, list: seq<WorkspaceId>, other: Peer)
    ensures Find(WithSubscriptions(cs, peer, list), other)
         == if other == peer && Find(cs, peer).Some? then Some(Find(cs, peer).value.(subscriptions := list))
            else Find(cs, other)
  {
    if cs != [] && cs[0].peer != other {
      FindUpdated(cs[1..], peer, list, other);
      assert WithSubscriptions(cs, peer, list)[1..] == WithSubscriptions(cs[1..], peer, list);
    }
  }

  lemma {:induction false} DropAllEmpties(s: State, peer: Peer, list: seq<WorkspaceId>)
    requires forall w :: w in SubscriptionsOf(s.connections, peer) ==> w in list
    ensures SubscriptionsOf(DropAll(s, peer, list).connections, peer) == []
    ensures DropAll(s, peer, list).closed == s.closed
    decreases |list|
  {
    var subscriptions := SubscriptionsOf(s.connections, peer);
    assert subscriptions != [] ==> subscriptions[0] in list;
    if list != [] {
      LessHolds(subscriptions, list[0]);
      FindUpdated(s.connections, peer, Less(subscriptions, list[0]), peer);
      DropAllEmpties(Drop(s, peer, list[0]), peer, list[1..]);
    }
  }

  lemma {:induction false} RemovedHolds(cs: seq<Connection>, peer: Peer)
    requires Distinct(cs)
    ensures Distinct(Removed(cs, peer))
    ensures forall c :: c in Removed(cs, peer) <==> c in cs && c.peer != peer
  {
    if cs != [] {
      RemovedHolds(cs[..|cs| - 1], peer);
      assert cs == cs[..|cs| - 1] + [cs[|cs| - 1]];
    }
  }

  /** A connection that subscribes to nothing can go without anybody's presence changing. */
  lemma {:induction false} RemovedSubscribers(cs: seq<Connection>, closed: set<Peer>, peer: Peer, ws: WorkspaceId)
    requires forall c :: c in cs && c.peer == peer ==> c.subscriptions == []
    ensures Subscribers(Removed(cs, peer), closed + {peer}, ws) == Subscribers(cs, closed, ws)
  {
    if cs != [] {
      var front, c := cs[..|cs| - 1], cs[|cs| - 1];
      RemovedSubscribers(front, closed, peer, ws);
      if c.peer != peer {
        var kept := Removed(front, peer) + [c];
        assert kept[..|kept| - 1] == Removed(front, peer);
      } else {
        assert Removed(cs, peer) == Removed(front, peer);
      }
    }
  }

  lemma EndOneKeepsSound(s: State, peer: Peer, how: Accuracy)
    requires Sound(s, how)
    ensures Sound(EndOne(s, peer), how)
  {
    var told := SendOne(s, peer, SessionEnded);
    OneKeepsSound(s, peer, SessionEnded, how);
    var left := DropAll(told, peer, SubscriptionsOf(s.connections, peer));
    DropAllKeepsSound(told, peer, SubscriptionsOf(s.connections, peer), how);
    DropAllEmpties(told, peer, SubscriptionsOf(s.connections, peer));
    forall c | c in left.connections && c.peer == peer ensures c.subscriptions == [] { FindsOnly(left.connections, c); }
    RemovedHolds(left.connections, peer);
    var end := EndOne(s, peer);
    forall c, ws | c in end.connections ensures UpToDate(end, c, ws, how) {
      RemovedSubscribers(left.connections, left.closed, peer, ws);
      assert UpToDate(left, c, ws, how);
    }
  }

  lemma {:induction false} EndAllKeepsSound(s: State, peers: seq<Peer>, how: Accuracy)
    requires Sound(s, how)
    ensures Sound(EndAll(s, peers), how)
    decreases |peers|
  {
    if peers != [] {
      EndOneKeepsSound(s, peers[0], how);
      EndAllKeepsSound(EndOne(s, peers[0]), peers[1..], how);
    }
  }

  // Every step

  /** The peer whose socket this event closes without the hub dropping its subscriptions first. */
  function Closes(s: State, e: Event): Option<Peer> {
    match e
    case PeerLost(peer) => Some(peer)
    case Received(peer, text) =>
      if Find(s.connections, peer).None? then
        if text.Auth? && text.token in s.directory.sessions then None else Some(peer)
      else if text.Auth? || text.Junk? then Some(peer) else None
    case _ => None
  }

  lemma NewcomerAttendsNothing(cs: seq<Connection>, c: Connection, closed: set<Peer>, ws: WorkspaceId)
    requires c.subscriptions == []
    ensures Subscribers(cs + [c], closed, ws) == Subscribers(cs, closed, ws)
  {
    assert (cs + [c])[..|cs + [c]| - 1] == cs;
  }

  lemma NewcomerIsDistinct(cs: seq<Connection>, c: Connection)
    requires Distinct(cs) && Find(cs, c.peer).None?
    ensures Distinct(cs + [c])
  {
    FoundIsIn(cs, c.peer);
  }

  lemma CreatedKeepsSound(s: State, c: Connection, how: Accuracy)
    requires Sound(s, how) && Find(s.connections, c.peer).None? && c.subscriptions == []
    ensures Sound(s.(connections := s.connections + [c]), how)
  {
    NewcomerIsDistinct(s.connections, c);
    var t := s.(connections := s.connections + [c]);
    forall d, ws | d in t.connections ensures UpToDate(t, d, ws, how) {
      NewcomerAttendsNothing(s.connections, c, s.closed, ws);
      if d != c { assert UpToDate(s, d, ws, how); }
    }
  }

  lemma TextKeepsSound(s: State, peer: Peer, text: Text, how: Accuracy)
    requires Sound(s, how) && Closes(s, Received(peer, text)).None?
    ensures Sound(OnText(s, peer, text), how)
  {
    if Find(s.connections, peer).None? {
      var created := Connection(peer, text.token, s.directory.sessions[text.token], []);
      CreatedKeepsSound(s, created, how);
      OneKeepsSound(s.(connections := s.connections + [created]), peer, Ready, how);
    } else {
      match text
      case Ping => OneKeepsSound(s, peer, Pong, how);
      case Subscribe(ws) => JoinKeepsSound(s, peer, ws, how);
      case Unsubscribe(ws) => DropKeepsSound(s, peer, ws, how);
    }
  }

  lemma RewrittenKeepsSound(s: State, d: Directory, how: Accuracy)
    requires Sound(s, how)
    ensures Sound(s.(directory := d), how)
  {
    forall c, ws | c in s.connections ensures UpToDate(s.(directory := d), c, ws, how) {
      assert UpToDate(s, c, ws, how);
    }
  }

  /** Whatever a step does, other than close a socket by itself, it leaves every open subscriber's list current. */
  lemma StepKeepsSound(s: State, e: Event, how: Accuracy)
    requires Sound(s, how) && Closes(s, e).None?
    ensures Sound(Step(s, e), how)
  {
    match e
    case Received(peer, text) => TextKeepsSound(s, peer, text, how);
    case SetRole(ws, email, role) =>
      if ws in s.directory.workspaces {
        var t := s.(directory := WithGrant(s.directory, ws, email, role));
        RewrittenKeepsSound(s, t.directory, how);
        AnnounceAllKeepsSound(t, ConnectionsOf(t.connections, t.closed, email), {ws}, how);
      }
    case SetTeamRole(team, email, admin) =>
      if team in s.directory.teams {
        var t := s.(directory := WithMember(s.directory, team, email, admin));
        RewrittenKeepsSound(s, t.directory, how);
        AnnounceAllKeepsSound(t, ConnectionsOf(t.connections, t.closed, email), WorkspacesOf(t.directory, team), how);
      }
    case EndSession(token, revoked) =>
      var d := if revoked then s.directory.(sessions := s.directory.sessions - {token}) else s.directory;
      RewrittenKeepsSound(s, d, how);
      EndAllKeepsSound(s.(directory := d), SessionPeers(s.connections, s.closed, token), how);
    case Rewritten(d) => RewrittenKeepsSound(s, d, how);
  }

  ghost predicate NoneCloses(s: State, es: seq<Event>) {
    forall i :: 0 <= i < |es| ==> Closes(Execute(s, es[..i]), es[i]).None?
  }

  /** Live presence: over every run without such a step, each open subscriber's last list is the list now. */
  lemma {:induction false} ListsStayCurrent(s: State, es: seq<Event>)
    requires Init(s) && NoneCloses(s, es)
    ensures Sound(Execute(s, es), Exact)
    decreases |es|
  {
    if es != [] {
      var front := es[..|es| - 1];
      assert es[..|es| - 1] == front;
      forall i | 0 <= i < |front| ensures Closes(Execute(s, front[..i]), front[i]).None? {
        assert front[..i] == es[..i] && front[i] == es[i];
      }
      ListsStayCurrent(s, front);
      StepKeepsSound(Execute(s, front), es[|es| - 1], Exact);
    }
  }

  // What a list of users says

  ghost predicate IdsAreUnique(users: map<string, User>) {
    forall e, f :: e in users && f in users && users[e].id == users[f].id ==> e == f
  }

  function EntryOf(user: User): Entry {
    Entry(user.id, user.name)
  }

  /** Some attendee is this entry's user. */
  predicate Here(users: map<string, User>, attendees: seq<Attendee>, e: Entry) {
    exists i :: 0 <= i < |attendees| && IsUser(users, attendees[i].email, e)
  }

  predicate IsUser(users: map<string, User>, email: string, e: Entry) {
    var user := UserByEmail(users, email);
    user.Some? && EntryOf(user.value) == e
  }

  lemma {:induction false} PutAdds(entries: seq<Entry>, e: Entry)
    requires forall f :: f in entries && f.id == e.id ==> f == e
    ensures forall f :: f in Put(entries, e) <==> f in entries || f == e
  {
    if entries != [] {
      assert entries == [entries[0]] + entries[1..];
      if entries[0].id != e.id { PutAdds(entries[1..], e); }
    }
  }

  lemma {:induction false} NamesAreHere(users: map<string, User>, attendees: seq<Attendee>)
    requires IdsAreUnique(users)
    ensures forall e :: e in Names(users, attendees) <==> Here(users, attendees, e)
  {
    if attendees != [] {
      var front, newest := attendees[..|attendees| - 1], attendees[|attendees| - 1];
      NamesAreHere(users, front);
      forall e ensures Here(users, attendees, e) <==> Here(users, front, e) || IsUser(users, newest.email, e) {
        HereAfter(users, front, newest, e);
        assert front + [newest] == attendees;
      }
      var user := UserByEmail(users, newest.email);
      if user.Some? {
        var e := EntryOf(user.value);
        forall f | f in Names(users, front) && f.id == e.id ensures f == e {
          assert Here(users, front, f);
        }
        PutAdds(Names(users, front), e);
      }
    }
  }

  lemma HereAfter(users: map<string, User>, front: seq<Attendee>, newest: Attendee, e: Entry)
    ensures Here(users, front + [newest], e) <==> Here(users, front, e) || IsUser(users, newest.email, e)
  {
    var all := front + [newest];
    assert all[|front|] == newest && forall i :: 0 <= i < |front| ==> all[i] == front[i];
    if Here(users, front, e) {
      var i :| 0 <= i < |front| && IsUser(users, front[i].email, e);
      assert IsUser(users, all[i].email, e);
    }
  }

  lemma EntriesAreOrdered()
    ensures StrictOrder(EntryLess)
  {
    forall x, y, z | EntryLess(x, y) && EntryLess(y, z) ensures EntryLess(x, z) {
      if TextLess(x.name, y.name) && TextLess(y.name, z.name) { TextLessTransitive(x.name, y.name, z.name); }
      if TextLess(x.id, y.id) && TextLess(y.id, z.id) { TextLessTransitive(x.id, y.id, z.id); }
    }
    forall x, y ensures !EntryLess(x, x) && (x != y ==> EntryLess(x, y) || EntryLess(y, x)) {
      TextLessTotal(x.name, y.name);
      TextLessTotal(x.id, y.id);
    }
  }

  /** A workspace's list is increasing, so each user is in it once, and it names exactly the users who are there. */
  lemma PresenceIsExact(users: map<string, User>, attendees: seq<Attendee>)
    requires IdsAreUnique(users)
    ensures Increasing(EntryLess, PresenceIn(users, attendees))
    ensures forall e :: e in PresenceIn(users, attendees) <==> Here(users, attendees, e)
  {
    EntriesAreOrdered();
    NamesAreHere(users, attendees);
    SortSorts(EntryLess, Names(users, attendees));
  }

  // A socket that closes by itself

  predicate UserThere(s: State, ws: WorkspaceId, e: Entry) {
    Here(s.users, Subscribers(s.connections, s.closed, ws), e)
  }

  lemma {:induction false} FewerSubscribers(cs: seq<Connection>, closed: set<Peer>, peer: Peer, ws: WorkspaceId)
    ensures forall a ::
              a in Subscribers(cs, closed + {peer}, ws) <==> a in Subscribers(cs, closed, ws) && a.peer != peer
  {
    if cs != [] { FewerSubscribers(cs[..|cs| - 1], closed, peer, ws); }
  }

  /** The list after a socket closed names the users who are there through another one. */
  lemma ListAfterClose(s: State, peer: Peer, ws: WorkspaceId)
    requires IdsAreUnique(s.users)
    ensures var t := s.(closed := s.closed + {peer});
      && (PresenceOf(t, ws) == PresenceOf(s, ws) <==> forall e :: UserThere(s, ws, e) ==> UserThere(t, ws, e))
      && (forall e :: e in PresenceOf(t, ws) ==> e in PresenceOf(s, ws))
  {
    var t := s.(closed := s.closed + {peer});
    var before, after := Subscribers(s.connections, s.closed, ws), Subscribers(t.connections, t.closed, ws);
    PresenceIsExact(s.users, before);
    PresenceIsExact(s.users, after);
    FewerSubscribers(s.connections, s.closed, peer, ws);
    forall e | Here(s.users, after, e) ensures Here(s.users, before, e) {
      var i :| 0 <= i < |after| && IsUser(s.users, after[i].email, e);
      assert after[i] in before;
      var j :| 0 <= j < |before| && before[j] == after[i];
      assert IsUser(s.users, before[j].email, e);
    }
    assert forall e :: UserThere(s, ws, e) <==> e in PresenceOf(s, ws);
    assert forall e :: UserThere(t, ws, e) <==> e in PresenceOf(t, ws);
    if forall e :: UserThere(s, ws, e) ==> UserThere(t, ws, e) {
      EntriesAreOrdered();
      IncreasingUnique(EntryLess, PresenceOf(s, ws), PresenceOf(t, ws));
    }
  }

  /** The lost peer was a user's only socket in some workspace where somebody else still is. */
  ghost predicate LeavesUnseen(s: State, peer: Peer) {
    exists c, ws, e :: c in s.connections && c.peer != peer && Attends(c, s.closed, ws)
                       && UserThere(s, ws, e) && !UserThere(s.(closed := s.closed + {peer}), ws, e)
  }

  lemma CurrentAfterClose(s: State, peer: Peer, c: Connection, ws: WorkspaceId)
    requires UpToDate(s, c, ws, Exact) && c.peer != peer && Attends(c, s.closed, ws)
    ensures var t := s.(closed := s.closed + {peer});
      UpToDate(t, c, ws, Exact) <==> PresenceOf(t, ws) == PresenceOf(s, ws)
  {
  }

  lemma StaleAfterClose(s: State, peer: Peer)
    requires Sound(s, Exact) && IdsAreUnique(s.users) && LeavesUnseen(s, peer)
    ensures !Sound(s.(closed := s.closed + {peer}), Exact)
  {
    var t := s.(closed := s.closed + {peer});
    var c, ws, gone :| c in s.connections && c.peer != peer && Attends(c, s.closed, ws)
      && UserThere(s, ws, gone) && !UserThere(t, ws, gone);
    assert UpToDate(s, c, ws, Exact);
    ListAfterClose(s, peer, ws);
    CurrentAfterClose(s, peer, c, ws);
    assert !UpToDate(t, c, ws, Exact);
  }

  /** Exactly when a socket that closes by itself leaves a stale list behind. */
  lemma WhenListsGoStale(s: State, e: Event)
    requires Sound(s, Exact) && Closes(s, e).Some? && IdsAreUnique(s.users)
    ensures Step(s, e) == s.(closed := s.closed + {Closes(s, e).value})
    ensures Sound(Step(s, e), Exact) <==> !LeavesUnseen(s, Closes(s, e).value)
  {
    var peer := Closes(s, e).value;
    var t := Step(s, e);
    assert t == s.(closed := s.closed + {peer});
    if LeavesUnseen(s, peer) {
      StaleAfterClose(s, peer);
    } else {
      forall c, ws | c in t.connections ensures UpToDate(t, c, ws, Exact) {
        assert UpToDate(s, c, ws, Exact);
        ListAfterClose(s, peer, ws);
      }
    }
  }

  lemma StepKeepsUsers(s: State, e: Event)
    ensures Step(s, e).users == s.users
  {
  }

  lemma {:induction false} UsersAreFixed(s: State, es: seq<Event>)
    ensures Execute(s, es).users == s.users
    decreases |es|
  {
    if es != [] {
      UsersAreFixed(s, es[..|es| - 1]);
      StepKeepsUsers(Execute(s, es[..|es| - 1]), es[|es| - 1]);
    }
  }

  lemma CloseKeepsCovering(s: State, peer: Peer)
    requires Sound(s, Covering) && IdsAreUnique(s.users)
    ensures Sound(s.(closed := s.closed + {peer}), Covering)
  {
    var t := s.(closed := s.closed + {peer});
    forall c, ws | c in t.connections ensures UpToDate(t, c, ws, Covering) {
      ListAfterClose(s, peer, ws);
      assert UpToDate(s, c, ws, Covering);
    }
  }

  /** Over every run, lost sockets included, nobody who is there is missing from anybody's last list. */
  lemma {:induction false} NobodyIsMissing(s: State, es: seq<Event>)
    requires Init(s) && IdsAreUnique(s.users)
    ensures Sound(Execute(s, es), Covering)
    decreases |es|
  {
    if es != [] {
      var before, e := Execute(s, es[..|es| - 1]), es[|es| - 1];
      NobodyIsMissing(s, es[..|es| - 1]);
      UsersAreFixed(s, es[..|es| - 1]);
      if Closes(before, e).Some? {
        CloseKeepsCovering(before, Closes(before, e).value);
      } else {
        StepKeepsSound(before, e, Covering);
      }
    }
  }

  // Only those who may see a workspace stay subscribed to it

  predicate MayStay(s: State, c: Connection) {
    c.peer !in s.closed ==> forall ws :: ws in c.subscriptions ==> Allowed(s.users, s.directory, ws, c.email)
  }

  ghost predicate Entitled(s: State) {
    forall c :: c in s.connections ==> MayStay(s, c)
  }

  /** `t` has the connections of `s` or fewer, each with the subscriptions it had in `s` or fewer. */
  ghost predicate Shrinks(s: State, t: State) {
    && t.users == s.users && t.directory == s.directory && s.closed <= t.closed
    && forall c :: c in t.connections ==> Had(s, c)
  }

  ghost predicate Had(s: State, c: Connection) {
    exists b :: b in s.connections && b.peer == c.peer && b.email == c.email
                && forall ws :: ws in c.subscriptions ==> ws in b.subscriptions
  }

  lemma ShrinksOnward(s: State, t: State, u: State)
    requires Shrinks(s, t) && Shrinks(t, u)
    ensures Shrinks(s, u)
  {
    forall c | c in u.connections ensures Had(s, c) {
      assert Had(t, c);
      var b :| b in t.connections && b.peer == c.peer && b.email == c.email
        && forall ws :: ws in c.subscriptions ==> ws in b.subscriptions;
      assert Had(s, b);
    }
  }

  lemma FewerStayEntitled(s: State, t: State)
    requires Entitled(s) && Shrinks(s, t)
    ensures Entitled(t)
  {
    forall c | c in t.connections ensures MayStay(t, c) {
      assert Had(s, c);
      var b :| b in s.connections && b.peer == c.peer && b.email == c.email
        && forall ws :: ws in c.subscriptions ==> ws in b.subscriptions;
      assert MayStay(s, b);
    }
  }

  lemma DropOnlyShrinks(s: State, peer: Peer, ws: WorkspaceId)
    requires Distinct(s.connections)
    ensures Distinct(Drop(s, peer, ws).connections) && Shrinks(s, Drop(s, peer, ws))
  {
    LessHolds(SubscriptionsOf(s.connections, peer), ws);
    var t := Drop(s, peer, ws);
    forall c | c in t.connections ensures Had(s, c) {
      var i :| 0 <= i < |t.connections| && t.connections[i] == c;
      var b := s.connections[i];
      FindsOnly(s.connections, b);
      assert forall w :: w in c.subscriptions ==> w in b.subscriptions;
    }
  }

  lemma {:induction false} DropAllOnlyShrinks(s: State, peer: Peer, list: seq<WorkspaceId>)
    requires Distinct(s.connections)
    ensures Distinct(DropAll(s, peer, list).connections) && Shrinks(s, DropAll(s, peer, list))
    decreases |list|
  {
    if list == [] {
      forall c | c in s.connections ensures Had(s, c) { }
    } else {
      DropOnlyShrinks(s, peer, list[0]);
      DropAllOnlyShrinks(Drop(s, peer, list[0]), peer, list[1..]);
      ShrinksOnward(s, Drop(s, peer, list[0]), DropAll(s, peer, list));
    }
  }

  lemma {:induction false} EndAllOnlyShrinks(s: State, peers: seq<Peer>)
    requires Distinct(s.connections)
    ensures Distinct(EndAll(s, peers).connections) && Shrinks(s, EndAll(s, peers))
    decreases |peers|
  {
    if peers == [] {
      forall c | c in s.connections ensures Had(s, c) { }
    } else {
      var told := SendOne(s, peers[0], SessionEnded);
      var left := DropAll(told, peers[0], SubscriptionsOf(s.connections, peers[0]));
      DropAllOnlyShrinks(told, peers[0], SubscriptionsOf(s.connections, peers[0]));
      RemovedHolds(left.connections, peers[0]);
      forall c | c in EndOne(s, peers[0]).connections ensures Had(s, c) { assert Had(told, c); }
      EndAllOnlyShrinks(EndOne(s, peers[0]), peers[1..]);
      ShrinksOnward(s, EndOne(s, peers[0]), EndAll(s, peers));
    }
  }

  /** A subscription that an announcement leaves alone: still allowed, or not concerned. */
  predicate Fine(s: State, email: string, affected: set<WorkspaceId>, ws: WorkspaceId) {
    Affected(s.directory, affected, ws) ==> Allowed(s.users, s.directory, ws, email)
  }

  lemma AnnounceOneShrinks(s: State, peer: Peer, email: string, affected: set<WorkspaceId>, ws: WorkspaceId)
    requires Distinct(s.connections)
    ensures var t := AnnounceOne(s, peer, email, affected, ws);
      && Distinct(t.connections) && Shrinks(s, t)
      && (forall w :: w in SubscriptionsOf(t.connections, peer) ==>
            w in SubscriptionsOf(s.connections, peer) && (w == ws ==> Fine(s, email, affected, w)))
  {
    var told := SendOne(s, peer, AccessChanged(ws));
    forall c | c in s.connections ensures Had(s, c) { }
    if Affected(s.directory, affected, ws) && !Allowed(s.users, s.directory, ws, email) {
      DropOnlyShrinks(told, peer, ws);
      LessHolds(SubscriptionsOf(s.connections, peer), ws);
      FindUpdated(s.connections, peer, Less(SubscriptionsOf(s.connections, peer), ws), peer);
      forall c | c in Drop(told, peer, ws).connections ensures Had(s, c) { assert Had(told, c); }
    }
  }

  /** After a connection was told of its subscriptions, each one it keeps is fine. */
  lemma {:induction false} AnnounceToCleans(s: State, peer: Peer, email: string, affected: set<WorkspaceId>,
                                            list: seq<WorkspaceId>)
    requires Distinct(s.connections)
    requires forall w :: w in SubscriptionsOf(s.connections, peer) ==> w in list || Fine(s, email, affected, w)
    ensures var t := AnnounceTo(s, peer, email, affected, list);
      && Distinct(t.connections) && Shrinks(s, t)
      && forall w :: w in SubscriptionsOf(t.connections, peer) ==> Fine(s, email, affected, w)
    decreases |list|
  {
    if list == [] {
      forall c | c in s.connections ensures Had(s, c) { }
    } else {
      var first := AnnounceOne(s, peer, email, affected, list[0]);
      AnnounceOneShrinks(s, peer, email, affected, list[0]);
      AnnounceToCleans(first, peer, email, affected, list[1..]);
      ShrinksOnward(s, first, AnnounceTo(s, peer, email, affected, list));
    }
  }

  /** Every attendee of the list keeps only subscriptions that are fine. */
  ghost predicate Cleaned(s: State, peers: seq<Attendee>, affected: set<WorkspaceId>) {
    forall a, c, w :: a in peers && c in s.connections && c.peer == a.peer && w in c.subscriptions ==>
           Fine(s, a.email, affected, w)
  }

  lemma CleanedStays(s: State, t: State, peers: seq<Attendee>, affected: set<WorkspaceId>)
    requires Cleaned(s, peers, affected) && Shrinks(s, t)
    ensures Cleaned(t, peers, affected)
  {
    forall a, c, w | a in peers && c in t.connections && c.peer == a.peer && w in c.subscriptions
      ensures Fine(t, a.email, affected, w)
    {
      assert Had(s, c);
    }
  }

  lemma CleanedTogether(s: State, a: Attendee, rest: seq<Attendee>, affected: set<WorkspaceId>)
    requires Cleaned(s, [a], affected) && Cleaned(s, rest, affected)
    ensures forall peers :: peers != [] && peers[0] == a && peers[1..] == rest ==> Cleaned(s, peers, affected)
  {
    forall peers: seq<Attendee> | peers != [] && peers[0] == a && peers[1..] == rest
      ensures Cleaned(s, peers, affected)
    {
      assert peers == [a] + rest;
      assert a in [a];
    }
  }

  lemma {:induction false} AnnounceAllCleans(s: State, peers: seq<Attendee>, affected: set<WorkspaceId>)
    requires Distinct(s.connections)
    ensures var t := AnnounceAll(s, peers, affected);
      Distinct(t.connections) && Shrinks(s, t) && Cleaned(t, peers, affected)
    decreases |peers|
  {
    if peers == [] {
      forall c | c in s.connections ensures Had(s, c) { }
    } else {
      var a, rest := peers[0], peers[1..];
      var list := SubscriptionsOf(s.connections, a.peer);
      var first := AnnounceTo(s, a.peer, a.email, affected, list);
      AnnounceToCleans(s, a.peer, a.email, affected, list);
      forall c | c in first.connections && c.peer == a.peer
        ensures SubscriptionsOf(first.connections, a.peer) == c.subscriptions
      {
        FindsOnly(first.connections, c);
      }
      assert Cleaned(first, [a], affected);
      AnnounceAllCleans(first, rest, affected);
      var t := AnnounceAll(s, peers, affected);
      CleanedStays(first, t, [a], affected);
      CleanedTogether(t, a, rest, affected);
      ShrinksOnward(s, first, t);
    }
  }

  lemma {:induction false} WhoIsTold(cs: seq<Connection>, closed: set<Peer>, email: string)
    ensures forall c :: c in cs && c.peer !in closed && Lower(c.email) == Lower(email)
              ==> Attendee(c.peer, c.email) in ConnectionsOf(cs, closed, email)
  {
    if cs != [] {
      WhoIsTold(cs[..|cs| - 1], closed, email);
      assert cs == cs[..|cs| - 1] + [cs[|cs| - 1]];
    }
  }

  /** A change of one user's roles in `affected` workspaces takes them from nobody else and nowhere else. */
  ghost predicate TakesOnly(users: map<string, User>, d: Directory, after: Directory, email: string,
                            affected: set<WorkspaceId>) {
    forall ws, other {:trigger Allowed(users, d, ws, other)} ::
      Allowed(users, d, ws, other) && (Lower(other) != Lower(email) || ws !in affected) ==>
        Allowed(users, after, ws, other)
  }

  lemma AnnounceKeepsEntitled(s: State, after: Directory, email: string, affected: set<WorkspaceId>)
    requires Entitled(s) && Distinct(s.connections) && TakesOnly(s.users, s.directory, after, email, affected)
    ensures Entitled(Announce(s.(directory := after), email, affected))
    ensures Distinct(Announce(s.(directory := after), email, affected).connections)
  {
    var start := s.(directory := after);
    var peers := ConnectionsOf(s.connections, s.closed, email);
    AnnounceAllCleans(start, peers, affected);
    var t := Announce(start, email, affected);
    forall c | c in t.connections ensures MayStay(t, c) {
      assert Had(start, c);
      var b :| b in s.connections && b.peer == c.peer && b.email == c.email
        && forall ws :: ws in c.subscriptions ==> ws in b.subscriptions;
      assert MayStay(s, b);
      WhoIsTold(s.connections, s.closed, email);
      if c.peer !in t.closed {
        forall ws | ws in c.subscriptions ensures Allowed(t.users, t.directory, ws, c.email) {
          assert Allowed(s.users, s.directory, ws, b.email);
          if Lower(b.email) == Lower(email) {
            assert Attendee(b.peer, b.email) in peers;
            assert Fine(t, b.email, affected, ws);
          }
        }
      }
    }
  }

  lemma RoleTakesOnly(users: map<string, User>, d: Directory, ws: WorkspaceId, email: string, role: Role)
    requires ws in d.workspaces
    ensures TakesOnly(users, d, WithGrant(d, ws, email, role), email, {ws})
  {
  }

  lemma TeamRoleTakesOnly(users: map<string, User>, d: Directory, team: string, email: string, admin: Option<bool>)
    requires team in d.teams
    ensures var after := WithMember(d, team, email, admin);
      TakesOnly(users, d, after, email, WorkspacesOf(after, team))
  {
  }

  lemma NewcomerKeepsEntitled(s: State, peer: Peer, text: Text)
    requires Entitled(s) && Distinct(s.connections) && Find(s.connections, peer).None?
    ensures Entitled(OnText(s, peer, text)) && Distinct(OnText(s, peer, text).connections)
  {
    FoundIsIn(s.connections, peer);
    var t := OnText(s, peer, text);
    forall d | d in t.connections ensures MayStay(t, d) { assert d in s.connections ==> MayStay(s, d); }
  }

  lemma JoinKeepsPeers(s: State, peer: Peer, ws: WorkspaceId)
    requires Distinct(s.connections)
    ensures Distinct(Join(s, peer, ws).connections)
    ensures Join(s, peer, ws) == s.(connections := Join(s, peer, ws).connections, sent := Join(s, peer, ws).sent)
  {
  }

  lemma JoinerMayStay(s: State, peer: Peer, ws: WorkspaceId, d: Connection)
    requires Distinct(s.connections) && d in Join(s, peer, ws).connections && d !in s.connections
    requires Find(s.connections, peer).Some? && MayStay(s, Find(s.connections, peer).value)
    ensures MayStay(s, d)
  {
    FoundIsIn(s.connections, peer);
    JoinedIs(s, Find(s.connections, peer).value, ws, d);
  }

  lemma JoinKeepsEntitled(s: State, peer: Peer, ws: WorkspaceId)
    requires Entitled(s) && Distinct(s.connections) && Find(s.connections, peer).Some?
    ensures Entitled(Join(s, peer, ws))
  {
    FoundIsIn(s.connections, peer);
    JoinKeepsPeers(s, peer, ws);
    var t := Join(s, peer, ws);
    forall d | d in t.connections ensures MayStay(t, d) {
      if d !in s.connections { JoinerMayStay(s, peer, ws, d); }
      assert MayStay(s, d);
    }
  }

  lemma TextKeepsEntitled(s: State, peer: Peer, text: Text)
    requires Entitled(s) && Distinct(s.connections)
    ensures Entitled(OnText(s, peer, text)) && Distinct(OnText(s, peer, text).connections)
  {
    if Find(s.connections, peer).None? {
      NewcomerKeepsEntitled(s, peer, text);
    } else if text.Subscribe? {
      JoinKeepsEntitled(s, peer, text.workspace);
      JoinKeepsPeers(s, peer, text.workspace);
    } else {
      forall d | d in s.connections ensures Had(s, d) { }
      if text.Unsubscribe? { DropOnlyShrinks(s, peer, text.workspace); }
      FewerStayEntitled(s, OnText(s, peer, text));
    }
  }

  lemma JoinedIs(s: State, c: Connection, ws: WorkspaceId, d: Connection)
    requires Distinct(s.connections) && c in s.connections
    requires d in Join(s, c.peer, ws).connections && d !in s.connections
    ensures d == c.(subscriptions := c.subscriptions + [ws]) && Allowed(s.users, s.directory, ws, c.email)
  {
    FindsOnly(s.connections, c);
    var i :| 0 <= i < |s.connections| && Join(s, c.peer, ws).connections[i] == d;
    FindsOnly(s.connections, s.connections[i]);
  }

  lemma StepKeepsEntitled(s: State, e: Event)
    requires Entitled(s) && Distinct(s.connections) && !e.Rewritten?
    ensures Entitled(Step(s, e)) && Distinct(Step(s, e).connections)
  {
    match e
    case Received(peer, text) => TextKeepsEntitled(s, peer, text);
    case SetRole(ws, email, role) =>
      if ws in s.directory.workspaces {
        RoleTakesOnly(s.users, s.directory, ws, email, role);
        AnnounceKeepsEntitled(s, WithGrant(s.directory, ws, email, role), email, {ws});
      }
    case SetTeamRole(team, email, admin) =>
      if team in s.directory.teams {
        var d := WithMember(s.directory, team, email, admin);
        TeamRoleTakesOnly(s.users, s.directory, team, email, admin);
        AnnounceKeepsEntitled(s, d, email, WorkspacesOf(d, team));
      }
    case EndSession(token, revoked) =>
      var d := if revoked then s.directory.(sessions := s.directory.sessions - {token}) else s.directory;
      var t := s.(directory := d);
      forall c | c in t.connections ensures MayStay(t, c) { assert MayStay(s, c); }
      EndAllOnlyShrinks(t, SessionPeers(s.connections, s.closed, token));
      FewerStayEntitled(t, Step(s, e));
    case PeerLost(peer) =>
      forall c | c in s.connections ensures Had(s, c) { }
      FewerStayEntitled(s, Step(s, e));
  }

  /** Over every run of the hub's own steps, whoever is subscribed to a workspace may see it. */
  lemma {:induction false} OnlyEntitledStay(s: State, es: seq<Event>)
    requires Init(s) && forall i :: 0 <= i < |es| ==> !es[i].Rewritten?
    ensures Entitled(Execute(s, es)) && Distinct(Execute(s, es).connections)
    decreases |es|
  {
    if es != [] {
      OnlyEntitledStay(s, es[..|es| - 1]);
      StepKeepsEntitled(Execute(s, es[..|es| - 1]), es[|es| - 1]);
    }
  }
}
