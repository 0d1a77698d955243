/**
 Who may see a workspace, written out, and what the hub's messages, role changes and ended sessions come to for it.
 */
module PresenceAccess {
  import opened Wrappers
  import opened Presence
  import opened PresenceTheorems

  // Who may see a workspace

  /** The same but for the case of its letters. */
  predicate SameButCase(a: string, b: string) {
    |a| == |b| && forall i :: 0 <= i < |a| ==> SameLetter(a[i], b[i])
  }

  predicate SameLetter(a: char, b: char) {
    a == b || ('A' <= a <= 'Z' && b as int == a as int + 32) || ('A' <= b <= 'Z' && a as int == b as int + 32)
  }

  lemma CaseIsIgnored(a: string, b: string)
    ensures Lower(a) == Lower(b) <==> SameButCase(a, b)
  {
    if Lower(a) == Lower(b) {
      forall i | 0 <= i < |a| ensures SameLetter(a[i], b[i]) { assert Lower(a)[i] == Lower(b)[i]; }
    }
  }

  predicate IsServerAdmin(users: map<string, User>, email: string) {
    Lower(email) in users && users[Lower(email)].serverAdmin
  }

  predicate IsMember(d: Directory, team: string, email: string) {
    team in d.teams && Lower(email) in d.teams[team]
  }

  predicate IsTeamAdmin(d: Directory, team: string, email: string) {
    IsMember(d, team, email) && d.teams[team][Lower(email)]
  }

  /** The server's admins, the team's members that have a grant or a default role, and the team's own admins. */
  lemma WhoMaySee(users: map<string, User>, d: Directory, workspace: WorkspaceId, email: string)
    ensures Allowed(users, d, workspace, email)
            <==> workspace in d.workspaces
                 && (IsServerAdmin(users, email)
                     || (IsMember(d, d.workspaces[workspace].teamId, email)
                         && (IsTeamAdmin(d, d.workspaces[workspace].teamId, email)
                             || Lower(email) in d.workspaces[workspace].grants
                             || d.workspaces[workspace].defaultRole.Some?)))
  {
  }

  /** And as what: an admin of the server or the team as admin, a member by the grant or else by the default role. */
  lemma SeesAs(users: map<string, User>, d: Directory, workspace: WorkspaceId, email: string)
    requires Allowed(users, d, workspace, email)
    ensures var ws := d.workspaces[workspace];
      var access := Effective(users, d, ws, email).value;
      if IsServerAdmin(users, email) then access == Access(Admin, ServerAdmin)
      else if IsTeamAdmin(d, ws.teamId, email) then access == Access(Admin, TeamAdmin)
      else if Lower(email) in ws.grants then access == Access(ws.grants[Lower(email)], Grant)
      else ws.defaultRole.Some? && access == Access(ws.defaultRole.value, Default)
  {
  }

  /** A role that is set is the member's role there, and no other access changes, not theirs elsewhere nor anybody's. */
  lemma RoleIsGiven(users: map<string, User>, d: Directory, workspace: WorkspaceId, email: string, role: Role,
                    w: WorkspaceId, other: string)
    requires workspace in d.workspaces && w in d.workspaces
    ensures var after := WithGrant(d, workspace, email, role);
      && after.workspaces.Keys == d.workspaces.Keys && after.teams == d.teams && after.sessions == d.sessions
      && (IsMember(d, d.workspaces[workspace].teamId, email) && !IsServerAdmin(users, email)
          && !IsTeamAdmin(d, d.workspaces[workspace].teamId, email) ==>
            Effective(users, after, after.workspaces[workspace], email) == Some(Access(role, Grant)))
      && (w != workspace || !SameButCase(other, email) ==>
            Effective(users, after, after.workspaces[w], other) == Effective(users, d, d.workspaces[w], other))
  {
    CaseIsIgnored(other, email);
  }

  /** A member that is removed may see none of the team's workspaces, unless it is an admin of the server; */
  lemma RemovedMaySeeNone(users: map<string, User>, d: Directory, team: string, email: string, workspace: WorkspaceId)
    requires team in d.teams && workspace in d.workspaces && d.workspaces[workspace].teamId == team
    ensures Allowed(users, WithMember(d, team, email, None), workspace, email) <==> IsServerAdmin(users, email)
  {
  }

  /** one that is added as an admin sees them all, and one as a member those with a grant or a default role; */
  lemma AddedMaySee(users: map<string, User>, d: Directory, team: string, email: string, admin: bool,
                    workspace: WorkspaceId)
    requires team in d.teams && workspace in d.workspaces && d.workspaces[workspace].teamId == team
    ensures Allowed(users, WithMember(d, team, email, Some(admin)), workspace, email)
            <==> IsServerAdmin(users, email) || admin || Lower(email) in d.workspaces[workspace].grants
                 || d.workspaces[workspace].defaultRole.Some?
  {
  }

  /** and no one else's access changes, nor anybody's elsewhere. */
  lemma OthersSeeTheSame(users: map<string, User>, d: Directory, team: string, email: string, admin: Option<bool>,
                         workspace: WorkspaceId, other: string)
    requires team in d.teams && workspace in d.workspaces
    requires d.workspaces[workspace].teamId != team || !SameButCase(other, email)
    ensures var after := WithMember(d, team, email, admin);
      after.workspaces == d.workspaces && after.sessions == d.sessions
      && Effective(users, after, after.workspaces[workspace], other)
            == Effective(users, d, d.workspaces[workspace], other)
  {
    CaseIsIgnored(other, email);
  }

  // Coming in and subscribing

  /** A token of a session comes in as its user, and is told so; anything else first closes the socket. */
  lemma WhoComesIn(s: State, peer: Peer, text: Text)
    requires Find(s.connections, peer).None? && peer !in s.closed
    ensures var t := Step(s, Received(peer, text));
      if text.Auth? && text.token in s.directory.sessions then
        && t.connections == s.connections + [Connection(peer, text.token, s.directory.sessions[text.token], [])]
        && t.sent == s.sent + [Sent(peer, Ready)] && t.closed == s.closed
      else t == s.(closed := s.closed + {peer})
  {
  }

  /** A subscription is taken exactly from those who may see the workspace, and refused to the others. */
  lemma WhenSubscribed(s: State, peer: Peer, ws: WorkspaceId)
    requires Distinct(s.connections) && Find(s.connections, peer).Some? && peer !in s.closed
    ensures var c := Find(s.connections, peer).value;
      var t := Step(s, Received(peer, Subscribe(ws)));
      && Find(t.connections, peer) == Some(c.(subscriptions :=
           if ws !in c.subscriptions && Allowed(s.users, s.directory, ws, c.email) then c.subscriptions + [ws]
           else c.subscriptions))
      && (!Allowed(s.users, s.directory, ws, c.email) ==> t == s.(sent := s.sent + [Sent(peer, Refused(ws))]))
  {
    var c := Find(s.connections, peer).value;
    FindUpdated(s.connections, peer, c.subscriptions + [ws], peer);
  }

  /** One that is given up is gone, and no other of anybody's is. */
  lemma WhenUnsubscribed(s: State, peer: Peer, ws: WorkspaceId, other: Peer, w: WorkspaceId)
    requires Distinct(s.connections) && Find(s.connections, peer).Some? && peer !in s.closed
    ensures var t := Step(s, Received(peer, Unsubscribe(ws)));
      w in SubscriptionsOf(t.connections, other)
      <==> w in SubscriptionsOf(s.connections, other) && (other != peer || w != ws)
  {
    LessHolds(SubscriptionsOf(s.connections, peer), ws);
    FindUpdated(s.connections, peer, Less(SubscriptionsOf(s.connections, peer), ws), other);
  }

  // Who hears of a change of access

  /** The messages sent from `s` to `t`, nothing having been taken back. */
  predicate SentSince(s: State, t: State, m: Sent) {
    s.sent <= t.sent && m in t.sent[|s.sent|..]
  }

  predicate OnlyAdds(s: State, t: State) {
    s.sent <= t.sent && t.closed == s.closed && t.directory == s.directory && t.users == s.users
  }

  lemma {:induction false} BroadcastsNoAccess(peers: seq<Attendee>, closed: set<Peer>, m: Message, x: Sent)
    requires x in Broadcast(peers, closed, m)
    ensures x.message == m
  {
    if x !in Broadcast(peers[..|peers| - 1], closed, m) {
    } else {
      BroadcastsNoAccess(peers[..|peers| - 1], closed, m, x);
    }
  }

  /** Dropping a subscription leaves everybody else's, and sends nothing but lists of users. */
  lemma DropIsQuiet(s: State, peer: Peer, ws: WorkspaceId, other: Peer, x: Sent)
    ensures var t := Drop(s, peer, ws);
      && OnlyAdds(s, t)
      && (other != peer ==> SubscriptionsOf(t.connections, other) == SubscriptionsOf(s.connections, other))
      && (SentSince(s, t, x) ==> x.message.Users?)
  {
    var t := Drop(s, peer, ws);
    FindUpdated(s.connections, peer, Less(SubscriptionsOf(s.connections, peer), ws), other);
    if SentSince(s, t, x) {
      var subscribers := Subscribers(t.connections, t.closed, ws);
      BroadcastsNoAccess(subscribers, t.closed, Users(ws, PresenceOf(t, ws)), x);
    }
  }

  lemma SinceTogether(s: State, t: State, u: State, x: Sent)
    requires s.sent <= t.sent <= u.sent
    ensures SentSince(s, u, x) <==> SentSince(s, t, x) || SentSince(t, u, x)
  {
    assert u.sent[|s.sent|..] == t.sent[|s.sent|..] + u.sent[|t.sent|..];
  }

  lemma OneIsTold(s: State, peer: Peer, email: string, affected: set<WorkspaceId>, ws: WorkspaceId, other: Peer,
                  x: Sent)
    requires peer !in s.closed && x.message.AccessChanged?
    ensures var t := AnnounceOne(s, peer, email, affected, ws);
      && OnlyAdds(s, t)
      && (other != peer ==> SubscriptionsOf(t.connections, other) == SubscriptionsOf(s.connections, other))
      && (SentSince(s, t, x) <==>
            x == Sent(peer, AccessChanged(ws)) && (ws !in s.directory.workspaces || ws in affected))
  {
    if Affected(s.directory, affected, ws) {
      var told := SendOne(s, peer, AccessChanged(ws));
      assert told.sent[|s.sent|..] == [Sent(peer, AccessChanged(ws))];
      DropIsQuiet(told, peer, ws, other, x);
      if !Allowed(s.users, s.directory, ws, email) { SinceTogether(s, told, Drop(told, peer, ws), x); }
    }
  }

  lemma {:induction false} EachIsTold(s: State, peer: Peer, email: string, affected: set<WorkspaceId>,
                                      list: seq<WorkspaceId>, other: Peer, x: Sent)
    requires peer !in s.closed && x.message.AccessChanged?
    ensures var t := AnnounceTo(s, peer, email, affected, list);
      && OnlyAdds(s, t)
      && (other != peer ==> SubscriptionsOf(t.connections, other) == SubscriptionsOf(s.connections, other))
      && (SentSince(s, t, x)
          <==> x.peer == peer && x.message.workspace in list
               && (x.message.workspace !in s.directory.workspaces || x.message.workspace in affected))
    decreases |list|
  {
    if list != [] {
      var first := AnnounceOne(s, peer, email, affected, list[0]);
      OneIsTold(s, peer, email, affected, list[0], other, x);
      EachIsTold(first, peer, email, affected, list[1..], other, x);
      SinceTogether(s, first, AnnounceTo(s, peer, email, affected, list), x);
      assert list == [list[0]] + list[1..];
    }
  }

  /** The message tells a listed attendee of a subscription of its own that the change concerns. */
  predicate Concerns(s: State, peers: seq<Attendee>, affected: set<WorkspaceId>, x: Sent) {
    && x.message.AccessChanged?
    && (exists i :: 0 <= i < |peers| && peers[i].peer == x.peer)
    && x.message.workspace in SubscriptionsOf(s.connections, x.peer)
    && (x.message.workspace !in s.directory.workspaces || x.message.workspace in affected)
  }

  lemma {:induction false} AllAreTold(s: State, peers: seq<Attendee>, affected: set<WorkspaceId>, x: Sent)
    requires forall i :: 0 <= i < |peers| ==> peers[i].peer !in s.closed
    requires forall i, j :: 0 <= i < j < |peers| ==> peers[i].peer != peers[j].peer
    requires x.message.AccessChanged?
    ensures OnlyAdds(s, AnnounceAll(s, peers, affected))
    ensures SentSince(s, AnnounceAll(s, peers, affected), x) <==> Concerns(s, peers, affected, x)
    decreases |peers|
  {
    if peers != [] {
      var list := SubscriptionsOf(s.connections, peers[0].peer);
      var first := AnnounceTo(s, peers[0].peer, peers[0].email, affected, list);
      EachIsTold(s, peers[0].peer, peers[0].email, affected, list, x.peer, x);
      AllAreTold(first, peers[1..], affected, x);
      SinceTogether(s, first, AnnounceAll(s, peers, affected), x);
      assert peers == [peers[0]] + peers[1..];
      if x.peer != peers[0].peer {
        if i :| 0 <= i < |peers| && peers[i].peer == x.peer { assert peers[1..][i - 1].peer == x.peer; }
        if i :| 0 <= i < |peers[1..]| && peers[1..][i].peer == x.peer { assert peers[i + 1].peer == x.peer; }
      } else {
        if i :| 0 <= i < |peers[1..]| && peers[1..][i].peer == x.peer { assert peers[i + 1].peer == peers[0].peer; }
      }
    }
  }

  lemma {:induction false} OpenOf(cs: seq<Connection>, closed: set<Peer>, email: string, peer: Peer)
    requires Distinct(cs)
    ensures var peers := ConnectionsOf(cs, closed, email);
      && (forall i :: 0 <= i < |peers| ==> peers[i].peer !in closed)
      && (forall i, j :: 0 <= i < j < |peers| ==> peers[i].peer != peers[j].peer)
      && ((exists i :: 0 <= i < |peers| && peers[i].peer == peer)
          <==> exists c :: c in cs && c.peer == peer && peer !in closed && Lower(c.email) == Lower(email))
  {
    if cs != [] {
      var front, last := cs[..|cs| - 1], cs[|cs| - 1];
      OpenOf(front, closed, email, peer);
      OpenOf(front, closed, email, last.peer);
      assert cs == front + [last];
      var peers, before := ConnectionsOf(cs, closed, email), ConnectionsOf(front, closed, email);
      if i :| 0 <= i < |before| && before[i].peer == peer { assert peers[i].peer == peer; }
      if |peers| > |before| { assert peers[|before|].peer == last.peer; }
    }
  }

  /** Each open socket of the user hears of each of its subscriptions that the change concerns, and nobody else does. */
  lemma WhoHearsOfAccess(s: State, email: string, affected: set<WorkspaceId>, peer: Peer, ws: WorkspaceId)
    requires Distinct(s.connections)
    ensures SentSince(s, Announce(s, email, affected), Sent(peer, AccessChanged(ws)))
            <==> (exists c :: c in s.connections && c.peer == peer && peer !in s.closed && SameButCase(c.email, email))
                 && ws in SubscriptionsOf(s.connections, peer) && (ws !in s.directory.workspaces || ws in affected)
  {
    OpenOf(s.connections, s.closed, email, peer);
    AllAreTold(s, ConnectionsOf(s.connections, s.closed, email), affected, Sent(peer, AccessChanged(ws)));
    forall c | c in s.connections ensures Lower(c.email) == Lower(email) <==> SameButCase(c.email, email) {
      CaseIsIgnored(c.email, email);
    }
  }

  predicate IsOpenOf(s: State, peer: Peer, email: string) {
    peer !in s.closed && exists c :: c in s.connections && c.peer == peer && SameButCase(c.email, email)
  }

  /** A role that is set is told of for its workspace, */
  lemma WhoHearsOfRole(s: State, workspace: WorkspaceId, email: string, role: Role, peer: Peer, ws: WorkspaceId)
    requires Distinct(s.connections) && workspace in s.directory.workspaces
    ensures SentSince(s, Step(s, SetRole(workspace, email, role)), Sent(peer, AccessChanged(ws)))
            <==> IsOpenOf(s, peer, email) && ws in SubscriptionsOf(s.connections, peer)
                 && (ws !in s.directory.workspaces || ws == workspace)
  {
    var changed := s.(directory := WithGrant(s.directory, workspace, email, role));
    WhoHearsOfAccess(changed, email, {workspace}, peer, ws);
    SinceBefore(s, changed, Announce(changed, email, {workspace}), Sent(peer, AccessChanged(ws)));
  }

  /** and a change in a team for all the team's workspaces. */
  lemma WhoHearsOfTeam(s: State, team: string, email: string, admin: Option<bool>, peer: Peer, ws: WorkspaceId)
    requires Distinct(s.connections) && team in s.directory.teams
    ensures SentSince(s, Step(s, SetTeamRole(team, email, admin)), Sent(peer, AccessChanged(ws)))
            <==> IsOpenOf(s, peer, email) && ws in SubscriptionsOf(s.connections, peer)
                 && (ws in s.directory.workspaces ==> s.directory.workspaces[ws].teamId == team)
  {
    var changed := s.(directory := WithMember(s.directory, team, email, admin));
    var affected := WorkspacesOf(changed.directory, team);
    WhoHearsOfAccess(changed, email, affected, peer, ws);
    SinceBefore(s, changed, Announce(changed, email, affected), Sent(peer, AccessChanged(ws)));
  }

  lemma SinceBefore(s: State, changed: State, t: State, x: Sent)
    requires s.sent == changed.sent
    ensures SentSince(s, t, x) <==> SentSince(changed, t, x)
  {
  }

  /** A socket that is in and pings is answered; one that authenticates again, or sends no message, is closed. */
  lemma OtherFrames(s: State, peer: Peer, text: Text)
    requires Find(s.connections, peer).Some? && peer !in s.closed && !text.Subscribe? && !text.Unsubscribe?
    ensures Step(s, Received(peer, text))
            == if text.Ping? then s.(sent := s.sent + [Sent(peer, Pong)]) else s.(closed := s.closed + {peer})
  {
  }

  // The end of a session

  /** The open sockets of the session. */
  predicate IsOfSession(s: State, c: Connection, token: string) {
    c in s.connections && c.token == token && c.peer !in s.closed
  }

  lemma {:induction false} DropsAllQuietly(s: State, peer: Peer, list: seq<WorkspaceId>)
    requires Distinct(s.connections)
    ensures var t := DropAll(s, peer, list);
      && OnlyAdds(s, t) && Distinct(t.connections)
      && (forall c :: c in s.connections && c.peer != peer ==> c in t.connections)
      && (forall c :: c in t.connections && c.peer != peer ==> c in s.connections)
    decreases |list|
  {
    if list != [] {
      DropKeepsOthers(s, peer, list[0]);
      DropsAllQuietly(Drop(s, peer, list[0]), peer, list[1..]);
    }
  }

  lemma DropKeepsOthers(s: State, peer: Peer, ws: WorkspaceId)
    requires Distinct(s.connections)
    ensures var t := Drop(s, peer, ws);
      && OnlyAdds(s, t) && Distinct(t.connections)
      && (forall c :: c in s.connections && c.peer != peer ==> c in t.connections)
      && (forall c :: c in t.connections && c.peer != peer ==> c in s.connections)
  {
    SubscribingKeepsOthers(s.connections, peer, Less(SubscriptionsOf(s.connections, peer), ws));
  }

  lemma SubscribingKeepsOthers(cs: seq<Connection>, peer: Peer, list: seq<WorkspaceId>)
    requires Distinct(cs)
    ensures var after := WithSubscriptions(cs, peer, list);
      && Distinct(after)
      && (forall c :: c in cs && c.peer != peer ==> c in after)
      && (forall c :: c in after && c.peer != peer ==> c in cs)
  {
    var after := WithSubscriptions(cs, peer, list);
    forall c | c in cs && c.peer != peer ensures c in after {
      var i :| 0 <= i < |cs| && cs[i] == c;
      assert after[i] == c;
    }
    forall c | c in after && c.peer != peer ensures c in cs {
      var i :| 0 <= i < |after| && after[i] == c;
      assert cs[i] == c;
    }
  }

  /** One socket of a session is told, loses its place, and is closed; no other loses anything. */
  lemma OneEnds(s: State, peer: Peer)
    requires Distinct(s.connections) && peer !in s.closed
    ensures var t := EndOne(s, peer);
      && Distinct(t.connections) && t.closed == s.closed + {peer} && t.directory == s.directory && s.sent <= t.sent
      && SentSince(s, t, Sent(peer, SessionEnded))
      && (forall c :: c in t.connections <==> c in s.connections && c.peer != peer)
  {
    var told := SendOne(s, peer, SessionEnded);
    var list := SubscriptionsOf(s.connections, peer);
    DropsAllQuietly(told, peer, list);
    var left := DropAll(told, peer, list);
    RemovedHolds(left.connections, peer);
    assert told.sent[|s.sent|] == Sent(peer, SessionEnded);
    SinceTogether(s, told, left, Sent(peer, SessionEnded));
    assert told.sent[|s.sent|..] == [Sent(peer, SessionEnded)];
  }

  lemma {:induction false} AllEnd(s: State, peers: seq<Peer>)
    requires Distinct(s.connections)
    requires forall i :: 0 <= i < |peers| ==> peers[i] !in s.closed
    requires forall i, j :: 0 <= i < j < |peers| ==> peers[i] != peers[j]
    ensures var t := EndAll(s, peers);
      && s.sent <= t.sent && t.directory == s.directory
      && (forall p :: p in t.closed <==> p in s.closed || p in peers)
      && (forall p :: p in peers ==> SentSince(s, t, Sent(p, SessionEnded)))
      && (forall c :: c in t.connections <==> c in s.connections && c.peer !in peers)
    decreases |peers|
  {
    if peers != [] {
      var first := EndOne(s, peers[0]);
      OneEnds(s, peers[0]);
      forall i | 0 <= i < |peers[1..]| ensures peers[1..][i] !in first.closed { assert peers[i + 1] != peers[0]; }
      AllEnd(first, peers[1..]);
      assert peers == [peers[0]] + peers[1..];
      forall p | p in peers ensures SentSince(s, EndAll(s, peers), Sent(p, SessionEnded)) {
        SinceTogether(s, first, EndAll(s, peers), Sent(p, SessionEnded));
      }
    }
  }

  lemma {:induction false} PeersOfSession(cs: seq<Connection>, closed: set<Peer>, token: string)
    requires Distinct(cs)
    ensures var peers := SessionPeers(cs, closed, token);
      && (forall i :: 0 <= i < |peers| ==> peers[i] !in closed)
      && (forall i, j :: 0 <= i < j < |peers| ==> peers[i] != peers[j])
      && (forall p :: p in peers <==> exists c :: c in cs && c.peer == p && p !in closed && c.token == token)
  {
    if cs != [] {
      var front, last := cs[..|cs| - 1], cs[|cs| - 1];
      PeersOfSession(front, closed, token);
      assert cs == front + [last];
      var before := SessionPeers(front, closed, token);
      forall i | 0 <= i < |before| ensures before[i] != last.peer { assert before[i] in before; }
    }
  }

  lemma OneSocketPerPeer(s: State, token: string, c: Connection)
    requires Distinct(s.connections) && c in s.connections
    ensures c.peer in SessionPeers(s.connections, s.closed, token) <==> IsOfSession(s, c, token)
  {
    PeersOfSession(s.connections, s.closed, token);
    if c.peer in SessionPeers(s.connections, s.closed, token) {
      var b :| b in s.connections && b.peer == c.peer && b.token == token;
      FindsOnly(s.connections, b);
      FindsOnly(s.connections, c);
    }
  }

  /**
   Ending a session tells each of its open sockets, takes it out and closes it; every other connection stays as it is.
   */
  lemma SessionIsOver(s: State, token: string, revoked: bool, c: Connection)
    requires Distinct(s.connections) && c in s.connections
    ensures var t := Step(s, EndSession(token, revoked));
      && (IsOfSession(s, c, token) ==>
            SentSince(s, t, Sent(c.peer, SessionEnded)) && c.peer in t.closed && c !in t.connections)
      && (!IsOfSession(s, c, token) ==> c in t.connections && (c.peer in t.closed <==> c.peer in s.closed))
  {
    var ended := s.(directory := Step(s, EndSession(token, revoked)).directory);
    var peers := SessionPeers(s.connections, s.closed, token);
    PeersOfSession(s.connections, s.closed, token);
    OneSocketPerPeer(s, token, c);
    EndIsAll(s, token, revoked);
    AllEnd(ended, peers);
  }

  lemma EndIsAll(s: State, token: string, revoked: bool)
    ensures var t := Step(s, EndSession(token, revoked));
      t == EndAll(s.(directory := t.directory), SessionPeers(s.connections, s.closed, token))
  {
  }

  /** A session that is revoked opens no further socket, and every other one still does. */
  lemma RevokedOpensNone(s: State, token: string, revoked: bool, other: string)
    ensures var t := Step(s, EndSession(token, revoked));
      && t.directory.workspaces == s.directory.workspaces && t.directory.teams == s.directory.teams
      && (other in t.directory.sessions <==> other in s.directory.sessions && (other != token || !revoked))
  {
  }
}
