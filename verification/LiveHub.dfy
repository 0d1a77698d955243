/**
 The `/live` hub as it runs (`e2e/helpers/fake-server.ts`): one object whose handlers update its connections and send
 messages in loops, each handler proved to take exactly the step of `Presence` that its event names.
 */
module LiveHub {
  import opened Wrappers
  import opened Sorting
  import opened Presence

  class Hub {
    const users: map<string, User>
    var directory: Directory
    var connections: seq<Connection>
    var closed: set<Peer>
    var sent: seq<Sent>

    function Model(): State
      reads this
    {
      State(users, directory, connections, closed, sent)
    }

    constructor (users: map<string, User>, directory: Directory)
      ensures Init(Model()) && this.users == users && this.directory == directory && closed == {}
    {
      this.users, this.directory := users, directory;
      connections, closed, sent := [], {}, [];
    }

    method SubscribersOf(workspace: WorkspaceId) returns (found: seq<Attendee>)
      ensures found == Subscribers(connections, closed, workspace)
    {
      found := [];
      for i := 0 to |connections|
        invariant found == Subscribers(connections[..i], closed, workspace)
      {
        assert connections[..i + 1][..i] == connections[..i];
        var c := connections[i];
        if c.peer !in closed && workspace in c.subscriptions {
          found := found + [Attendee(c.peer, c.email)];
        }
      }
      assert connections[..|connections|] == connections;
    }

    method UsersOf(workspace: WorkspaceId) returns (list: seq<Entry>)
      ensures list == PresenceOf(Model(), workspace)
    {
      var attendees := SubscribersOf(workspace);
      var names: seq<Entry> := [];
      for i := 0 to |attendees|
        invariant names == Names(users, attendees[..i])
      {
        assert attendees[..i + 1][..i] == attendees[..i];
        var user := UserByEmail(users, attendees[i].email);
        if user.Some? {
          names := Put(names, Entry(user.value.id, user.value.name));
        }
      }
      assert attendees[..|attendees|] == attendees;
      list := Sort(EntryLess, names);
    }

    method SendTo(peers: seq<Attendee>, m: Message)
      modifies this`sent
      ensures Model() == Send(old(Model()), peers, m)
    {
      ghost var before := sent;
      for i := 0 to |peers|
        invariant sent == before + Broadcast(peers[..i], closed, m)
      {
        assert peers[..i + 1][..i] == peers[..i];
        if peers[i].peer !in closed {
          sent := sent + [Sent(peers[i].peer, m)];
        }
      }
      assert peers[..|peers|] == peers;
    }

    method Tell(peer: Peer, m: Message)
      modifies this`sent
      ensures Model() == SendOne(old(Model()), peer, m)
    {
      if peer !in closed {
        sent := sent + [Sent(peer, m)];
      }
    }

    /** `changePresence` around a deletion: the subscribers hear of it only if the list of users changed. */
    method Unsubscribe(peer: Peer, workspace: WorkspaceId)
      modifies this`connections, this`sent
      ensures Model() == Drop(old(Model()), peer, workspace)
    {
      var before := UsersOf(workspace);
      var left := Less(SubscriptionsOf(connections, peer), workspace);
      connections := WithSubscriptions(connections, peer, left);
      var list := UsersOf(workspace);
      if list != before {
        var to := SubscribersOf(workspace);
        SendTo(to, Users(workspace, list));
      }
    }

    /** The new subscriber always hears who is here, the others only if the list of users changed. */
    method Subscribe(peer: Peer, workspace: WorkspaceId)
      modifies this`connections, this`sent
      ensures Model() == Join(old(Model()), peer, workspace)
    {
      var c := Find(connections, peer);
      if c.None? {
        return;
      }
      if !Allowed(users, directory, workspace, c.value.email) {
        Tell(peer, Refused(workspace));
        return;
      }
      if workspace in c.value.subscriptions {
        return;
      }
      var before := UsersOf(workspace);
      connections := WithSubscriptions(connections, peer, c.value.subscriptions + [workspace]);
      var list := UsersOf(workspace);
      if list == before {
        Tell(peer, Users(workspace, list));
      } else {
        var to := SubscribersOf(workspace);
        SendTo(to, Users(workspace, list));
      }
    }

    method AnnounceAccessTo(peer: Peer, email: string, affected: set<WorkspaceId>)
      modifies this`connections, this`sent
      ensures Model() == AnnounceTo(old(Model()), peer, email, affected, SubscriptionsOf(old(connections), peer))
    {
      ghost var start := Model();
      var list := SubscriptionsOf(connections, peer);
      for i := 0 to |list|
        invariant Model().users == start.users && Model().directory == start.directory && Model().closed == start.closed
        invariant AnnounceTo(Model(), peer, email, affected, list[i..])
                  == AnnounceTo(start, peer, email, affected, list)
      {
        ghost var now := Model();
        assert list[i..][0] == list[i] && list[i..][1..] == list[i + 1..];
        if Affected(directory, affected, list[i]) {
          Tell(peer, AccessChanged(list[i]));
          if !Allowed(users, directory, list[i], email) {
            Unsubscribe(peer, list[i]);
          }
        }
        assert Model() == AnnounceOne(now, peer, email, affected, list[i]);
      }
    }

    /** `access` to each of a user's affected subscriptions; one left with no role is dropped. */
    method AnnounceAccess(email: string, affected: set<WorkspaceId>)
      modifies this`connections, this`sent
      ensures Model() == Announce(old(Model()), email, affected)
    {
      ghost var start := Model();
      var peers := ConnectionsOf(connections, closed, email);
      for i := 0 to |peers|
        invariant AnnounceAll(Model(), peers[i..], affected) == AnnounceAll(start, peers, affected)
      {
        assert peers[i..][0] == peers[i] && peers[i..][1..] == peers[i + 1..];
        AnnounceAccessTo(peers[i].peer, peers[i].email, affected);
      }
    }

    method EndConnection(peer: Peer)
      modifies this`connections, this`sent, this`closed
      ensures Model() == EndOne(old(Model()), peer)
    {
      Tell(peer, SessionEnded);
      ghost var start := Model();
      var list := SubscriptionsOf(connections, peer);
      for i := 0 to |list|
        invariant DropAll(Model(), peer, list[i..]) == DropAll(start, peer, list)
      {
        assert list[i..][0] == list[i] && list[i..][1..] == list[i + 1..];
        Unsubscribe(peer, list[i]);
      }
      connections := Removed(connections, peer);
      closed := closed + {peer};
    }

    method EndConnections(peers: seq<Peer>)
      modifies this`connections, this`sent, this`closed
      ensures Model() == EndAll(old(Model()), peers)
    {
      ghost var start := Model();
      for i := 0 to |peers|
        invariant EndAll(Model(), peers[i..]) == EndAll(start, peers)
      {
        assert peers[i..][0] == peers[i] && peers[i..][1..] == peers[i + 1..];
        EndConnection(peers[i]);
      }
    }

    /** Ends every open socket of a session; `revoked` also forgets the session. */
    method EndSession(token: string, revoked: bool) returns (ended: nat)
      modifies this
      ensures Model() == Step(old(Model()), Event.EndSession(token, revoked))
      ensures ended == |SessionPeers(old(connections), old(closed), token)|
    {
      if revoked {
        directory := directory.(sessions := directory.sessions - {token});
      }
      var peers := SessionPeers(connections, closed, token);
      EndConnections(peers);
      ended := |peers|;
    }

    method Receive(peer: Peer, text: Text)
      modifies this
      ensures Model() == Step(old(Model()), Received(peer, text))
    {
      var c := Find(connections, peer);
      if text.Junk? {
        closed := closed + {peer};
      } else if c.None? {
        if !text.Auth? || text.token !in directory.sessions {
          closed := closed + {peer};
          return;
        }
        connections := connections + [Connection(peer, text.token, directory.sessions[text.token], [])];
        Tell(peer, Ready);
      } else {
        match text
        case Auth(_) => closed := closed + {peer};
        case Ping => Tell(peer, Pong);
        case Subscribe(workspace) => Subscribe(peer, workspace);
        case Unsubscribe(workspace) => Unsubscribe(peer, workspace);
      }
    }

    method ChangeRole(workspace: WorkspaceId, email: string, role: Role)
      modifies this
      ensures Model() == Step(old(Model()), SetRole(workspace, email, role))
    {
      if workspace in directory.workspaces {
        directory := WithGrant(directory, workspace, email, role);
        AnnounceAccess(email, {workspace});
      }
    }

    method ChangeTeamRole(team: string, email: string, admin: Option<bool>)
      modifies this
      ensures Model() == Step(old(Model()), SetTeamRole(team, email, admin))
    {
      if team in directory.teams {
        directory := WithMember(directory, team, email, admin);
        AnnounceAccess(email, WorkspacesOf(directory, team));
      }
    }
  }
}
