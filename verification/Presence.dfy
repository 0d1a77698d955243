/**
 Live presence (`e2e/helpers/fake-server.ts`, the `/live` hub): what each message, role change and ended session does
 to the hub's connections and which messages it sends. User ids and emails are keys of the user table, which is fixed.
 */
module Presence {
  import opened Wrappers
  import opened Sorting

  type Peer = nat
  type WorkspaceId = string

  datatype Role = Viewer | Editor | Admin
  datatype Source = ServerAdmin | TeamAdmin | Grant | Default
  datatype Access = Access(role: Role, source: Source)

  datatype User = User(id: string, name: string, serverAdmin: bool)
  /** `None` as the default role gives none; `true` in a team's members is a team admin. */
  datatype Workspace = Workspace(teamId: string, defaultRole: Option<Role>, grants: map<string, Role>)
  datatype Directory = Directory(
    workspaces: map<WorkspaceId, Workspace>,
    teams: map<string, map<string, bool>>,
    sessions: map<string, string>)

  datatype Connection = Connection(peer: Peer, token: string, email: string, subscriptions: seq<WorkspaceId>)
  datatype Entry = Entry(id: string, name: string)
  datatype Message =
    | Ready
    | Pong
    | Refused(workspace: WorkspaceId)
    | AccessChanged(workspace: WorkspaceId)
    | SessionEnded
    | Users(workspace: WorkspaceId, users: seq<Entry>)
  datatype Sent = Sent(peer: Peer, message: Message)

  datatype State = State(
    users: map<string, User>,      // by lower-cased email
    directory: Directory,
    connections: seq<Connection>,  // in the order they authenticated
    closed: set<Peer>,
    sent: seq<Sent>)

  datatype Text =
    | Auth(token: string)
    | Ping
    | Subscribe(workspace: WorkspaceId)
    | Unsubscribe(workspace: WorkspaceId)
    | Junk

  datatype Event =
    | Received(peer: Peer, text: Text)
    | SetRole(workspace: WorkspaceId, email: string, role: Role)
    | SetTeamRole(team: string, email: string, admin: Option<bool>)  // `None` removes the member
    | EndSession(token: string, revoked: bool)
    | PeerLost(peer: Peer)
    | Rewritten(directory: Directory)  // a change made through another route, which announces nothing

  // Who may see a workspace

  function LowerChar(c: char): char {
    if 'A' <= c <= 'Z' then (c as int + 32) as char else c
  }

  function Lower(s: string): string {
    seq(|s|, i requires 0 <= i < |s| => LowerChar(s[i]))
  }

  function UserByEmail(users: map<string, User>, email: string): Option<User> {
    if Lower(email) in users then Some(users[Lower(email)]) else None
  }

  function Effective(users: map<string, User>, d: Directory, ws: Workspace, email: string): Option<Access> {
    var user := UserByEmail(users, email);
    if user.Some? && user.value.serverAdmin then Some(Access(Admin, ServerAdmin))
    else if ws.teamId !in d.teams || Lower(email) !in d.teams[ws.teamId] then None
    else if d.teams[ws.teamId][Lower(email)] then Some(Access(Admin, TeamAdmin))
    else if Lower(email) in ws.grants then Some(Access(ws.grants[Lower(email)], Grant))
    else if ws.defaultRole.Some? then Some(Access(ws.defaultRole.value, Default))
    else None
  }

  predicate Allowed(users: map<string, User>, d: Directory, workspace: WorkspaceId, email: string) {
    workspace in d.workspaces && Effective(users, d, d.workspaces[workspace], email).Some?
  }

  // Who is there

  datatype Attendee = Attendee(peer: Peer, email: string)

  predicate Attends(c: Connection, closed: set<Peer>, workspace: WorkspaceId) {
    c.peer !in closed && workspace in c.subscriptions
  }

  /** The open connections subscribed to a workspace, in order. */
  function Subscribers(cs: seq<Connection>, closed: set<Peer>, workspace: WorkspaceId): seq<Attendee> {
    if cs == [] then []
    else
      var c := cs[|cs| - 1];
      Subscribers(cs[..|cs| - 1], closed, workspace)
      + if Attends(c, closed, workspace) then [Attendee(c.peer, c.email)] else []
  }

  /** As setting a key of a JavaScript `Map` does: a known key keeps its place. */
  function Put(entries: seq<Entry>, e: Entry): seq<Entry> {
    if entries == [] then [e]
    else if entries[0].id == e.id then [e] + entries[1..]
    else [entries[0]] + Put(entries[1..], e)
  }

  function Names(users: map<string, User>, attendees: seq<Attendee>): seq<Entry> {
    if attendees == [] then []
    else
      var before := Names(users, attendees[..|attendees| - 1]);
      var user := UserByEmail(users, attendees[|attendees| - 1].email);
      if user.None? then before else Put(before, Entry(user.value.id, user.value.name))
  }

  /** By name, then by id. */
  predicate EntryLess(a: Entry, b: Entry) {
    TextLess(a.name, b.name) || (a.name == b.name && TextLess(a.id, b.id))
  }

  function PresenceIn(users: map<string, User>, attendees: seq<Attendee>): seq<Entry> {
    Sort(EntryLess, Names(users, attendees))
  }

  /** The users of a workspace's subscribers, each once, sorted. */
  function PresenceOf(s: State, workspace: WorkspaceId): seq<Entry> {
    PresenceIn(s.users, Subscribers(s.connections, s.closed, workspace))
  }

  // What is sent

  /** A message to each of these peers that is still open. */
  function Broadcast(peers: seq<Attendee>, closed: set<Peer>, m: Message): seq<Sent> {
    if peers == [] then []
    else
      Broadcast(peers[..|peers| - 1], closed, m)
      + if peers[|peers| - 1].peer in closed then [] else [Sent(peers[|peers| - 1].peer, m)]
  }

  function Send(s: State, peers: seq<Attendee>, m: Message): State {
    s.(sent := s.sent + Broadcast(peers, s.closed, m))
  }

  function SendOne(s: State, peer: Peer, m: Message): State {
    if peer in s.closed then s else s.(sent := s.sent + [Sent(peer, m)])
  }

  /** The last list of a workspace's users that a peer was sent. */
  function Last(sent: seq<Sent>, peer: Peer, workspace: WorkspaceId): Option<seq<Entry>> {
    if sent == [] then None
    else
      var newest := sent[|sent| - 1];
      if newest.peer == peer && newest.message.Users? && newest.message.workspace == workspace
      then Some(newest.message.users)
      else Last(sent[..|sent| - 1], peer, workspace)
  }

  // The hub's steps

  function Find(cs: seq<Connection>, peer: Peer): Option<Connection> {
    if cs == [] then None else if cs[0].peer == peer then Some(cs[0]) else Find(cs[1..], peer)
  }

  function WithSubscriptions(cs: seq<Connection>, peer: Peer, subscriptions: seq<WorkspaceId>): seq<Connection> {
    seq(|cs|, i requires 0 <= i < |cs| =>
      if cs[i].peer == peer then cs[i].(subscriptions := subscriptions) else cs[i])
  }

  function SubscriptionsOf(cs: seq<Connection>, peer: Peer): seq<WorkspaceId> {
    var c := Find(cs, peer);
    if c.None? then [] else c.value.subscriptions
  }

  function Less(list: seq<WorkspaceId>, workspace: WorkspaceId): seq<WorkspaceId> {
    if list == [] then []
    else Less(list[..|list| - 1], workspace) + if list[|list| - 1] == workspace then [] else [list[|list| - 1]]
  }

  /** `after` with its list of users sent to every subscriber, if it differs from the list `before`. */
  function Announced(before: State, after: State, workspace: WorkspaceId): State {
    var users := PresenceOf(after, workspace);
    if users == PresenceOf(before, workspace) then after
    else Send(after, Subscribers(after.connections, after.closed, workspace), Users(workspace, users))
  }

  function Drop(s: State, peer: Peer, workspace: WorkspaceId): State {
    var left := Less(SubscriptionsOf(s.connections, peer), workspace);
    Announced(s, s.(connections := WithSubscriptions(s.connections, peer, left)), workspace)
  }

  function Join(s: State, peer: Peer, workspace: WorkspaceId): State {
    var c := Find(s.connections, peer);
    if c.None? then s
    else if !Allowed(s.users, s.directory, workspace, c.value.email) then SendOne(s, peer, Refused(workspace))
    else if workspace in c.value.subscriptions then s
    else
      var joined := s.(connections := WithSubscriptions(s.connections, peer, c.value.subscriptions + [workspace]));
      var users := PresenceOf(joined, workspace);
      if users == PresenceOf(s, workspace) then SendOne(joined, peer, Users(workspace, users))
      else Send(joined, Subscribers(joined.connections, joined.closed, workspace), Users(workspace, users))
  }

  /** Whether a subscription is one the announcement concerns; an unknown workspace always is. */
  predicate Affected(d: Directory, affected: set<WorkspaceId>, workspace: WorkspaceId) {
    workspace !in d.workspaces || workspace in affected
  }

  function AnnounceOne(s: State, peer: Peer, email: string, affected: set<WorkspaceId>, workspace: WorkspaceId): State {
    if !Affected(s.directory, affected, workspace) then s
    else
      var told := SendOne(s, peer, AccessChanged(workspace));
      if Allowed(s.users, s.directory, workspace, email) then told else Drop(told, peer, workspace)
  }

  function AnnounceTo(s: State, peer: Peer, email: string, affected: set<WorkspaceId>,
                      list: seq<WorkspaceId>): (t: State)
    ensures t.users == s.users && t.directory == s.directory && t.closed == s.closed
    decreases |list|
  {
    if list == [] then s
    else AnnounceTo(AnnounceOne(s, peer, email, affected, list[0]), peer, email, affected, list[1..])
  }

  /** The open connections of a user, by email whatever its case. */
  function ConnectionsOf(cs: seq<Connection>, closed: set<Peer>, email: string): seq<Attendee> {
    if cs == [] then []
    else
      var c := cs[|cs| - 1];
      ConnectionsOf(cs[..|cs| - 1], closed, email)
      + if c.peer !in closed && Lower(c.email) == Lower(email) then [Attendee(c.peer, c.email)] else []
  }

  function AnnounceAll(s: State, peers: seq<Attendee>, affected: set<WorkspaceId>): (t: State)
    ensures t.users == s.users && t.directory == s.directory && t.closed == s.closed
    decreases |peers|
  {
    if peers == [] then s
    else
      var list := SubscriptionsOf(s.connections, peers[0].peer);
      var first := AnnounceTo(s, peers[0].peer, peers[0].email, affected, list);
      AnnounceAll(first, peers[1..], affected)
  }

  function Announce(s: State, email: string, affected: set<WorkspaceId>): State {
    AnnounceAll(s, ConnectionsOf(s.connections, s.closed, email), affected)
  }

  function DropAll(s: State, peer: Peer, list: seq<WorkspaceId>): (t: State)
    ensures t.users == s.users && t.directory == s.directory && t.closed == s.closed
    decreases |list|
  {
    if list == [] then s else DropAll(Drop(s, peer, list[0]), peer, list[1..])
  }

  function Removed(cs: seq<Connection>, peer: Peer): seq<Connection> {
    if cs == [] then []
    else Removed(cs[..|cs| - 1], peer) + if cs[|cs| - 1].peer == peer then [] else [cs[|cs| - 1]]
  }

  function EndOne(s: State, peer: Peer): State {
    var left := DropAll(SendOne(s, peer, SessionEnded), peer, SubscriptionsOf(s.connections, peer));
    left.(connections := Removed(left.connections, peer), closed := left.closed + {peer})
  }

  function EndAll(s: State, peers: seq<Peer>): (t: State)
    ensures t.users == s.users && t.directory == s.directory
    decreases |peers|
  {
    if peers == [] then s else EndAll(EndOne(s, peers[0]), peers[1..])
  }

  /** The open connections of a session. */
  function SessionPeers(cs: seq<Connection>, closed: set<Peer>, token: string): seq<Peer> {
    if cs == [] then []
    else
      var c := cs[|cs| - 1];
      SessionPeers(cs[..|cs| - 1], closed, token) + if c.peer !in closed && c.token == token then [c.peer] else []
  }

  function OnText(s: State, peer: Peer, text: Text): State {
    if Find(s.connections, peer).None? then
      match text
      case Auth(token) =>
        if token !in s.directory.sessions then s.(closed := s.closed + {peer})
        else
          var created := Connection(peer, token, s.directory.sessions[token], []);
          SendOne(s.(connections := s.connections + [created]), peer, Ready)
      case _ => s.(closed := s.closed + {peer})
    else
      match text
      case Ping => SendOne(s, peer, Pong)
      case Subscribe(workspace) => Join(s, peer, workspace)
      case Unsubscribe(workspace) => Drop(s, peer, workspace)
      case _ => s.(closed := s.closed + {peer})
  }

  function WithGrant(d: Directory, workspace: WorkspaceId, email: string, role: Role): Directory
    requires workspace in d.workspaces
  {
    var ws := d.workspaces[workspace];
    d.(workspaces := d.workspaces[workspace := ws.(grants := ws.grants[Lower(email) := role])])
  }

  function WithMember(d: Directory, team: string, email: string, admin: Option<bool>): Directory
    requires team in d.teams
  {
    var members := d.teams[team];
    d.(teams := d.teams[team := if admin.None? then members - {Lower(email)} else members[Lower(email) := admin.value]])
  }

  function WorkspacesOf(d: Directory, team: string): set<WorkspaceId> {
    set workspace | workspace in d.workspaces && d.workspaces[workspace].teamId == team
  }

  function Step(s: State, e: Event): State {
    match e
    case Received(peer, text) => OnText(s, peer, text)
    case SetRole(workspace, email, role) =>
      if workspace !in s.directory.workspaces then s
      else Announce(s.(directory := WithGrant(s.directory, workspace, email, role)), email, {workspace})
    case SetTeamRole(team, email, admin) =>
      if team !in s.directory.teams then s
      else
        var d := WithMember(s.directory, team, email, admin);
        Announce(s.(directory := d), email, WorkspacesOf(d, team))
    case EndSession(token, revoked) =>
      var d := if revoked then s.directory.(sessions := s.directory.sessions - {token}) else s.directory;
      EndAll(s.(directory := d), SessionPeers(s.connections, s.closed, token))
    case PeerLost(peer) => s.(closed := s.closed + {peer})
    case Rewritten(directory) => s.(directory := directory)
  }

  function Execute(s: State, es: seq<Event>): State {
    if es == [] then s else Step(Execute(s, es[..|es| - 1]), es[|es| - 1])
  }

  ghost predicate Init(s: State) {
    s.connections == [] && s.sent == []
  }
}
