/** Runs and inputs at which the code does not do what its comments, or its users, would have it do. */
module Disagreements {
  import opened Wrappers
  import Presence
  import PresenceTheorems
  import Relay
  import RelayTheorems
  import RelayControl
  import Reachability
  import ChangedJobs

  // A list of users that nobody corrects

  ghost predicate HubRun(s: Presence.State, es: seq<Presence.Event>, t: Presence.State) {
    PresenceTheorems.NoneCloses(s, es) && Presence.Execute(s, es) == t
  }

  ghost predicate HubReaches(s: Presence.State, t: Presence.State) {
    exists es :: HubRun(s, es, t)
  }

  lemma HubGoes(s: Presence.State, t: Presence.State, e: Presence.Event, t': Presence.State)
    requires HubReaches(s, t) && PresenceTheorems.Closes(t, e).None? && t' == Presence.Step(t, e)
    ensures HubReaches(s, t')
  {
    var es :| HubRun(s, es, t);
    var more := es + [e];
    assert more[..|more| - 1] == es;
    forall i | 0 <= i < |more| ensures PresenceTheorems.Closes(Presence.Execute(s, more[..i]), more[i]).None? {
      assert i < |es| ==> more[..i] == es[..i];
    }
    assert HubRun(s, more, t');
  }

  /** Two sessions, of two users, and a workspace that both may see. */
  datatype Pair = Pair(first: string, second: string, ws: Presence.WorkspaceId)

  ghost predicate TwoUsers(s: Presence.State, p: Pair) {
    && p.first in s.directory.sessions && p.second in s.directory.sessions && PresenceTheorems.IdsAreUnique(s.users)
    && MaySee(s, p, p.first) && MaySee(s, p, p.second)
    && UserOf(s, p.first) != UserOf(s, p.second)
  }

  predicate MaySee(s: Presence.State, p: Pair, token: string)
    requires token in s.directory.sessions
  {
    Presence.Allowed(s.users, s.directory, p.ws, s.directory.sessions[token]) && UserOf(s, token).Some?
  }

  function UserOf(s: Presence.State, token: string): Option<Presence.User>
    requires token in s.directory.sessions
  {
    Presence.UserByEmail(s.users, s.directory.sessions[token])
  }

  function Socket(s: Presence.State, peer: Presence.Peer, token: string,
                  subscriptions: seq<string>): Presence.Connection
    requires token in s.directory.sessions
  {
    Presence.Connection(peer, token, s.directory.sessions[token], subscriptions)
  }

  /** The hub as it was, but for its connections and what it sent. */
  predicate Differs(s: Presence.State, t: Presence.State, connections: seq<Presence.Connection>) {
    t.users == s.users && t.directory == s.directory && t.closed == s.closed && t.connections == connections
  }

  lemma Comes(s: Presence.State, t: Presence.State, peer: Presence.Peer, token: string)
    requires Presence.Find(t.connections, peer).None? && token in t.directory.sessions
    ensures var u := Presence.Step(t, Presence.Received(peer, Presence.Auth(token)));
      Differs(t, u, t.connections + [Socket(t, peer, token, [])])
    ensures PresenceTheorems.Closes(t, Presence.Received(peer, Presence.Auth(token))).None?
  {
  }

  lemma Subscribes(t: Presence.State, peer: Presence.Peer, ws: Presence.WorkspaceId)
    requires Presence.Find(t.connections, peer).Some? && ws !in Presence.Find(t.connections, peer).value.subscriptions
    requires Presence.Allowed(t.users, t.directory, ws, Presence.Find(t.connections, peer).value.email)
    ensures var list := Presence.SubscriptionsOf(t.connections, peer) + [ws];
      Differs(t, Presence.Step(t, Presence.Received(peer, Presence.Subscribe(ws))),
              Presence.WithSubscriptions(t.connections, peer, list))
    ensures PresenceTheorems.Closes(t, Presence.Received(peer, Presence.Subscribe(ws))).None?
  {
  }

  lemma FindOf(a: Presence.Connection, b: Presence.Connection)
    requires a.peer != b.peer
    ensures Presence.Find([], a.peer).None? && Presence.Find([a], b.peer).None?
    ensures Presence.Find([a, b], a.peer) == Some(a) && Presence.Find([a, b], b.peer) == Some(b)
    ensures forall list :: Presence.WithSubscriptions([a, b], a.peer, list) == [a.(subscriptions := list), b]
    ensures forall list :: Presence.WithSubscriptions([a, b], b.peer, list) == [a, b.(subscriptions := list)]
  {
    assert [a, b][1..] == [b];
  }

  lemma BothCome(s: Presence.State, p: Pair) returns (t: Presence.State)
    requires Presence.Init(s) && TwoUsers(s, p)
    ensures HubReaches(s, t) && Differs(s, t, [Socket(s, 0, p.first, []), Socket(s, 1, p.second, [])])
  {
    var es: seq<Presence.Event> := [];
    assert HubRun(s, es, s);
    FindOf(Socket(s, 0, p.first, []), Socket(s, 1, p.second, []));
    Comes(s, s, 0, p.first);
    var one := Presence.Step(s, Presence.Received(0, Presence.Auth(p.first)));
    HubGoes(s, s, Presence.Received(0, Presence.Auth(p.first)), one);
    Comes(s, one, 1, p.second);
    t := Presence.Step(one, Presence.Received(1, Presence.Auth(p.second)));
    HubGoes(s, one, Presence.Received(1, Presence.Auth(p.second)), t);
  }

  lemma OneSubscribes(s: Presence.State, t: Presence.State, cs: seq<Presence.Connection>, c: Presence.Connection,
                      ws: Presence.WorkspaceId, after: seq<Presence.Connection>) returns (u: Presence.State)
    requires HubReaches(s, t) && Differs(s, t, cs) && Presence.Find(cs, c.peer) == Some(c) && c.subscriptions == []
    requires Presence.Allowed(s.users, s.directory, ws, c.email)
    requires after == Presence.WithSubscriptions(cs, c.peer, [ws])
    ensures HubReaches(s, u) && Differs(s, u, after)
  {
    Subscribes(t, c.peer, ws);
    assert c.subscriptions + [ws] == [ws];
    u := Presence.Step(t, Presence.Received(c.peer, Presence.Subscribe(ws)));
    HubGoes(s, t, Presence.Received(c.peer, Presence.Subscribe(ws)), u);
  }

  lemma BothSubscribe(s: Presence.State, p: Pair, t: Presence.State) returns (u: Presence.State)
    requires TwoUsers(s, p) && HubReaches(s, t)
             && Differs(s, t, [Socket(s, 0, p.first, []), Socket(s, 1, p.second, [])])
    ensures HubReaches(s, u) && Differs(s, u, [Socket(s, 0, p.first, [p.ws]), Socket(s, 1, p.second, [p.ws])])
  {
    var a, b := Socket(s, 0, p.first, []), Socket(s, 1, p.second, []);
    var a', b' := Socket(s, 0, p.first, [p.ws]), Socket(s, 1, p.second, [p.ws]);
    FindOf(a, b);
    FindOf(a', b);
    var one := OneSubscribes(s, t, [a, b], a, p.ws, [a', b]);
    u := OneSubscribes(s, one, [a', b], b, p.ws, [a', b']);
  }

  lemma SubscribersOfTwo(a: Presence.Connection, b: Presence.Connection, closed: set<Presence.Peer>,
                         ws: Presence.WorkspaceId)
    ensures Presence.Subscribers([a, b], closed, ws)
         == (if Presence.Attends(a, closed, ws) then [Presence.Attendee(a.peer, a.email)] else [])
            + (if Presence.Attends(b, closed, ws) then [Presence.Attendee(b.peer, b.email)] else [])
  {
    assert [a, b][..1] == [a] && [a][..0] == [];
    assert Presence.Subscribers([a], closed, ws)
        == Presence.Subscribers([], closed, ws)
           + if Presence.Attends(a, closed, ws) then [Presence.Attendee(a.peer, a.email)] else [];
    assert Presence.Subscribers([a, b], closed, ws)
        == Presence.Subscribers([a], closed, ws)
           + if Presence.Attends(b, closed, ws) then [Presence.Attendee(b.peer, b.email)] else [];
  }

  lemma SecondWasThere(s: Presence.State, p: Pair, u: Presence.State)
    requires TwoUsers(s, p) && s.closed == {}
    requires Differs(s, u, [Socket(s, 0, p.first, [p.ws]), Socket(s, 1, p.second, [p.ws])])
    ensures PresenceTheorems.LeavesUnseen(u, 1)
  {
    var a, b := Socket(s, 0, p.first, [p.ws]), Socket(s, 1, p.second, [p.ws]);
    var e := PresenceTheorems.EntryOf(UserOf(s, p.second).value);
    var t := u.(closed := u.closed + {1});
    SubscribersOfTwo(a, b, u.closed, p.ws);
    SubscribersOfTwo(a, b, t.closed, p.ws);
    var both := Presence.Subscribers(u.connections, u.closed, p.ws);
    assert both == [Presence.Attendee(0, a.email), Presence.Attendee(1, b.email)];
    assert Presence.Subscribers(t.connections, t.closed, p.ws) == [Presence.Attendee(0, a.email)];
    assert PresenceTheorems.IsUser(u.users, both[1].email, e);
    DistinctEntries(s, p);
    assert u.connections[0] in u.connections;
    assert PresenceTheorems.UserThere(u, p.ws, e) && !PresenceTheorems.UserThere(t, p.ws, e);
  }

  lemma DistinctEntries(s: Presence.State, p: Pair)
    requires TwoUsers(s, p)
    ensures PresenceTheorems.EntryOf(UserOf(s, p.first).value) != PresenceTheorems.EntryOf(UserOf(s, p.second).value)
  {
  }

  /** Of two users who see one workspace one loses the only socket: the other's last list still names them both. */
  lemma LostSocketStaysListed(s: Presence.State, p: Pair)
    requires Presence.Init(s) && s.closed == {} && TwoUsers(s, p)
    ensures exists es :: StaleAfter(s, es, Presence.PeerLost(1))
  {
    var t := BothCome(s, p);
    var u := BothSubscribe(s, p, t);
    SecondWasThere(s, p, u);
    LossGoesStale(s, u, Presence.PeerLost(1));
  }

  lemma LossGoesStale(s: Presence.State, u: Presence.State, e: Presence.Event)
    requires Presence.Init(s) && HubReaches(s, u) && PresenceTheorems.IdsAreUnique(u.users)
    requires e.PeerLost? && PresenceTheorems.LeavesUnseen(u, e.peer)
    ensures exists es :: StaleAfter(s, es, e)
  {
    var es :| HubRun(s, es, u);
    PresenceTheorems.ListsStayCurrent(s, es);
    PresenceTheorems.WhenListsGoStale(u, e);
    HubExtends(s, es, e);
    assert StaleAfter(s, es + [e], e);
  }

  /** The run's last event, `e`, leaves a list that is not the list now. */
  ghost predicate StaleAfter(s: Presence.State, es: seq<Presence.Event>, e: Presence.Event) {
    es != [] && es[|es| - 1] == e && !PresenceTheorems.Sound(Presence.Execute(s, es), PresenceTheorems.Exact)
  }

  lemma HubExtends(s: Presence.State, es: seq<Presence.Event>, e: Presence.Event)
    ensures Presence.Execute(s, es + [e]) == Presence.Step(Presence.Execute(s, es), e)
  {
    assert (es + [e])[..|es + [e]| - 1] == es;
  }

  // A newcomer told that nobody holds control

  ghost predicate ShareRun(s: Relay.State, es: seq<Relay.Event>, t: Relay.State) {
    Relay.Execute(s, es) == t && RelayTheorems.ControlKnown(t)
  }

  ghost predicate ShareReaches(s: Relay.State, t: Relay.State) {
    exists es :: ShareRun(s, es, t)
  }

  /** An event that is no join while control is held leaves what the participants know right. */
  lemma ShareGoes(s: Relay.State, t: Relay.State, e: Relay.Event, t': Relay.State)
    requires Relay.Init(s) && ShareReaches(s, t) && t' == Relay.Step(t, e)
    requires !(RelayTheorems.Joins(t.share, e) && t.share.control.Some?)
    ensures ShareReaches(s, t')
  {
    var es :| ShareRun(s, es, t);
    RelayTheorems.SharesStaySound(s, es);
    RelayTheorems.WhenControlIsKnown(t, e);
    ShareExtends(s, es, e);
    assert ShareRun(s, es + [e], t');
  }

  function Comer(account: Relay.Account): Relay.Text {
    Relay.Auth(Some(account), true)
  }

  lemma JoinShares(s: Relay.Share, peer: Relay.Peer, account: Relay.Account)
    requires s.live && peer !in s.gone && peer !in s.joined
    ensures Relay.React(s, Relay.Frame(peer, Comer(account))).share
         == if account.email == s.ownerEmail then s.(owner := Some(peer), joined := s.joined + {peer})
            else s.(viewers := s.viewers + [Relay.Viewer(peer, account.userId, false)], joined := s.joined + {peer})
  {
  }

  /** The owner joins, then a viewer. */
  lemma TwoJoin(s: Relay.State, owner: Relay.Account, viewer: Relay.Account) returns (t: Relay.State)
    requires Relay.Init(s) && s.share.closed == {} == s.share.gone
    requires owner.email == s.share.ownerEmail && viewer.email != s.share.ownerEmail
    ensures ShareReaches(s, t)
    ensures t.share == s.share.(owner := Some(0), joined := {0, 1}, viewers := [Relay.Viewer(1, viewer.userId, false)])
  {
    var es: seq<Relay.Event> := [];
    assert ShareRun(s, es, s);
    JoinShares(s.share, 0, owner);
    var one := Relay.Step(s, Relay.Frame(0, Comer(owner)));
    ShareGoes(s, s, Relay.Frame(0, Comer(owner)), one);
    JoinShares(one.share, 1, viewer);
    t := Relay.Step(one, Relay.Frame(1, Comer(viewer)));
    ShareGoes(s, one, Relay.Frame(1, Comer(viewer)), t);
    assert {} + {0 as nat} + {1 as nat} == {0, 1};
  }

  lemma ViewerGetsControl(s: Relay.State, t: Relay.State, owner: Relay.Peer, i: nat) returns (u: Relay.State)
    requires Relay.Init(s) && ShareReaches(s, t) && t.share.live && t.share.control.None?
    requires t.share.gone == {} && owner in t.share.joined
             && i < |t.share.viewers| && t.share.viewers[i].peer in t.share.joined
    requires forall j :: 0 <= j < i ==> !t.share.viewers[j].requesting
    ensures ShareReaches(s, u) && u.share.control.Some? && u.share.live
    ensures u.share.joined == t.share.joined && u.share.closed == t.share.closed && u.share.gone == t.share.gone
    ensures u.share.ownerEmail == t.share.ownerEmail
  {
    var es :| ShareRun(s, es, t);
    RelayTheorems.SharesStaySound(s, es);
    var v := t.share.viewers[i];
    RelayControl.AskedAndGranted(t.share, i);
    AskedShare(t.share, v.peer);
    var asked := Relay.Step(t, Relay.Frame(v.peer, Relay.RequestControl));
    ShareGoes(s, t, Relay.Frame(v.peer, Relay.RequestControl), asked);
    GrantedShare(asked.share, owner, v.userId);
    u := Relay.Step(asked, Relay.Frame(owner, Relay.Grant(v.userId)));
    ShareGoes(s, asked, Relay.Frame(owner, Relay.Grant(v.userId)), u);
  }

  lemma AskedShare(s: Relay.Share, peer: Relay.Peer)
    requires peer in s.joined && peer !in s.gone && s.control != Some(peer)
    ensures Relay.React(s, Relay.Frame(peer, Relay.RequestControl)).share
            == Relay.OnFrame(s, peer, Relay.RequestControl).share
    ensures Relay.OnFrame(s, peer, Relay.RequestControl).share
            == s.(viewers := Relay.SetRequesting(s.viewers, peer, true))
  {
  }

  lemma GrantedShare(s: Relay.Share, owner: Relay.Peer, userId: string)
    requires owner in s.joined && owner !in s.gone
    ensures var t := Relay.React(s, Relay.Frame(owner, Relay.Grant(userId))).share;
      t == Relay.OnGrant(s, userId).share && t == s.(viewers := t.viewers, control := t.control)
  {
  }

  /** A viewer joins while another holds control, and is told that nobody does. */
  lemma NewcomerIsMisled(s: Relay.State, owner: Relay.Account, viewer: Relay.Account, other: Relay.Account)
    requires Relay.Init(s) && s.share.closed == {} == s.share.gone && owner.email == s.share.ownerEmail
    requires viewer.email != s.share.ownerEmail && other.email != s.share.ownerEmail
    ensures exists es :: MisledAfter(s, es, Relay.Frame(2, Comer(other)))
  {
    var t := TwoJoin(s, owner, viewer);
    var u := ViewerGetsControl(s, t, 0, 0);
    JoinMisleads(s, u, Relay.Frame(2, Comer(other)));
  }

  lemma JoinMisleads(s: Relay.State, u: Relay.State, e: Relay.Event)
    requires Relay.Init(s) && ShareReaches(s, u) && RelayTheorems.Joins(u.share, e)
    requires e.peer !in u.share.closed && u.share.control.Some?
    ensures exists es :: MisledAfter(s, es, e)
  {
    var es :| ShareRun(s, es, u);
    RelayTheorems.SharesStaySound(s, es);
    RelayTheorems.WhenControlIsKnown(u, e);
    ShareExtends(s, es, e);
    assert MisledAfter(s, es + [e], e);
  }

  /** The run's last event, `e`, leaves an open participant with a wrong holder. */
  ghost predicate MisledAfter(s: Relay.State, es: seq<Relay.Event>, e: Relay.Event) {
    es != [] && es[|es| - 1] == e && !RelayTheorems.ControlKnown(Relay.Execute(s, es))
  }

  lemma ShareExtends(s: Relay.State, es: seq<Relay.Event>, e: Relay.Event)
    ensures Relay.Execute(s, es + [e]) == Relay.Step(Relay.Execute(s, es), e)
  {
    assert (es + [e])[..|es + [e]| - 1] == es;
  }

  // A workspace package that no job reaches

  lemma AloneIsUnreached(package: ChangedJobs.Package, job: ChangedJobs.Job)
    requires package.name !in job.roots && package.deps == []
    ensures !ChangedJobs.IsReached(job, [package], 0)
  {
    var graph := ChangedJobs.Graph(ChangedJobs.ByName([package]));
    assert ChangedJobs.ByName([package])
           == ChangedJobs.ByName([])[package.name := package] by { assert [package][..0] == []; }
    assert Reachability.Closed(graph, job.roots, job.roots);
    if ChangedJobs.IsReached(job, [package], 0) {
      Reachability.ClosedHoldsAll(graph, job.roots, job.roots, package.name);
    }
  }

  /** A change to one calls for no job, though the comment says that it calls for every one. */
  lemma UnknownPackageCallsNothing(job: ChangedJobs.Job, package: ChangedJobs.Package, file: string)
    requires package.name !in job.roots && package.deps == [] && ChangedJobs.EndsWith(package.dir, "/")
    requires package.dir <= file && ChangedJobs.IsRelevant(file) && ChangedJobs.IsPlaced(file)
    requires forall i :: 0 <= i < |job.paths| ==> !ChangedJobs.Under(file, job.paths[i])
    ensures !ChangedJobs.IsCalled([file], job, [package])
  {
    AloneIsUnreached(package, job);
    ChangedJobs.WhenFolderChangeCalls(file, job, [package], 0);
  }

  const NEW_PACKAGE := ChangedJobs.Package("@wirebench/new", "packages/new/", [])
  const NEW_FILE := "packages/new/index.ts"

  lemma NewFileIsPlaced()
    ensures NEW_PACKAGE.dir <= NEW_FILE && ChangedJobs.IsPlaced(NEW_FILE) && ChangedJobs.EndsWith(NEW_PACKAGE.dir, "/")
  {
    var rest := NEW_FILE[|"packages/"|..];
    assert rest[0] == 'n' && rest[3] == '/';
  }

  lemma StartsElse(text: string, prefix: string)
    requires text != "" && prefix != "" && text[0] != prefix[0]
    ensures !(prefix <= text)
  {
  }

  lemma EndsElse(text: string, suffix: string)
    requires text != "" && suffix != "" && text[|text| - 1] != suffix[|suffix| - 1]
    ensures !ChangedJobs.EndsWith(text, suffix)
  {
  }

  lemma NewFileIsRelevant()
    ensures ChangedJobs.IsRelevant(NEW_FILE)
  {
    StartsElse(NEW_FILE, "docs/");
    StartsElse(NEW_FILE, "docs-site/");
    StartsElse(NEW_FILE, "site/");
    EndsElse(NEW_FILE, ".md");
    EndsElse(NEW_FILE, ".mdx");
  }

  /** Every job's own paths are elsewhere, and no job starts from that name. */
  lemma NobodyNamesIt(k: nat)
    requires k < |ChangedJobs.JOBS|
    ensures NEW_PACKAGE.name !in ChangedJobs.JOBS[k].roots
    ensures forall i :: 0 <= i < |ChangedJobs.JOBS[k].paths| ==>
            !ChangedJobs.Under(NEW_FILE, ChangedJobs.JOBS[k].paths[i])
  {
    assert NEW_FILE[0] == 'p';
    assert forall i :: 0 <= i < |ChangedJobs.JOBS[k].paths| ==>
             |ChangedJobs.JOBS[k].paths[i]| > 0 && ChangedJobs.JOBS[k].paths[i][0] != 'p';
  }

  /** For one, a new package that no other depends on yet calls for none of CI's jobs. */
  lemma NewPackageCallsNoJob(k: nat)
    requires k < |ChangedJobs.JOBS|
    ensures !ChangedJobs.IsCalled([NEW_FILE], ChangedJobs.JOBS[k], [NEW_PACKAGE])
  {
    NewFileIsPlaced();
    NewFileIsRelevant();
    NobodyNamesIt(k);
    UnknownPackageCallsNothing(ChangedJobs.JOBS[k], NEW_PACKAGE, NEW_FILE);
  }
}
