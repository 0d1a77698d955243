/** The pairings file of `packages/agent/src/pairings.ts` and what a change makes of it. */
module Pairings {
  import opened Wrappers

  datatype Pairing = Pairing(
    pairingId: string, serverUrl: string, origin: string, email: string, sshOptIn: bool, createdAt: string,
    port: Option<nat>)

  datatype File = File(agentId: string, allowedSystemNames: seq<string>, pairings: seq<Pairing>)

  /** What a caller asks to have done to the file; `Identity` carries the agent id to use if it has none. */
  datatype Change =
    | Add(pairing: Pairing)
    | Remove(pairingId: string)
    | SetPort(pairingId: string, port: nat)
    | SetAllowed(names: seq<string>)
    | MakeIdentity(agentId: string)

  datatype Outcome = Refused | Unchanged | Written(file: File)

  predicate Holds(pairings: seq<Pairing>, pairingId: string) {
    exists i :: 0 <= i < |pairings| && pairings[i].pairingId == pairingId
  }

  /** The first pairing with the id. */
  function Find(pairings: seq<Pairing>, pairingId: string): Option<Pairing> {
    if pairings == [] then None
    else if pairings[0].pairingId == pairingId then Some(pairings[0])
    else Find(pairings[1..], pairingId)
  }

  function Without(pairings: seq<Pairing>, pairingId: string): seq<Pairing> {
    if pairings == [] then []
    else if pairings[0].pairingId == pairingId then Without(pairings[1..], pairingId)
    else [pairings[0]] + Without(pairings[1..], pairingId)
  }

  function WithPort(pairings: seq<Pairing>, pairingId: string, port: nat): (r: seq<Pairing>)
    ensures |r| == |pairings|
  {
    seq(|pairings|, i requires 0 <= i < |pairings| =>
      if pairings[i].pairingId == pairingId then pairings[i].(port := Some(port)) else pairings[i])
  }

  /** Duplicates dropped, order kept. */
  function Distinct(names: seq<string>): seq<string> {
    if names == [] then []
    else
      var before := Distinct(names[..|names| - 1]);
      if names[|names| - 1] in before then before else before + [names[|names| - 1]]
  }

  predicate NameStart(c: char) {
    'A' <= c <= 'Z' || 'a' <= c <= 'z' || c == '_'
  }

  /** A plain environment variable name. */
  predicate SystemName(name: string) {
    && 1 <= |name| <= 256 && NameStart(name[0])
    && forall i :: 0 <= i < |name| ==> NameStart(name[i]) || '0' <= name[i] <= '9'
  }

  /** What a change makes of the file as it is; `Refused` is a throw. */
  function Decide(change: Change, now: Option<File>): Outcome {
    match change
    case MakeIdentity(agentId) =>
      if now.None? then Written(File(agentId, [], [])) else Unchanged
    case Add(pairing) =>
      if now.None? then Refused
      else
        var held := Find(now.value.pairings, pairing.pairingId);
        if held.Some? && held.value.serverUrl != pairing.serverUrl then Refused
        else Written(now.value.(pairings := Without(now.value.pairings, pairing.pairingId) + [pairing]))
    case Remove(pairingId) =>
      if now.None? || !Holds(now.value.pairings, pairingId) then Unchanged
      else Written(now.value.(pairings := Without(now.value.pairings, pairingId)))
    case SetPort(pairingId, port) =>
      if now.None? then Refused
      else if !Holds(now.value.pairings, pairingId) then Unchanged
      else Written(now.value.(pairings := WithPort(now.value.pairings, pairingId, port)))
    case SetAllowed(names) =>
      if now.None? then Refused
      else Written(now.value.(allowedSystemNames := Distinct(names)))
  }

  // Pairing ids

  predicate UniqueIds(pairings: seq<Pairing>) {
    forall i, j :: 0 <= i < j < |pairings| ==> pairings[i].pairingId != pairings[j].pairingId
  }

  /** An id both lists hold is at the same server in both. */
  ghost predicate SameServers(before: seq<Pairing>, after: seq<Pairing>) {
    forall i, j :: 0 <= i < |before| && 0 <= j < |after| && before[i].pairingId == after[j].pairingId
                   ==> before[i].serverUrl == after[j].serverUrl
  }

  lemma {:induction false} WithoutDrops(pairings: seq<Pairing>, id: string)
    requires UniqueIds(pairings)
    ensures UniqueIds(Without(pairings, id))
    ensures forall p :: p in Without(pairings, id) <==> p in pairings && p.pairingId != id
  {
    if pairings != [] {
      assert forall p :: p in pairings <==> p == pairings[0] || p in pairings[1..];
      WithoutDrops(pairings[1..], id);
      var rest := Without(pairings[1..], id);
      forall j | 0 <= j < |rest| ensures rest[j].pairingId != pairings[0].pairingId {
        assert rest[j] in rest;
        var k :| 0 <= k < |pairings[1..]| && pairings[1..][k] == rest[j];
        assert pairings[k + 1] == rest[j];
      }
    }
  }

  lemma {:induction false} FindFinds(pairings: seq<Pairing>, id: string)
    ensures Find(pairings, id).Some? ==>
            Find(pairings, id).value in pairings && Find(pairings, id).value.pairingId == id
    ensures Find(pairings, id).None? ==> forall p :: p in pairings ==> p.pairingId != id
  {
    if pairings != [] { FindFinds(pairings[1..], id); }
  }

  lemma SameElementSameServer(pairings: seq<Pairing>, p: Pairing, q: Pairing)
    requires UniqueIds(pairings) && p in pairings && q in pairings && p.pairingId == q.pairingId
    ensures p == q
  {
  }

  /** Any change keeps ids unique, and one that keeps an id keeps its server: `add` refuses another server's id. */
  lemma ChangesKeepIds(change: Change, now: File)
    requires UniqueIds(now.pairings) && Decide(change, Some(now)).Written?
    ensures UniqueIds(Decide(change, Some(now)).file.pairings)
    ensures SameServers(now.pairings, Decide(change, Some(now)).file.pairings)
  {
    var before, after := now.pairings, Decide(change, Some(now)).file.pairings;
    match change
    case Add(pairing) =>
      WithoutDrops(before, pairing.pairingId);
      FindFinds(before, pairing.pairingId);
      var kept := Without(before, pairing.pairingId);
      forall j | 0 <= j < |kept| ensures kept[j].pairingId != pairing.pairingId { assert kept[j] in kept; }
      forall i, j | 0 <= i < |before| && 0 <= j < |after| && before[i].pairingId == after[j].pairingId
        ensures before[i].serverUrl == after[j].serverUrl
      {
        var held := Find(before, pairing.pairingId);
        if j < |kept| {
          assert kept[j] in kept;
          SameElementSameServer(before, before[i], kept[j]);
        } else {
          SameElementSameServer(before, before[i], held.value);
        }
      }
    case Remove(id) =>
      WithoutDrops(before, id);
      forall i, j | 0 <= i < |before| && 0 <= j < |after| && before[i].pairingId == after[j].pairingId
        ensures before[i].serverUrl == after[j].serverUrl
      {
        assert after[j] in after;
        SameElementSameServer(before, before[i], after[j]);
      }
    case SetPort(id, port) =>
    case SetAllowed(_) =>
    case MakeIdentity(_) =>
  }
}
