/** What each change of the pairings file does to it, said of what is found in it afterwards. */
module PairingChanges {
  import opened Wrappers
  import opened Pairings

  /** Apart from this id, everything is found as it was. */
  ghost predicate OthersFound(before: seq<Pairing>, after: seq<Pairing>, pairingId: string) {
    forall id :: id != pairingId ==> Find(after, id) == Find(before, id)
  }

  /** The agent's own id and the names it allows are as they were. */
  predicate SameAgent(before: File, after: File) {
    after.agentId == before.agentId && after.allowedSystemNames == before.allowedSystemNames
  }

  lemma {:induction false} FindWithout(pairings: seq<Pairing>, dropped: string, id: string)
    ensures Find(Without(pairings, dropped), id) == if id == dropped then None else Find(pairings, id)
  {
    if pairings != [] {
      FindWithout(pairings[1..], dropped, id);
      if pairings[0].pairingId != dropped {
        assert ([pairings[0]] + Without(pairings[1..], dropped))[1..] == Without(pairings[1..], dropped);
      }
    }
  }

  lemma {:induction false} FindAppended(pairings: seq<Pairing>, last: Pairing, id: string)
    ensures Find(pairings + [last], id)
         == if Find(pairings, id).Some? then Find(pairings, id) else if last.pairingId == id then Some(last) else None
  {
    if pairings == [] {
      assert [] + [last] == [last];
    } else {
      FindAppended(pairings[1..], last, id);
      assert (pairings + [last])[1..] == pairings[1..] + [last];
    }
  }

  lemma {:induction false} FindWithPort(pairings: seq<Pairing>, changed: string, port: nat, id: string)
    ensures Find(WithPort(pairings, changed, port), id)
         == if id == changed && Find(pairings, id).Some? then Some(Find(pairings, id).value.(port := Some(port)))
            else Find(pairings, id)
  {
    if pairings != [] {
      FindWithPort(pairings[1..], changed, port, id);
      assert WithPort(pairings, changed, port)[1..] == WithPort(pairings[1..], changed, port);
    }
  }

  lemma {:induction false} HeldIsFound(pairings: seq<Pairing>, id: string)
    ensures Holds(pairings, id) <==> Find(pairings, id).Some?
  {
    if pairings != [] {
      HeldIsFound(pairings[1..], id);
      if i :| 0 <= i < |pairings| && pairings[i].pairingId == id && i > 0 {
        assert pairings[1..][i - 1].pairingId == id;
      }
      if i :| 0 <= i < |pairings[1..]| && pairings[1..][i].pairingId == id { assert pairings[i + 1].pairingId == id; }
    }
  }

  /**
   Adding is refused without a file, or where the id is another server's; otherwise the pairing is found under its id.
   */
  lemma AddTakesEffect(pairing: Pairing, now: Option<File>)
    ensures Decide(Add(pairing), now).Refused?
            <==> now.None? || (Find(now.value.pairings, pairing.pairingId).Some?
                               && Find(now.value.pairings, pairing.pairingId).value.serverUrl != pairing.serverUrl)
    ensures !Decide(Add(pairing), now).Refused? ==>
      && Decide(Add(pairing), now).Written?
      && var after := Decide(Add(pairing), now).file;
      && Find(after.pairings, pairing.pairingId) == Some(pairing)
      && OthersFound(now.value.pairings, after.pairings, pairing.pairingId) && SameAgent(now.value, after)
  {
    if !Decide(Add(pairing), now).Refused? {
      var kept := Without(now.value.pairings, pairing.pairingId);
      forall id ensures Find(kept + [pairing], id)
                     == if id == pairing.pairingId then Some(pairing) else Find(now.value.pairings, id)
      {
        FindWithout(now.value.pairings, pairing.pairingId, id);
        FindAppended(kept, pairing, id);
      }
    }
  }

  /** Removing writes exactly where the id is found, and then it is not found any more. */
  lemma RemoveTakesEffect(pairingId: string, now: Option<File>)
    ensures !Decide(Remove(pairingId), now).Refused?
    ensures Decide(Remove(pairingId), now).Written? <==> now.Some? && Find(now.value.pairings, pairingId).Some?
    ensures Decide(Remove(pairingId), now).Written? ==>
      var after := Decide(Remove(pairingId), now).file;
      && Find(after.pairings, pairingId).None?
      && OthersFound(now.value.pairings, after.pairings, pairingId) && SameAgent(now.value, after)
  {
    if now.Some? {
      HeldIsFound(now.value.pairings, pairingId);
      forall id { FindWithout(now.value.pairings, pairingId, id); }
    }
  }

  /** Setting a port is refused without a file, and writes exactly where the id is found: its port and nothing else. */
  lemma SetPortTakesEffect(pairingId: string, port: nat, now: Option<File>)
    ensures Decide(SetPort(pairingId, port), now).Refused? <==> now.None?
    ensures Decide(SetPort(pairingId, port), now).Written? <==> now.Some? && Find(now.value.pairings, pairingId).Some?
    ensures Decide(SetPort(pairingId, port), now).Written? ==>
      var after := Decide(SetPort(pairingId, port), now).file;
      && Find(after.pairings, pairingId) == Some(Find(now.value.pairings, pairingId).value.(port := Some(port)))
      && OthersFound(now.value.pairings, after.pairings, pairingId) && SameAgent(now.value, after)
  {
    if now.Some? {
      HeldIsFound(now.value.pairings, pairingId);
      forall id { FindWithPort(now.value.pairings, pairingId, port, id); }
    }
  }

  lemma {:induction false} DistinctHolds(names: seq<string>)
    ensures forall name :: name in Distinct(names) <==> name in names
    ensures forall i, j :: 0 <= i < j < |Distinct(names)| ==> Distinct(names)[i] != Distinct(names)[j]
  {
    if names != [] {
      var front, last := names[..|names| - 1], names[|names| - 1];
      DistinctHolds(front);
      assert names == front + [last];
      forall j | 0 <= j < |Distinct(front)| ensures Distinct(front)[j] in Distinct(front) {}
    }
  }

  /** The allowed names become those asked for, each once; the pairings stay. */
  lemma SetAllowedTakesEffect(names: seq<string>, now: Option<File>)
    ensures Decide(SetAllowed(names), now).Refused? <==> now.None?
    ensures now.Some? ==>
      && Decide(SetAllowed(names), now).Written?
      && var after := Decide(SetAllowed(names), now).file;
      && after.agentId == now.value.agentId && after.pairings == now.value.pairings
      && (forall name :: name in after.allowedSystemNames <==> name in names)
      && (forall i, j :: 0 <= i < j < |after.allowedSystemNames| ==>
            after.allowedSystemNames[i] != after.allowedSystemNames[j])
  {
    DistinctHolds(names);
  }

  /** An identity is made where there is no file, with nothing in it yet, and leaves any file as it is. */
  lemma MakeIdentityTakesEffect(agentId: string, now: Option<File>)
    ensures now.None? ==> Decide(MakeIdentity(agentId), now).Written?
                          && Decide(MakeIdentity(agentId), now).file.agentId == agentId
                          && (forall id :: Find(Decide(MakeIdentity(agentId), now).file.pairings, id).None?)
                          && (forall name :: name !in Decide(MakeIdentity(agentId), now).file.allowedSystemNames)
    ensures now.Some? ==> Decide(MakeIdentity(agentId), now).Unchanged?
  {
  }
}
