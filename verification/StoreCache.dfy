/**
 One process's side of the pairing store as it runs (`packages/agent/src/pairings.ts`): the cache that its reloads and
 changes update between two `await`s, each proved to be the steps `PairingStore` takes.
 */
module StoreCache {
  import opened Wrappers
  import opened Pairings
  import opened PairingChanges
  import opened PairingStore

  /** What reading the file came to. */
  datatype Read = Text(file: Option<File>) | Unreadable

  /** What writing the temporary file and renaming it came to; a file that landed has a new stamp. */
  datatype Write = Landed(stamp: nat) | Lost

  /** The steps of a reload without the lock: the stamp, then the file if need be. */
  function QuietSteps(proc: Proc, now: nat, read: Read): Proc {
    var stat := OnQuietStat(proc, now);
    if !stat.at.QuietRead? then stat
    else if read.Text? then OnQuietRead(stat, now, read.file)
    else OnThrow(stat)
  }

  /** The steps under the lock: the stamp, the file if need be, and the rename if there is one. */
  function LockedSteps(proc: Proc, now: nat, read: Read, write: Write): Proc {
    var stat := OnLockedStat(proc, now);
    var begun :=
      if !stat.at.LockedRead? then stat
      else if read.Text? then OnLockedRead(stat, now, read.file)
      else OnThrow(stat);
    if !begun.at.Renaming? then begun
    else if write.Lost? then OnThrow(begun)
    else OnRestamp(OnRename(begun, begun.at.change, begun.at.next), begun.at.change, write.stamp)
  }

  class Store {
    var file: Option<File>
    var identity: Option<string>
    var stamp: nat
    var failedStamp: Option<nat>

    function Cached(): Cache
      reads this
    {
      Cache(file, identity, stamp, failedStamp)
    }

    constructor ()
      ensures Cached() == Cache(None, None, 0, None)
    {
      file, identity, stamp, failedStamp := None, None, 0, None;
    }

    /** Takes what was read as the file; another agent's file, or none, replaces the identity. */
    method AdoptFile(next: Option<File>)
      modifies this`file, this`identity
      ensures file == next && identity == if next.None? then None else Some(next.value.agentId)
    {
      if next.None? {
        identity := None;
      } else if identity.None? || identity.value != next.value.agentId {
        identity := Some(next.value.agentId);
      }
      file := next;
    }

    /** Reads the file if its stamp moved; a quiet reload does not report one failure twice. */
    method Reload(quiet: bool, now: nat, read: Read) returns (failed: bool)
      modifies this
      ensures var skipped := now == old(stamp) || (quiet && old(failedStamp) == Some(now));
        && (skipped ==> Cached() == old(Cached()))
        && (!skipped && read.Text? ==> Cached() == Adopt(old(Cached()), read.file, now))
        && (!skipped && read.Unreadable? ==> Cached() == old(Cached()).(failed := Some(now)))
        && failed == (!skipped && read.Unreadable?)
    {
      if now == stamp {
        return false;
      }
      if quiet && failedStamp == Some(now) {
        return false;
      }
      if read.Unreadable? {
        failedStamp := Some(now);
        return true;
      }
      AdoptFile(read.file);
      failedStamp := None;
      stamp := now;
      failed := false;
    }

    /** A refresh, or the look at the file that `identity()` begins with: the machine's reload, to its end. */
    method Refresh(ghost proc: Proc, now: nat, read: Read) returns (failed: bool)
      requires proc.at.QuietStat? && proc.cache == Cached()
      modifies this
      ensures QuietSteps(proc, now, read) == Settle(proc.(cache := Cached()), if failed then Failed else Done)
    {
      failed := Reload(true, now, read);
    }

    /** Renames a file into place and reads its stamp. */
    method WriteFile(next: File, write: Write) returns (written: bool)
      modifies this`file, this`stamp
      ensures written == write.Landed?
      ensures if written then file == Some(next) && stamp == write.stamp else file == old(file) && stamp == old(stamp)
    {
      if write.Lost? {
        return false;
      }
      file := Some(next);
      stamp := write.stamp;
      written := true;
    }

    /** One change under the lock, from taking it to giving it back: the machine's steps, and their answer. */
    method Modify(ghost proc: Proc, change: Change, now: nat, read: Read, write: Write) returns (answer: Answer)
      requires proc.at.LockedStat? && proc.job.task == Task.Modify(change)
               && !change.MakeIdentity? && proc.cache == Cached()
      modifies this
      ensures LockedSteps(proc, now, read, write) == proc.(cache := Cached(), at := Unlocking(answer))
    {
      var failed := Reload(false, now, read);
      if failed {
        return Failed;
      }
      var outcome := Make(change);
      if !outcome.Written? {
        return if outcome.Refused? then Failed else Done;
      }
      var written := WriteFile(outcome.file, write);
      answer := if written then Done else Failed;
    }

    /** Making the identity under the lock, unless the file turns out to have one. */
    method MakeIdentity(ghost proc: Proc, agentId: string, now: nat, read: Read, write: Write) returns (answer: Answer)
      requires proc.at.LockedStat? && proc.job.task == MakeId(agentId) && proc.cache == Cached()
      modifies this
      ensures LockedSteps(proc, now, read, write) == proc.(cache := Cached(), at := Unlocking(answer))
    {
      var failed := Reload(false, now, read);
      if failed {
        return Failed;
      }
      if identity.Some? {
        return Got(identity.value);
      }
      var written := WriteFile(File(agentId, [], []), write);
      if !written {
        return Failed;
      }
      identity := Some(agentId);
      answer := Got(agentId);
    }

    /** What a change makes of the file as it is cached. */
    method Make(change: Change) returns (outcome: Outcome)
      ensures outcome == Decide(change, file)
    {
      match change
      case MakeIdentity(agentId) =>
        outcome := if file.None? then Written(File(agentId, [], [])) else Unchanged;
      case Add(pairing) =>
        if file.None? {
          return Refused;
        }
        var held := Lookup(file.value.pairings, pairing.pairingId);
        if held.Some? && held.value.serverUrl != pairing.serverUrl {
          return Refused;
        }
        var kept := Filter(file.value.pairings, pairing.pairingId);
        outcome := Written(file.value.(pairings := kept + [pairing]));
      case Remove(pairingId) =>
        if file.None? {
          return Unchanged;
        }
        var held := Lookup(file.value.pairings, pairingId);
        HeldIsFound(file.value.pairings, pairingId);
        if held.None? {
          return Unchanged;
        }
        var kept := Filter(file.value.pairings, pairingId);
        outcome := Written(file.value.(pairings := kept));
      case SetPort(pairingId, port) =>
        if file.None? {
          return Refused;
        }
        var held := Lookup(file.value.pairings, pairingId);
        HeldIsFound(file.value.pairings, pairingId);
        if held.None? {
          return Unchanged;
        }
        var ported := SetPorts(file.value.pairings, pairingId, port);
        outcome := Written(file.value.(pairings := ported));
      case SetAllowed(names) =>
        if file.None? {
          return Refused;
        }
        var allowed := Unique(names);
        outcome := Written(file.value.(allowedSystemNames := allowed));
    }
  }

  method Lookup(pairings: seq<Pairing>, id: string) returns (found: Option<Pairing>)
    ensures found == Find(pairings, id)
  {
    var i := 0;
    while i < |pairings|
      invariant i <= |pairings| && Find(pairings, id) == Find(pairings[i..], id)
    {
      if pairings[i].pairingId == id {
        return Some(pairings[i]);
      }
      i := i + 1;
    }
    found := None;
  }

  lemma {:induction false} WithoutNext(pairings: seq<Pairing>, last: Pairing, id: string)
    ensures Without(pairings + [last], id) == Without(pairings, id) + if last.pairingId == id then [] else [last]
  {
    if pairings == [] {
      assert pairings + [last] == [last];
    } else {
      WithoutNext(pairings[1..], last, id);
      assert (pairings + [last])[1..] == pairings[1..] + [last];
    }
  }

  method Filter(pairings: seq<Pairing>, id: string) returns (kept: seq<Pairing>)
    ensures kept == Without(pairings, id)
  {
    kept := [];
    for i := 0 to |pairings|
      invariant kept == Without(pairings[..i], id)
    {
      WithoutNext(pairings[..i], pairings[i], id);
      assert pairings[..i] + [pairings[i]] == pairings[..i + 1];
      if pairings[i].pairingId != id {
        kept := kept + [pairings[i]];
      }
    }
    assert pairings[..|pairings|] == pairings;
  }

  method SetPorts(pairings: seq<Pairing>, id: string, port: nat) returns (ported: seq<Pairing>)
    ensures ported == WithPort(pairings, id, port)
  {
    ported := [];
    for i := 0 to |pairings|
      invariant |ported| == i && forall j :: 0 <= j < i ==> ported[j] == WithPort(pairings, id, port)[j]
    {
      var one := pairings[i];
      ported := ported + [if one.pairingId == id then one.(port := Some(port)) else one];
    }
  }

  /** Whether a list of allowed names is refused before it is queued. */
  method SomeBadName(names: seq<string>) returns (bad: bool)
    ensures bad <==> !Offered(Task.Modify(SetAllowed(names)))
  {
    for i := 0 to |names|
      invariant forall j :: 0 <= j < i ==> SystemName(names[j])
    {
      if !SystemName(names[i]) {
        return true;
      }
    }
    bad := false;
  }

  method Unique(names: seq<string>) returns (unique: seq<string>)
    ensures unique == Distinct(names)
  {
    unique := [];
    for i := 0 to |names|
      invariant unique == Distinct(names[..i])
    {
      assert names[..i + 1][..i] == names[..i];
      if names[i] !in unique {
        unique := unique + [names[i]];
      }
    }
    assert names[..|names|] == names;
  }
}
