// The single-use, timed store of OAuth state parameters.
module StateStores {
  import opened Domain

  const STATE_TTL: int := 5 * MINUTE

  type Entries = map<string, Time>

  function Put(entries: Entries, state: string, now: Time): Entries {
    entries[state := now + STATE_TTL]
  }

  // Looks a state up and removes it, whatever the outcome.
  function Take(entries: Entries, state: string, now: Time): (Entries, bool) {
    if state !in entries then (entries, false)
    else (entries - {state}, now < entries[state])
  }

  class StateStore {
    var entries: Entries

    constructor ()
      ensures entries == map[]
    {
      entries := map[];
    }

    method Generate(entropy: Option<string>, now: Time) returns (r: Result<string>)
      modifies this
      ensures entropy.None? ==> r == Err(NoEntropy) && entries == old(entries)
      ensures entropy.Some? ==>
        r == Ok(entropy.value) && entries == old(entries)[entropy.value := now + 300_000_000_000]
    {
      if entropy.None? {
        return Err(NoEntropy);
      }
      var state := entropy.value;
      entries := entries[state := now + STATE_TTL];
      return Ok(state);
    }

    method Validate(state: string, now: Time) returns (ok: bool)
      modifies this
      ensures (entries, ok) == Take(old(entries), state, now)
      ensures ok <==> state in old(entries) && now < old(entries)[state]
      ensures entries == old(entries) - {state}
    {
      if state !in entries {
        return false;
      }
      var exp := entries[state];
      entries := entries - {state};
      return now < exp;
    }
  }

  // The calls made to a store, in the order the mutex let them in.
  datatype Call = Generated(state: string, at: Time) | Validated(state: string, at: Time)

  function EntriesAfter(calls: seq<Call>): Entries {
    if calls == [] then map[]
    else
      var before, last := EntriesAfter(calls[..|calls| - 1]), calls[|calls| - 1];
      if last.Generated? then Put(before, last.state, last.at) else Take(before, last.state, last.at).0
  }

  // Call i generated state, and no later call, of either kind, names it again.
  ghost predicate StillOpen(calls: seq<Call>, i: int, state: string) {
    && 0 <= i < |calls| && calls[i].Generated? && calls[i].state == state
    && forall j :: i < j < |calls| ==> calls[j].state != state
  }

  lemma {:induction false} EntryHistory(calls: seq<Call>, state: string)
    ensures state in EntriesAfter(calls) <==> exists i :: StillOpen(calls, i, state)
    ensures forall i :: StillOpen(calls, i, state) ==>
      state in EntriesAfter(calls) && EntriesAfter(calls)[state] == calls[i].at + STATE_TTL
  {
    if calls != [] {
      var n := |calls| - 1;
      var before, last := calls[..n], calls[n];
      EntryHistory(before, state);
      if last.state == state {
        assert last.Generated? ==> StillOpen(calls, n, state);
        assert forall i :: StillOpen(calls, i, state) ==> i == n;
      } else {
        assert forall i :: StillOpen(calls, i, state) ==> StillOpen(before, i, state);
        assert forall i :: StillOpen(before, i, state) ==> StillOpen(calls, i, state);
      }
    }
  }

  // Validate(state) at t answers true exactly when the state was generated less
  // than five minutes before, and no Validate of it, of any outcome, has come since.
  lemma {:induction false} ValidateTellsHistory(calls: seq<Call>, state: string, t: Time)
    ensures Take(EntriesAfter(calls), state, t).1 <==>
      exists i :: StillOpen(calls, i, state) && t < calls[i].at + 300 * 1_000_000_000
  {
    EntryHistory(calls, state);
  }

  // A validation is never repeated with success unless the state is drawn again.
  lemma SingleUse(calls: seq<Call>, more: seq<Call>, state: string, t: Time, t': Time)
    requires forall c :: c in more && c.Generated? ==> c.state != state
    ensures !Take(EntriesAfter(calls + [Validated(state, t)] + more), state, t').1
  {
    var all := calls + [Validated(state, t)] + more;
    EntryHistory(all, state);
    assert all[|calls|] == Validated(state, t);
    assert forall i :: |calls| < i < |all| ==> all[i] == more[i - |calls| - 1] && all[i] in more;
  }

  // Random states never repeat: no call generates a state that is still stored.
  ghost predicate DistinctDraws(calls: seq<Call>) {
    forall i, j :: 0 <= i < j < |calls| && calls[i].Generated? && calls[j].Generated? ==>
      calls[i].state != calls[j].state
  }

  function CountGenerated(calls: seq<Call>): nat {
    if calls == [] then 0
    else CountGenerated(calls[..|calls| - 1]) + if calls[|calls| - 1].Generated? then 1 else 0
  }

  // Validations that found an entry, in time or not.
  function CountRemoved(calls: seq<Call>): nat {
    if calls == [] then 0
    else
      var before, last := calls[..|calls| - 1], calls[|calls| - 1];
      CountRemoved(before) + if last.Validated? && last.state in EntriesAfter(before) then 1 else 0
  }

  // Entries are conserved: an expired one stays until someone looks it up.
  lemma {:induction false} EntriesAreConserved(calls: seq<Call>)
    requires DistinctDraws(calls)
    ensures |EntriesAfter(calls)| + CountRemoved(calls) == CountGenerated(calls)
  {
    if calls != [] {
      var n := |calls| - 1;
      var before, last := calls[..n], calls[n];
      EntriesAreConserved(before);
      EntryHistory(before, last.state);
      var entries := EntriesAfter(before);
      if last.Generated? {
        assert forall i :: 0 <= i < n && before[i].Generated? ==> calls[i].state != calls[n].state;
        assert last.state !in entries;
      } else if last.state in entries {
        assert (entries - {last.state}).Keys == entries.Keys - {last.state};
        assert |entries.Keys| == |entries| && |(entries - {last.state}).Keys| == |entries - {last.state}|;
      }
    }
  }
}
