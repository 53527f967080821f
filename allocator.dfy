/** `createKey`: draw a candidate key from a random UUID, look it up, and
    write the URL under the first candidate whose lookup is falsy, retrying
    with a fresh UUID on every collision. The random source is the sequence
    of UUIDs it would draw, in order; when that sequence runs out before a
    free candidate appears the outcome is `Exhausted`. */
module Allocator {
  import opened Keys
  import opened Kv

  /** JavaScript's `!result` on what `kv.get` returns: `null` and the empty
      string are both falsy. */
  predicate IsFalsy(v: Option<string>) {
    v.None? || v.value == ""
  }

  /** A candidate is taken when its lookup is truthy: present and non-empty. */
  predicate Taken(entries: map<string, string>, key: string) {
    !IsFalsy(Find(entries, key))
  }

  /** The index of the first UUID whose candidate key is not taken. */
  function FirstFree(entries: map<string, string>, uuids: seq<string>): (r: Option<nat>)
    ensures r.Some? ==> r.value < |uuids| && !Taken(entries, KeyOf(uuids[r.value]))
    ensures r.Some? ==> forall j :: 0 <= j < r.value ==> Taken(entries, KeyOf(uuids[j]))
    ensures r.None? <==> forall j :: 0 <= j < |uuids| ==> Taken(entries, KeyOf(uuids[j]))
  {
    if |uuids| == 0 then None
    else if !Taken(entries, KeyOf(uuids[0])) then Some(0)
    else match FirstFree(entries, uuids[1..])
      case None => None
      case Some(i) => Some(i + 1)
  }

  datatype Outcome = Allocated(key: string) | Exhausted

  /** What `createKey` returns for a table and a run of UUIDs. */
  function AllocationOutcome(entries: map<string, string>, uuids: seq<string>): Outcome {
    match FirstFree(entries, uuids)
    case Some(i) => Allocated(KeyOf(uuids[i]))
    case None => Exhausted
  }

  /** The table after `createKey`: one new pair under the allocated key. */
  function AfterAllocation(entries: map<string, string>, uuids: seq<string>, url: string): map<string, string> {
    match AllocationOutcome(entries, uuids)
    case Allocated(k) => entries[k := url]
    case Exhausted => entries
  }

  /** One `kv.get` per UUID, under that UUID's candidate key. */
  function Lookups(uuids: seq<string>): (r: seq<Call>)
    ensures |r| == |uuids|
    ensures forall j :: 0 <= j < |uuids| ==> r[j] == GetCall(KeyOf(uuids[j]))
  {
    if uuids == [] then [] else Lookups(uuids[..|uuids| - 1]) + [GetCall(KeyOf(uuids[|uuids| - 1]))]
  }

  /** Drawing one more UUID adds one lookup at the end. */
  lemma LookupsExtend(uuids: seq<string>, i: nat)
    requires i < |uuids|
    ensures Lookups(uuids[..i + 1]) == Lookups(uuids[..i]) + [GetCall(KeyOf(uuids[i]))]
  {
    assert uuids[..i + 1][..i] == uuids[..i];
  }

  /** The calls `createKey` makes: lookups up to and including the first free
      candidate, then a single `kv.put` under it; only lookups when exhausted. */
  function AllocationCalls(entries: map<string, string>, uuids: seq<string>, url: string): seq<Call> {
    match FirstFree(entries, uuids)
    case Some(i) => Lookups(uuids[..i + 1]) + [PutCall(KeyOf(uuids[i]), url)]
    case None => Lookups(uuids)
  }

  /** `createKey(kv, url)` with the recursion on a collision written as a loop
      over the UUIDs it would draw. */
  method CreateKey(kv: Namespace, url: string, uuids: seq<string>) returns (outcome: Outcome)
    modifies kv
    ensures outcome == AllocationOutcome(old(kv.entries), uuids)
    ensures kv.entries == AfterAllocation(old(kv.entries), uuids, url)
    ensures kv.calls == old(kv.calls) + AllocationCalls(old(kv.entries), uuids, url)
  {
    ghost var entries, calls := kv.entries, kv.calls;
    var i := 0;
    while i < |uuids|
      invariant 0 <= i <= |uuids|
      invariant kv.entries == entries
      invariant forall j :: 0 <= j < i ==> Taken(entries, KeyOf(uuids[j]))
      invariant kv.calls == calls + Lookups(uuids[..i])
    {
      var key := KeyOf(uuids[i]);
      var result := kv.Get(key);
      assert IsFalsy(result) == !Taken(entries, key);
      LookupsExtend(uuids, i);
      assert kv.calls == calls + Lookups(uuids[..i + 1]);
      if IsFalsy(result) {
        CollisionRetry(entries, uuids, url, i);
        kv.Put(key, url);
        assert kv.calls == calls + AllocationCalls(entries, uuids, url);
        return Allocated(key);
      }
      i := i + 1;
    }
    AllTakenExhausts(entries, uuids, url);
    return Exhausted;
  }

  /** `createKey` never returns a taken candidate, and the one it returns is
      the first free one among those it drew. */
  lemma AllocatedKeyWasFree(entries: map<string, string>, uuids: seq<string>)
    ensures AllocationOutcome(entries, uuids).Allocated? ==>
      exists i :: 0 <= i < |uuids| && AllocationOutcome(entries, uuids).key == KeyOf(uuids[i])
                  && !Taken(entries, KeyOf(uuids[i]))
                  && forall j :: 0 <= j < i ==> Taken(entries, KeyOf(uuids[j]))
    ensures AllocationOutcome(entries, uuids).Exhausted? <==>
      forall j :: 0 <= j < |uuids| ==> Taken(entries, KeyOf(uuids[j]))
  {
  }

  /** The write never replaces a non-empty URL, and it touches no key but the
      allocated one, which then holds `url`. */
  lemma NoOverwriteAndFrame(entries: map<string, string>, uuids: seq<string>, url: string)
    ensures forall k :: Taken(entries, k) ==>
      k in AfterAllocation(entries, uuids, url) && AfterAllocation(entries, uuids, url)[k] == entries[k]
    ensures AllocationOutcome(entries, uuids).Allocated? ==>
      var k := AllocationOutcome(entries, uuids).key;
      && AfterAllocation(entries, uuids, url) == entries[k := url]
      && !Taken(entries, k)
    ensures AllocationOutcome(entries, uuids).Exhausted? ==> AfterAllocation(entries, uuids, url) == entries
  {
  }

  /** The first free candidate is found by walking past the taken ones: a
      corollary of `FirstFree`'s contract, comparing its index with K. */
  lemma FirstFreeAt(entries: map<string, string>, uuids: seq<string>, K: nat)
    requires K < |uuids|
    requires forall j :: 0 <= j < K ==> Taken(entries, KeyOf(uuids[j]))
    requires !Taken(entries, KeyOf(uuids[K]))
    ensures FirstFree(entries, uuids) == Some(K)
  {
  }

  /** With candidates 0..K-1 taken and candidate K free, `createKey` makes
      K + 1 lookups, then writes under candidate K and returns it. */
  lemma CollisionRetry(entries: map<string, string>, uuids: seq<string>, url: string, K: nat)
    requires K < |uuids|
    requires forall j :: 0 <= j < K ==> Taken(entries, KeyOf(uuids[j]))
    requires !Taken(entries, KeyOf(uuids[K]))
    ensures AllocationOutcome(entries, uuids) == Allocated(KeyOf(uuids[K]))
    ensures AllocationCalls(entries, uuids, url) == Lookups(uuids[..K + 1]) + [PutCall(KeyOf(uuids[K]), url)]
    ensures |AllocationCalls(entries, uuids, url)| == K + 2
    ensures AfterAllocation(entries, uuids, url) == entries[KeyOf(uuids[K]) := url]
  {
    FirstFreeAt(entries, uuids, K);
  }

  /** With every candidate taken, `createKey` makes one lookup per UUID,
      writes nothing and reports `Exhausted`. */
  lemma AllTakenExhausts(entries: map<string, string>, uuids: seq<string>, url: string)
    requires forall j :: 0 <= j < |uuids| ==> Taken(entries, KeyOf(uuids[j]))
    ensures AllocationOutcome(entries, uuids) == Exhausted
    ensures AfterAllocation(entries, uuids, url) == entries
    ensures AllocationCalls(entries, uuids, url) == Lookups(uuids[..|uuids|])
  {
    assert uuids[..|uuids|] == uuids;
  }

  /** Every stored target is non-empty; then a free candidate is an absent key. */
  ghost predicate AllNonEmpty(entries: map<string, string>) {
    forall k :: k in entries ==> entries[k] != ""
  }

  /** Writing a non-empty URL keeps every stored value non-empty, and under
      that invariant the allocated key is new to the table. */
  lemma AllocationKeepsNonEmpty(entries: map<string, string>, uuids: seq<string>, url: string)
    requires AllNonEmpty(entries) && url != ""
    ensures AllNonEmpty(AfterAllocation(entries, uuids, url))
    ensures AllocationOutcome(entries, uuids).Allocated? ==>
      && AllocationOutcome(entries, uuids).key !in entries
      && AfterAllocation(entries, uuids, url).Keys == entries.Keys + {AllocationOutcome(entries, uuids).key}
    ensures AllocationOutcome(entries, uuids).Exhausted? ==> AfterAllocation(entries, uuids, url) == entries
  {
    if AllocationOutcome(entries, uuids).Allocated? {
      var k := AllocationOutcome(entries, uuids).key;
      assert !Taken(entries, k);
    }
  }

  /** Every key `createKey` returns for well-formed UUIDs matches the redirect
      route's pattern. */
  lemma AllocatedKeyMatchesRoute(entries: map<string, string>, uuids: seq<string>)
    requires forall j :: 0 <= j < |uuids| ==> IsUuidString(uuids[j])
    ensures AllocationOutcome(entries, uuids).Allocated? ==>
      && MatchesKeyRoute(AllocationOutcome(entries, uuids).key)
      && forall c :: c in AllocationOutcome(entries, uuids).key ==> IsHexDigit(c)
  {
    match FirstFree(entries, uuids)
    case None =>
    case Some(i) =>
      GeneratedKeyMatchesRoute(uuids[i]);
  }

  /** One submission: the UUIDs `createKey` draws and the URL it stores. */
  datatype Round = Round(uuids: seq<string>, url: string)

  /** A series of `createKey` calls against one table, in order: the outcome
      of each and the table at the end. */
  function RunRounds(entries: map<string, string>, rounds: seq<Round>): (r: (seq<Outcome>, map<string, string>))
    ensures |r.0| == |rounds|
    decreases |rounds|
  {
    if rounds == [] then ([], entries)
    else
      var first := AllocationOutcome(entries, rounds[0].uuids);
      var rest := RunRounds(AfterAllocation(entries, rounds[0].uuids, rounds[0].url), rounds[1..]);
      ([first] + rest.0, rest.1)
  }

  /** One step of `RunRounds`: the first round's outcome, then the rest run
      against the table the first round leaves. */
  lemma RunRoundsStep(entries: map<string, string>, rounds: seq<Round>)
    requires rounds != []
    ensures var next := AfterAllocation(entries, rounds[0].uuids, rounds[0].url);
      && RunRounds(entries, rounds).0 == [AllocationOutcome(entries, rounds[0].uuids)] + RunRounds(next, rounds[1..]).0
      && RunRounds(entries, rounds).1 == RunRounds(next, rounds[1..]).1
  {
  }

  /** For N submissions of non-empty URLs, starting from a table whose values
      are all non-empty: the allocated keys are pairwise distinct and new to
      the table, each holds its own URL at the end, and no pair already
      stored is changed. */
  lemma {:induction false} RoundsAllocateDistinctKeys(entries: map<string, string>, rounds: seq<Round>)
    requires AllNonEmpty(entries)
    requires forall i :: 0 <= i < |rounds| ==> rounds[i].url != ""
    decreases |rounds|
    ensures var (outcomes, final) := RunRounds(entries, rounds);
      && (forall i, j :: 0 <= i < j < |outcomes| && outcomes[i].Allocated? && outcomes[j].Allocated?
            ==> outcomes[i].key != outcomes[j].key)
      && (forall i :: 0 <= i < |outcomes| && outcomes[i].Allocated? ==>
            outcomes[i].key !in entries && outcomes[i].key in final && final[outcomes[i].key] == rounds[i].url)
      && (forall k :: k in entries ==> k in final && final[k] == entries[k])
      && AllNonEmpty(final)
  {
    if rounds != [] {
      var r0 := rounds[0];
      var next := AfterAllocation(entries, r0.uuids, r0.url);
      AllocationKeepsNonEmpty(entries, r0.uuids, r0.url);
      RoundsAllocateDistinctKeys(next, rounds[1..]);
      RunRoundsStep(entries, rounds);
      var outcomes := RunRounds(entries, rounds).0;
      var final := RunRounds(entries, rounds).1;
      var rest := RunRounds(next, rounds[1..]).0;
      forall i | 0 <= i < |outcomes| && outcomes[i].Allocated?
        ensures outcomes[i].key !in entries && outcomes[i].key in final && final[outcomes[i].key] == rounds[i].url
      {
        if i > 0 {
          assert outcomes[i] == rest[i - 1];
          assert rounds[i] == rounds[1..][i - 1];
        }
      }
      forall i, j | 0 <= i < j < |outcomes| && outcomes[i].Allocated? && outcomes[j].Allocated?
        ensures outcomes[i].key != outcomes[j].key
      {
        assert outcomes[j] == rest[j - 1];
        if i > 0 {
          assert outcomes[i] == rest[i - 1];
        } else {
          assert outcomes[i].key in next;
        }
      }
    }
  }

  /** Every allocated outcome in the list carries a key that matches the
      redirect route's pattern. */
  ghost predicate KeysMatchRoute(outcomes: seq<Outcome>) {
    forall i :: 0 <= i < |outcomes| && outcomes[i].Allocated? ==> MatchesKeyRoute(outcomes[i].key)
  }

  /** Every key allocated over a series of submissions whose UUIDs are all
      well-formed matches the redirect route's pattern. */
  lemma {:induction false} RoundsKeysMatchRoute(entries: map<string, string>, rounds: seq<Round>)
    requires forall i, j :: 0 <= i < |rounds| && 0 <= j < |rounds[i].uuids| ==> IsUuidString(rounds[i].uuids[j])
    decreases |rounds|
    ensures KeysMatchRoute(RunRounds(entries, rounds).0)
  {
    if rounds != [] {
      var next := AfterAllocation(entries, rounds[0].uuids, rounds[0].url);
      AllocatedKeyMatchesRoute(entries, rounds[0].uuids);
      RoundsKeysMatchRoute(next, rounds[1..]);
      var outcomes := RunRounds(entries, rounds).0;
      var rest := RunRounds(next, rounds[1..]).0;
      assert outcomes == [AllocationOutcome(entries, rounds[0].uuids)] + rest;
      forall i | 0 < i < |outcomes| && outcomes[i].Allocated?
        ensures MatchesKeyRoute(outcomes[i].key)
      {
        assert outcomes[i] == rest[i - 1];
      }
    }
  }
}
