/** The in-memory session registry: a map from session id to expiry instant, with
    lazy eviction in `Check` and a periodic sweep (api/session.go). */
module Session {
  import opened Wrappers
  import opened Clock

  /** Whether `id` names a live session of `m` at `now`: it is present and its expiry
      lies strictly after `now`. This is the answer `Check` gives. */
  predicate IsLive(m: map<string, Time>, id: string, now: Time) {
    id in m && After(m[id], now)
  }

  /** The registry after `Create` stored `id` at `now` for `duration`. */
  function Created(m: map<string, Time>, id: string, now: Time, duration: Duration): (r: map<string, Time>)
    ensures r.Keys == m.Keys + {id}
    ensures id in r && r[id] == now + duration
    ensures forall k :: k in m && k != id ==> r[k] == m[k]
  {
    m[id := Add(now, duration)]
  }

  /** The registry after `Check(id)` at `now`: an entry found expired (expiry not after
      `now`) is deleted; a live or absent id leaves the registry as it was. */
  function Checked(m: map<string, Time>, id: string, now: Time): (r: map<string, Time>)
    ensures IsLive(m, id, now) || id !in m ==> r == m
    ensures id in m && m[id] <= now ==> r.Keys == m.Keys - {id}
    ensures forall k :: k in r ==> k in m && r[k] == m[k]
  {
    if id in m && !After(m[id], now) then m - {id} else m
  }

  /** The registry after one sweep at `now`: exactly the entries whose expiry is not
      before `now` remain, with their expiries. */
  function Swept(m: map<string, Time>, now: Time): (r: map<string, Time>)
    ensures forall k :: k in r <==> k in m && m[k] >= now
    ensures forall k :: k in r ==> r[k] == m[k]
    // the sweep never changes what `Check` answers at its own instant or later
    ensures forall k, later :: later >= now ==> (IsLive(r, k, later) <==> IsLive(m, k, later))
  {
    map k | k in m && !Before(m[k], now) :: m[k]
  }

  /** At the boundary `expiry == now` the two removal paths disagree: `Check` rejects
      the session and deletes it, while the sweep keeps it. */
  lemma ExpiryBoundary(m: map<string, Time>, id: string, now: Time)
    requires id in m && m[id] == now
    ensures !IsLive(m, id, now)
    ensures id !in Checked(m, id, now)
    ensures id in Swept(m, now) && Swept(m, now)[id] == now
  {
  }

  /** `MemorySessionStore`: the registry and the lifetime given to every new session.
      The mutex is not modelled: each method runs as one atomic step. */
  class MemorySessionStore {
    var store: map<string, Time>
    const duration: Duration

    /** `NewMemorySessionStore(duration)`: an empty registry. */
    constructor (duration: Duration)
      ensures store == map[] && this.duration == duration
    {
      store := map[];
      this.duration := duration;
    }

    /** `Create` at instant `now`, where `id` is the random identifier the source draws
        with `randString(128)`. The id is returned with a nil error and mapped to
        `now + duration`; every other entry is unchanged. */
    method Create(now: Time, id: string) returns (r: Reply<string>)
      modifies this
      ensures r == Ok(id)
      ensures store == Created(old(store), id, now, duration)
    {
      store := store[id := Add(now, duration)];
      r := Ok(id);
    }

    /** `Check(id)` at instant `now`: a nil error, and true exactly when `id` is live; an
        entry found expired is deleted before false is returned. */
    method Check(id: string, now: Time) returns (r: Reply<bool>)
      modifies this
      ensures r == Ok(IsLive(old(store), id, now))
      ensures store == Checked(old(store), id, now)
    {
      if id in store {
        if After(store[id], now) {
          return Ok(true);
        }
        store := store - {id};
      }
      r := Ok(false);
    }

    /** One pass of the `scavenge` loop at instant `now`: every entry whose expiry is
        before `now` is deleted, one key at a time. */
    method Scavenge(now: Time)
      modifies this
      ensures store == Swept(old(store), now)
    {
      var pending := store.Keys;
      while pending != {}
        invariant pending <= store.Keys <= old(store).Keys
        invariant forall k :: k in store ==> store[k] == old(store)[k]
        invariant forall k :: k in old(store) && k !in pending ==> (k in store <==> !Before(old(store)[k], now))
        decreases pending
      {
        var id :| id in pending;
        if Before(store[id], now) {
          store := store - {id};
        }
        pending := pending - {id};
      }
      assert store.Keys == Swept(old(store), now).Keys;
    }
  }

  // ---------------------------------------------------------------------------
  // Histories of registry operations, for properties that span several calls.

  /** One call on the registry, with the instant at which it happened. */
  datatype Op =
    | CreateAt(id: string, at: Time)
    | CheckAt(id: string, at: Time)
    | SweepAt(at: Time)

  /** The registry after `op`, as the corresponding method leaves it. */
  function Apply(m: map<string, Time>, op: Op, duration: Duration): map<string, Time> {
    match op
    case CreateAt(id, at) => Created(m, id, at, duration)
    case CheckAt(id, at) => Checked(m, id, at)
    case SweepAt(at) => Swept(m, at)
  }

  /** The registry after the operations `ops`, in order. */
  function Run(m: map<string, Time>, ops: seq<Op>, duration: Duration): map<string, Time>
    decreases |ops|
  {
    if ops == [] then m else Run(Apply(m, ops[0], duration), ops[1..], duration)
  }

  predicate NoCreateOf(ops: seq<Op>, id: string) {
    forall i :: 0 <= i < |ops| ==> !(ops[i].CreateAt? && ops[i].id == id)
  }

  predicate NoneAfter(ops: seq<Op>, now: Time) {
    forall i :: 0 <= i < |ops| ==> ops[i].at <= now
  }

  lemma {:induction false} RunAppend(m: map<string, Time>, a: seq<Op>, b: seq<Op>, duration: Duration)
    ensures Run(m, a + b, duration) == Run(Run(m, a, duration), b, duration)
    decreases |a|
  {
    if a != [] {
      assert (a + b)[0] == a[0];
      assert (a + b)[1..] == a[1..] + b;
      RunAppend(Apply(m, a[0], duration), a[1..], b, duration);
    } else {
      assert a + b == b;
    }
  }

  /** While `id` is not re-created, its entry either keeps the expiry `e` it was given or
      is gone; and when every operation happens no later than `now`, it is gone only if
      `e <= now`. */
  lemma {:induction false} EntryKeepsExpiry(m: map<string, Time>, ops: seq<Op>, duration: Duration,
                                         id: string, e: Time, now: Time)
    requires id in m ==> m[id] == e
    requires id !in m ==> e <= now
    requires NoCreateOf(ops, id) && NoneAfter(ops, now)
    ensures id in Run(m, ops, duration) ==> Run(m, ops, duration)[id] == e
    ensures id !in Run(m, ops, duration) ==> e <= now
    decreases |ops|
  {
    if ops != [] {
      var m' := Apply(m, ops[0], duration);
      assert ops[0].at <= now;
      assert !(ops[0].CreateAt? && ops[0].id == id);
      assert forall i :: 0 <= i < |ops[1..]| ==> ops[1..][i] == ops[i + 1];
      EntryKeepsExpiry(m', ops[1..], duration, id, e, now);
    }
  }

  /** The validity window of a session is exactly `[creation, creation + duration)`:
      after `id` was created at `t`, and whatever checks and sweeps follow (none later
      than `now`, none re-creating `id`), `Check(id)` at `now` succeeds iff
      `now < t + duration`. In particular no expired id is ever reported live,
      whether or not a sweep has run. */
  lemma {:induction false} ValidityWindow(m: map<string, Time>, before: seq<Op>, id: string, t: Time,
                                       after: seq<Op>, duration: Duration, now: Time)
    requires NoCreateOf(after, id) && NoneAfter(after, now)
    ensures IsLive(Run(m, before + [CreateAt(id, t)] + after, duration), id, now) <==> now < t + duration
  {
    var created := Run(m, before + [CreateAt(id, t)], duration);
    RunAppend(m, before + [CreateAt(id, t)], after, duration);
    RunAppend(m, before, [CreateAt(id, t)], duration);
    assert created == Created(Run(m, before, duration), id, t, duration);
    EntryKeepsExpiry(created, after, duration, id, t + duration, now);
  }

  /** An id that no `Create` in the history produced is never present, so `Check`
      rejects it at every instant. */
  lemma {:induction false} NeverCreatedNeverLive(m: map<string, Time>, ops: seq<Op>, duration: Duration,
                                              id: string, now: Time)
    requires id !in m && NoCreateOf(ops, id)
    ensures id !in Run(m, ops, duration)
    ensures !IsLive(Run(m, ops, duration), id, now)
    decreases |ops|
  {
    if ops != [] {
      assert !(ops[0].CreateAt? && ops[0].id == id);
      assert forall i :: 0 <= i < |ops[1..]| ==> ops[1..][i] == ops[i + 1];
      NeverCreatedNeverLive(Apply(m, ops[0], duration), ops[1..], duration, id, now);
    }
  }

  /** The sixty-minute scenario: a session created at 0 is live at minute 59, rejected
      at minute 61, and absent from the registry after that rejection. */
  method SixtyMinuteScenario() returns (at59: Reply<bool>, at61: Reply<bool>, kept: bool)
    ensures at59 == Ok(true) && at61 == Ok(false) && !kept
  {
    var s := new MemorySessionStore(60 * Minute);
    var id := s.Create(0, "S");
    at59 := s.Check("S", 59 * Minute);
    at61 := s.Check("S", 61 * Minute);
    kept := "S" in s.store;
  }
}
