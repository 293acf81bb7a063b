/** app/core/locks.py: the lease lock, for one lock key (keys do not interact). Times are the server's clock. */
module Locks {
  import opened Results

  datatype Lease = Lease(token: nat, expiresAt: int)

  /** The value a GET sees: a lease is gone once its expiry has passed. */
  function Present(key: Option<Lease>, now: int): Option<Lease> {
    if key.Some? && now <= key.value.expiresAt then key else None
  }

  class RedisLock {
    var key: Option<Lease>

    constructor ()
      ensures key == None
    {
      key := None;
    }

    /** SET key token NX EX ttl. */
    method Acquire(token: nat, now: int, ttl: nat) returns (acquired: bool)
      modifies this
      ensures acquired == Present(old(key), now).None?
      ensures key == AfterAcquire(old(key), token, now, ttl)
    {
      if key.Some? && key.value.expiresAt < now {
        key := None;
      }
      acquired := key.None?;
      if acquired {
        key := Some(Lease(token, now + ttl));
      }
    }

    /** The compare-and-delete script. */
    method Release(token: nat, now: int) returns (deleted: bool)
      modifies this
      ensures deleted == (Present(old(key), now).Some? && old(key).value.token == token)
      ensures key == AfterRelease(old(key), token, now)
    {
      if key.Some? && key.value.expiresAt < now {
        key := None;
      }
      deleted := key.Some? && key.value.token == token;
      if deleted {
        key := None;
      }
    }
  }

  function AfterAcquire(key: Option<Lease>, token: nat, now: int, ttl: nat): Option<Lease> {
    if Present(key, now).None? then Some(Lease(token, now + ttl)) else key
  }

  function AfterRelease(key: Option<Lease>, token: nat, now: int): Option<Lease> {
    if Present(key, now).Some? && key.value.token == token then None else Present(key, now)
  }

  // ------------------------------------------------------------------ clients

  /** What happens to the lock: a client tries to enter with a token of its own, or leaves with the token it
      entered with, possibly long after its lease ran out. Tokens are random, so no two entries share one. */
  datatype Event = Enter(at: int, ttl: nat) | Leave(at: int, token: nat)

  /** The lock, the leases of the clients inside, and the number of tokens drawn so far: the next is fresh. */
  datatype World = World(key: Option<Lease>, inside: map<nat, int>, drawn: nat, clock: int)

  function Step(w: World, e: Event): World {
    match e
    case Enter(at, ttl) =>
      var key := AfterAcquire(w.key, w.drawn, at, ttl);
      World(key, if Present(w.key, at).None? then w.inside[w.drawn := at + ttl] else w.inside, w.drawn + 1, at)
    case Leave(at, token) =>
      if token !in w.inside then w.(clock := at)
      else World(AfterRelease(w.key, token, at), w.inside - {token}, w.drawn, at)
  }

  function Run(events: seq<Event>): World {
    if |events| == 0 then World(None, map[], 0, 0)
    else Step(Run(events[..|events| - 1]), events[|events| - 1])
  }

  ghost predicate InOrder(events: seq<Event>) {
    forall i, j :: 0 <= i <= j < |events| ==> 0 <= events[i].at <= events[j].at
  }

  /** Whoever is inside with an unexpired lease owns the key, and the key belongs to somebody inside. */
  ghost predicate Owned(w: World) {
    && (forall t :: t in w.inside ==> t < w.drawn && (w.clock <= w.inside[t] ==> w.key == Some(Lease(t, w.inside[t]))))
    && (w.key.Some? ==> w.key.value.token in w.inside && w.inside[w.key.value.token] == w.key.value.expiresAt)
  }

  lemma StepKeepsOwned(w: World, e: Event)
    requires Owned(w) && w.clock <= e.at
    ensures Owned(Step(w, e))
  {
  }

  lemma {:induction false} RunKeepsOwned(events: seq<Event>)
    requires InOrder(events)
    ensures Owned(Run(events))
    ensures Run(events).clock == if |events| == 0 then 0 else events[|events| - 1].at
  {
    if |events| > 0 {
      RunKeepsOwned(events[..|events| - 1]);
      StepKeepsOwned(Run(events[..|events| - 1]), events[|events| - 1]);
    }
  }

  /** Under any interleaving of entries, lapses and exits, at most one client inside has an unexpired lease. */
  lemma MutualExclusion(events: seq<Event>, now: int, a: nat, b: nat)
    requires InOrder(events) && Run(events).clock <= now
    requires var w := Run(events); a in w.inside && b in w.inside && now <= w.inside[a] && now <= w.inside[b]
    ensures a == b
  {
    RunKeepsOwned(events);
  }

  /** Leaving never takes away another client's lock: every other client with an unexpired lease still owns the
      key afterwards. */
  lemma LeavingSparesOthers(events: seq<Event>, at: int, token: nat, other: nat)
    requires InOrder(events) && Run(events).clock <= at && other != token
    requires other in Run(events).inside && at <= Run(events).inside[other]
    ensures var w := Step(Run(events), Leave(at, token));
            w.key == Some(Lease(other, Run(events).inside[other])) && other in w.inside
  {
    RunKeepsOwned(events);
  }

  /** DEL key, whoever holds it. */
  function AfterPlainDelete(key: Option<Lease>): Option<Lease> {
    None
  }

  /** With a plain DEL somebody whose lease has lapsed would free the lock of its successor, and a third client
      could enter beside it: the token comparison is what keeps them apart. */
  lemma {:induction false} PlainDeleteBreaksExclusion()
    ensures var w := Run([Enter(0, 10), Enter(11, 10)]);
            var deleted := World(AfterPlainDelete(w.key), w.inside - {0}, w.drawn, 12);
            && w.key == Some(Lease(1, 21)) && Step(w, Leave(12, 0)).key == Some(Lease(1, 21))
            && Step(deleted, Enter(13, 10)).inside == map[1 := 21, 2 := 23]
            && Step(Step(w, Leave(12, 0)), Enter(13, 10)).inside == map[1 := 21]
  {
    var events := [Enter(0, 10), Enter(11, 10)];
    assert events[..1] == [Enter(0, 10)] && [Enter(0, 10)][..0] == [];
    assert Run([Enter(0, 10)]) == World(Some(Lease(0, 10)), map[0 := 10], 1, 0);
    assert Run(events).inside == map[0 := 10, 1 := 21];
  }

  /** A crashed holder never deadlocks the lock: once its lease has lapsed the next entry succeeds. */
  lemma NoDeadlock(events: seq<Event>, at: int, ttl: nat)
    requires InOrder(events) && Run(events).clock <= at
    requires forall t :: t in Run(events).inside ==> Run(events).inside[t] < at
    ensures Run(events).drawn in Step(Run(events), Enter(at, ttl)).inside
  {
    RunKeepsOwned(events);
  }
}
