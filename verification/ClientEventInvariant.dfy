/** Every record the queue writes can be read back: each operation keeps the stored form readable. */
module ClientEventInvariant {
  import opened Numbers
  import opened Sequences
  import opened RetryPolicy
  import opened ClientEventEnvelope
  import opened ClientEventSteps

  // ---------------------------------------------------------------------------------------------
  // Thinning: elements dropped, leases dropped
  // ---------------------------------------------------------------------------------------------

  /** The same event, with its lease or without one. */
  predicate Weaker(a: StoredEvent, b: StoredEvent) {
    b == a || b == a.(lease := None)
  }

  /** `b` is `a` with some events dropped and some leases dropped. */
  ghost predicate Thins(a: seq<StoredEvent>, b: seq<StoredEvent>)
    decreases |a|
  {
    if a == [] then b == []
    else Thins(a[1..], b) || (b != [] && Weaker(a[0], b[0]) && Thins(a[1..], b[1..]))
  }

  lemma {:induction false} ThinsMember(a: seq<StoredEvent>, b: seq<StoredEvent>, y: StoredEvent) returns (x: StoredEvent)
    requires Thins(a, b) && y in b
    ensures x in a && Weaker(x, y)
    decreases |a|
  {
    if Thins(a[1..], b) {
      x := ThinsMember(a[1..], b, y);
    } else if y == b[0] {
      x := a[0];
    } else {
      x := ThinsMember(a[1..], b[1..], y);
    }
  }

  lemma {:induction false} ThinsClean(events: seq<StoredEvent>, now: nat, lim: Limits)
    ensures Thins(events, CleanEvents(events, now, lim))
    decreases |events|
  {
    if events != [] {
      ThinsClean(events[1..], now, lim);
      assert CleanEvents(events, now, lim) ==
        (match Kept(now, lim)(events[0]) case None => [] case Some(e) => [e]) + CleanEvents(events[1..], now, lim);
    }
  }

  lemma {:induction false} ThinsFilter(events: seq<StoredEvent>, keep: StoredEvent -> bool)
    ensures Thins(events, Filter(events, keep))
    decreases |events|
  {
    if events != [] {
      ThinsFilter(events[1..], keep);
    }
  }

  lemma {:induction false} ThinsReleased(ticket: Ticket, events: seq<StoredEvent>)
    ensures Thins(events, Released(ticket, events))
    decreases |events|
  {
    if events != [] {
      ThinsReleased(ticket, events[1..]);
      assert Released(ticket, events)[1..] == Released(ticket, events[1..]);
    }
  }

  /** Fewer leased events, and fewer bytes of them. */
  lemma {:induction false} ThinsLeased(a: seq<StoredEvent>, b: seq<StoredEvent>)
    requires Thins(a, b)
    ensures |Leased(b)| <= |Leased(a)|
    ensures TotalBytes(Leased(b)) <= TotalBytes(Leased(a))
    decreases |a|
  {
    if a != [] {
      if Thins(a[1..], b) {
        ThinsLeased(a[1..], b);
      } else {
        ThinsLeased(a[1..], b[1..]);
      }
    }
  }

  lemma {:induction false} ThinnedScope(s: Scope, t: Scope, lim: Limits)
    requires ScopeOk(s, lim) && Thins(s.events, t.events) && t.events != []
    requires t.failureCount <= MAX_FAILURE_COUNT && t.retryAt <= MAX_SAFE_INTEGER
    requires t.failureCount == 0 <==> t.retryAt == 0
    requires t.batchLimit == s.batchLimit || (Leased(t.events) == [] && 1 <= t.batchLimit <= s.batchLimit)
    ensures ScopeOk(t, lim)
  {
    ThinsLeased(s.events, t.events);
    forall e | e in t.events ensures EventOk(e) {
      var x := ThinsMember(s.events, t.events, e);
    }
    forall e, f | e in t.events && f in t.events && e.lease.Some? && f.lease.Some?
      ensures e.lease.value.token == f.lease.value.token
    {
      var x := ThinsMember(s.events, t.events, e);
      var y := ThinsMember(s.events, t.events, f);
    }
  }

  /** Scope by scope thinning of a whole record; scopes may disappear. */
  ghost predicate ThinsAll(a: Envelope, b: Envelope)
    decreases |a|
  {
    if a == [] then b == []
    else ThinsAll(a[1..], b) || (b != [] && a[0].key == b[0].key && Thins(a[0].events, b[0].events) && ThinsAll(a[1..], b[1..]))
  }

  lemma {:induction false} ThinsAllScope(a: Envelope, b: Envelope, t: Scope) returns (s: Scope)
    requires ThinsAll(a, b) && t in b
    ensures s in a && s.key == t.key && Thins(s.events, t.events)
    decreases |a|
  {
    if ThinsAll(a[1..], b) {
      s := ThinsAllScope(a[1..], b, t);
    } else if t == b[0] {
      s := a[0];
    } else {
      s := ThinsAllScope(a[1..], b[1..], t);
    }
  }

  lemma {:induction false} ThinsAllKeys(a: Envelope, b: Envelope)
    requires ThinsAll(a, b) && DistinctKeys(a)
    ensures DistinctKeys(b)
    decreases |a|
  {
    hide Thins;
    if a != [] {
      if ThinsAll(a[1..], b) {
        ThinsAllKeys(a[1..], b);
      } else {
        ThinsAllKeys(a[1..], b[1..]);
        forall j | 0 < j < |b| ensures b[0].key != b[j].key {
          var s := ThinsAllScope(a[1..], b[1..], b[j]);
        }
      }
    }
  }

  lemma {:induction false} ThinsSame(a: seq<StoredEvent>)
    ensures Thins(a, a)
    decreases |a|
  {
    if a != [] {
      ThinsSame(a[1..]);
    }
  }

  lemma {:induction false} ThinsAllSame(a: Envelope)
    ensures ThinsAll(a, a)
    decreases |a|
  {
    if a != [] {
      ThinsSame(a[0].events);
      ThinsAllSame(a[1..]);
    }
  }

  lemma {:induction false} ThinsAllClean(env: Envelope, now: nat, lim: Limits)
    ensures ThinsAll(env, Clean(env, now, lim))
    decreases |env|
  {
    if env != [] {
      ThinsClean(env[0].events, now, lim);
      ThinsAllClean(env[1..], now, lim);
      var kept := CleanEvents(env[0].events, now, lim);
      if kept != [] {
        assert Clean(env, now, lim)[1..] == Clean(env[1..], now, lim);
      } else {
        assert Clean(env, now, lim) == Clean(env[1..], now, lim);
      }
    }
  }

  lemma {:induction false} ThinsAllUpdate(env: Envelope, i: nat, s: Scope)
    requires i < |env| && s.key == env[i].key && Thins(env[i].events, s.events)
    ensures ThinsAll(env, env[i := s])
    decreases |env|
  {
    hide Thins;
    if i == 0 {
      ThinsAllSame(env[1..]);
    } else {
      ThinsSame(env[0].events);
      ThinsAllUpdate(env[1..], i - 1, s);
      assert env[i := s][1..] == env[1..][i - 1 := s];
    }
  }

  lemma {:induction false} ThinsAllWithout(env: Envelope, i: nat)
    requires i < |env|
    ensures ThinsAll(env, WithoutScope(env, i))
    decreases |env|
  {
    hide Thins;
    if i == 0 {
      ThinsAllSame(env[1..]);
      assert WithoutScope(env, 0) == env[1..];
    } else {
      ThinsSame(env[0].events);
      ThinsAllWithout(env[1..], i - 1);
      assert WithoutScope(env, i)[1..] == WithoutScope(env[1..], i - 1);
    }
  }

  // ---------------------------------------------------------------------------------------------
  // Consistency of the whole record
  // ---------------------------------------------------------------------------------------------

  ghost predicate Across(a: seq<Tagged>, b: seq<Tagged>) {
    forall x, y :: x in a && y in b ==> PairOk(x, y)
  }

  lemma {:induction false} ConsistentConcat(a: seq<Tagged>, b: seq<Tagged>)
    ensures Consistent(a + b) <==> Consistent(a) && Consistent(b) && Across(a, b)
  {
    hide SelfOk, PairOk;
    var c := a + b;
    if Consistent(c) {
      forall i, j | 0 <= i < j < |a| ensures PairOk(a[i], a[j]) {
        assert c[i] == a[i] && c[j] == a[j];
      }
      forall i | 0 <= i < |a| ensures SelfOk(a[i]) {
        assert c[i] == a[i];
      }
      forall i, j | 0 <= i < j < |b| ensures PairOk(b[i], b[j]) {
        assert c[|a| + i] == b[i] && c[|a| + j] == b[j];
      }
      forall i | 0 <= i < |b| ensures SelfOk(b[i]) {
        assert c[|a| + i] == b[i];
      }
      forall x, y | x in a && y in b ensures PairOk(x, y) {
        var i :| 0 <= i < |a| && a[i] == x;
        var j :| 0 <= j < |b| && b[j] == y;
        assert c[i] == x && c[|a| + j] == y;
      }
    }
  }

  lemma {:induction false} PairWeaker(key: Key, k2: Key, x: StoredEvent, x': StoredEvent, y: StoredEvent, y': StoredEvent)
    requires PairOk(Tagged(key, x), Tagged(k2, y)) && Weaker(x, x') && Weaker(y, y')
    ensures PairOk(Tagged(key, x'), Tagged(k2, y'))
  {
  }

  lemma {:induction false} TagMember(key: Key, events: seq<StoredEvent>, x: Tagged)
    ensures x in Tag(key, events) <==> x.key == key && x.e in events
  {
    if x.key == key && x.e in events {
      var i :| 0 <= i < |events| && events[i] == x.e;
      assert Tag(key, events)[i] == x;
    }
  }

  lemma {:induction false} ThinsConsistent(key: Key, a: seq<StoredEvent>, b: seq<StoredEvent>)
    requires Thins(a, b) && Consistent(Tag(key, a))
    ensures Consistent(Tag(key, b))
    decreases |a|
  {
    hide PairOk;
    if a != [] {
      assert Tag(key, a) == [Tagged(key, a[0])] + Tag(key, a[1..]);
      ConsistentConcat([Tagged(key, a[0])], Tag(key, a[1..]));
      if Thins(a[1..], b) {
        ThinsConsistent(key, a[1..], b);
      } else {
        ThinsConsistent(key, a[1..], b[1..]);
        assert Tag(key, b) == [Tagged(key, b[0])] + Tag(key, b[1..]);
        forall x, y | x in [Tagged(key, b[0])] && y in Tag(key, b[1..]) ensures PairOk(x, y) {
          TagMember(key, b[1..], y);
          var o := ThinsMember(a[1..], b[1..], y.e);
          TagMember(key, a[1..], Tagged(key, o));
          PairWeaker(key, key, a[0], b[0], o, y.e);
        }
        assert SelfOk(Tagged(key, a[0])) by { assert [Tagged(key, a[0])][0] == Tagged(key, a[0]); }
        ConsistentConcat([Tagged(key, b[0])], Tag(key, b[1..]));
      }
    }
  }

  lemma {:induction false} ThinsAllMember(a: Envelope, b: Envelope, y: Tagged) returns (x: Tagged)
    requires ThinsAll(a, b) && y in Flat(b)
    ensures x in Flat(a) && x.key == y.key && Weaker(x.e, y.e)
  {
    var t := FlatFrom(b, y);
    var s := ThinsAllScope(a, b, t);
    var e := ThinsMember(s.events, t.events, y.e);
    FlatHolds(a, s, e);
    x := Tagged(s.key, e);
  }

  lemma {:induction false} ThinsAllConsistent(a: Envelope, b: Envelope)
    requires ThinsAll(a, b) && Consistent(Flat(a))
    ensures Consistent(Flat(b))
    decreases |a|
  {
    hide PairOk, Thins, Consistent;
    if a == [] {
    } else {
      ConsistentConcat(Tag(a[0].key, a[0].events), Flat(a[1..]));
      if ThinsAll(a[1..], b) {
        ThinsAllConsistent(a[1..], b);
      } else {
        ThinsAllConsistent(a[1..], b[1..]);
        ThinsConsistent(a[0].key, a[0].events, b[0].events);
        forall x, y | x in Tag(b[0].key, b[0].events) && y in Flat(b[1..]) ensures PairOk(x, y) {
          TagMember(b[0].key, b[0].events, x);
          var o := ThinsMember(a[0].events, b[0].events, x.e);
          TagMember(a[0].key, a[0].events, Tagged(a[0].key, o));
          var p := ThinsAllMember(a[1..], b[1..], y);
          PairWeaker(x.key, y.key, o, x.e, p.e, y.e);
        }
        ConsistentConcat(Tag(b[0].key, b[0].events), Flat(b[1..]));
      }
    }
  }

  /** Readable except for the limits that every write checks itself. */
  ghost predicate Sound(env: Envelope, lim: Limits) {
    DistinctKeys(env) && (forall s :: s in env ==> ScopeOk(s, lim)) && Consistent(Flat(env))
  }

  lemma {:induction false} WriteKeeps<T>(previous: Envelope, env: Envelope, value: T, lim: Limits)
    requires WellFormed(previous, lim) && DistinctKeys(previous) && Sound(env, lim)
    ensures var r := Write(previous, env, value, lim).stored; WellFormed(r, lim) && DistinctKeys(r)
  {
  }

  lemma {:induction false} CleanSound(env: Envelope, now: nat, lim: Limits)
    requires Sound(env, lim)
    ensures Sound(Clean(env, now, lim), lim)
  {
    hide Consistent, Flat, DistinctKeys, Clean, CleanEvents, ThinsAll, Thins, ScopeOk;
    var c := Clean(env, now, lim);
    ThinsAllClean(env, now, lim);
    ThinsAllConsistent(env, c);
    ThinsAllKeys(env, c);
    forall s | s in c ensures ScopeOk(s, lim) {
      var t := CleanScope(env, now, lim, s);
      ThinsClean(t.events, now, lim);
      assert ScopeOk(t, lim);
      ScopeOkCleaned(t, s, lim);
    }
  }

  lemma {:induction false} ScopeOkCleaned(t: Scope, s: Scope, lim: Limits)
    requires ScopeOk(t, lim) && s == t.(events := s.events) && Thins(t.events, s.events) && s.events != []
    ensures ScopeOk(s, lim)
  {
    ThinnedScope(t, s, lim);
  }

  lemma {:induction false} UpdateSound(env: Envelope, i: nat, s: Scope, lim: Limits)
    requires Sound(env, lim) && i < |env| && s.key == env[i].key
    requires Thins(env[i].events, s.events) && ScopeOk(s, lim)
    ensures Sound(env[i := s], lim)
  {
    hide Consistent, Flat, ThinsAll, Thins, ScopeOk;
    ThinsAllUpdate(env, i, s);
    ThinsAllConsistent(env, env[i := s]);
  }

  lemma {:induction false} WithoutSound(env: Envelope, i: nat, lim: Limits)
    requires Sound(env, lim) && i < |env|
    ensures Sound(WithoutScope(env, i), lim)
  {
    hide Consistent, Flat, DistinctKeys, ThinsAll, ScopeOk;
    ThinsAllWithout(env, i);
    ThinsAllConsistent(env, WithoutScope(env, i));
    ThinsAllKeys(env, WithoutScope(env, i));
  }

  // ---------------------------------------------------------------------------------------------
  // Adding an event, granting a lease
  // ---------------------------------------------------------------------------------------------

  lemma {:induction false} UsedIdsHold(env: Envelope, x: Tagged)
    requires x in Flat(env)
    ensures x.e.id in UsedIds(env)
    ensures x.e.lease.Some? ==> x.e.lease.value.token in UsedIds(env)
  {
    hide Flat;
  }

  lemma {:induction false} FlatUpdate(env: Envelope, i: nat, s: Scope)
    requires i < |env|
    ensures Flat(env[i := s]) == Flat(env[..i]) + Tag(s.key, s.events) + Flat(env[i + 1..])
  {
    var env' := env[i := s];
    FlatSplit(env', i);
    assert env'[..i] == env[..i] && env'[i + 1..] == env[i + 1..];
  }

  lemma {:induction false} ConsistentInsert(a: seq<Tagged>, x: Tagged, b: seq<Tagged>)
    requires Consistent(a + b) && SelfOk(x)
    requires forall y :: y in a ==> PairOk(y, x)
    requires forall y :: y in b ==> PairOk(x, y)
    ensures Consistent(a + [x] + b)
  {
    hide Consistent, PairOk, SelfOk;
    ConsistentConcat(a, b);
    ConsistentConcat(a, [x]);
    assert Consistent([x]) by { ConsistentOne(x); }
    ConsistentConcat(a + [x], b);
  }

  lemma {:induction false} ConsistentOne(x: Tagged)
    requires SelfOk(x)
    ensures Consistent([x])
  {
  }

  lemma {:induction false} AppendedSound(env: Envelope, i: nat, e: StoredEvent, lim: Limits)
    requires DistinctKeys(env) && Consistent(Flat(env)) && i < |env|
    requires forall j :: 0 <= j < |env| && j != i ==> ScopeOk(env[j], lim)
    requires ScopeOk(env[i], lim) || (env[i].events == [] && env[i].failureCount == 0 && env[i].retryAt == 0
               && 1 <= env[i].batchLimit <= lim.maxBatchEvents)
    requires e.id !in UsedIds(env) && e.lease.None? && EventOk(e)
    ensures Sound(env[i := env[i].(events := env[i].events + [e])], lim)
  {
    hide Consistent, Flat, PairOk, UsedIds;
    var s := env[i].(events := env[i].events + [e]);
    var x := Tagged(env[i].key, e);
    FlatSplit(env, i);
    FlatUpdate(env, i, s);
    var a, own, b := Flat(env[..i]), Tag(env[i].key, env[i].events), Flat(env[i + 1..]);
    assert Tag(s.key, s.events) == own + [x];
    forall y: Tagged | y in a + own + b ensures PairOk(y, x) && PairOk(x, y) {
      UsedIdsHold(env, y);
      FreshPair(x, y, env);
    }
    assert (a + own) + b == a + own + b;
    ConsistentInsert(a + own, x, b);
    assert Flat(env[i := s]) == (a + own) + [x] + b;
    assert ScopeOk(s, lim) by {
      LeasedAppend(env[i].events, e);
    }
  }

  lemma {:induction false} FreshPair(x: Tagged, y: Tagged, env: Envelope)
    requires x.e.lease.None? && x.e.id !in UsedIds(env)
    requires y.e.id in UsedIds(env) && (y.e.lease.Some? ==> y.e.lease.value.token in UsedIds(env))
    ensures PairOk(x, y) && PairOk(y, x)
  {
    hide UsedIds;
  }

  lemma {:induction false} LeasedAppend(events: seq<StoredEvent>, e: StoredEvent)
    requires e.lease.None?
    ensures Leased(events + [e]) == Leased(events)
  {
    FilterConcat(events, [e], IsLeased());
    assert Filter([e], IsLeased()) == [];
  }

  /** Same events with other leases: each one keeps its own, or gets the new lease. */
  ghost predicate Regrants(a: seq<Tagged>, b: seq<Tagged>, key: Key, lease: Lease) {
    && |a| == |b|
    && forall i :: 0 <= i < |a| ==> b[i] == a[i] || (a[i].key == key && b[i] == a[i].(e := a[i].e.(lease := Some(lease))))
  }

  lemma {:induction false} RegrantPair(x: Tagged, x': Tagged, y: Tagged, y': Tagged, key: Key, lease: Lease, used: set<Id>)
    requires PairOk(x, y)
    requires x' == x || (x.key == key && x' == x.(e := x.e.(lease := Some(lease))))
    requires y' == y || (y.key == key && y' == y.(e := y.e.(lease := Some(lease))))
    requires x.e.id in used && y.e.id in used && lease.token !in used
    requires x.e.lease.Some? ==> x.e.lease.value.token in used
    requires y.e.lease.Some? ==> y.e.lease.value.token in used
    ensures PairOk(x', y')
  {
  }

  lemma {:induction false} RegrantConsistent(a: seq<Tagged>, b: seq<Tagged>, key: Key, lease: Lease, used: set<Id>)
    requires Consistent(a) && Regrants(a, b, key, lease) && lease.token !in used
    requires forall x :: x in a ==> x.e.id in used && (x.e.lease.Some? ==> x.e.lease.value.token in used)
    ensures Consistent(b)
  {
    hide PairOk;
    forall i, j | 0 <= i < j < |b| ensures PairOk(b[i], b[j]) {
      assert a[i] in a && a[j] in a;
      RegrantPair(a[i], b[i], a[j], b[j], key, lease, used);
    }
    forall i | 0 <= i < |b| ensures SelfOk(b[i]) {
      assert a[i] in a && SelfOk(a[i]);
    }
  }

  /** The first `n` events leased, the others untouched. */
  function LeaseFirst(events: seq<StoredEvent>, n: nat, lease: Lease): (r: seq<StoredEvent>)
    requires n <= |events|
    ensures |r| == |events|
    ensures forall i :: 0 <= i < |events| ==> r[i] == if i < n then events[i].(lease := Some(lease)) else events[i]
  {
    seq(|events|, i requires 0 <= i < |events| => if i < n then events[i].(lease := Some(lease)) else events[i])
  }

  ghost predicate DistinctIds(events: seq<StoredEvent>) {
    forall i, j :: 0 <= i < j < |events| ==> events[i].id != events[j].id
  }

  /** Granting by id leases exactly the chosen front of the scope. */
  lemma {:induction false} GrantIsPrefix(events: seq<StoredEvent>, n: nat, ticket: Ticket, lease: Lease)
    requires DistinctIds(events) && n <= |events| && ticket.entries == QueuedAll(events[..n])
    ensures Granted(events, EntryIds(ticket), lease) == LeaseFirst(events, n, lease)
  {
    forall i | 0 <= i < |events| ensures events[i].id in EntryIds(ticket) <==> i < n {
      if i < n {
        assert ticket.entries[i] == Queued(events[i]);
        assert ticket.entries[i] in ticket.entries;
      } else {
        forall entry | entry in ticket.entries ensures entry.id != events[i].id {
          var j :| 0 <= j < n && ticket.entries[j] == entry;
          assert entry == Queued(events[j]);
        }
      }
    }
  }

  lemma {:induction false} LeasedFirst(events: seq<StoredEvent>, n: nat, lease: Lease)
    requires n <= |events| && Leased(events) == []
    ensures Leased(LeaseFirst(events, n, lease)) == LeaseFirst(events, n, lease)[..n]
    ensures TotalBytes(LeaseFirst(events, n, lease)[..n]) == TotalBytes(events[..n])
    decreases |events|
  {
    if events != [] {
      var r := LeaseFirst(events, n, lease);
      if n == 0 {
        assert r == events;
      } else {
        LeasedFirst(events[1..], n - 1, lease);
        assert r[1..] == LeaseFirst(events[1..], n - 1, lease);
        assert r[..n][1..] == r[1..][..n - 1];
        assert events[..n][1..] == events[1..][..n - 1];
      }
    }
  }

  lemma {:induction false} ScopeIdsDistinct(env: Envelope, i: nat)
    requires Consistent(Flat(env)) && i < |env|
    ensures DistinctIds(env[i].events)
  {
    hide Consistent;
    FlatSplit(env, i);
    var own := Tag(env[i].key, env[i].events);
    ConsistentConcat(Flat(env[..i]) + own, Flat(env[i + 1..]));
    ConsistentConcat(Flat(env[..i]), own);
    TagIdsDistinct(env[i].key, env[i].events);
  }

  lemma {:induction false} TagIdsDistinct(key: Key, events: seq<StoredEvent>)
    requires Consistent(Tag(key, events))
    ensures DistinctIds(events)
  {
    var own := Tag(key, events);
    forall a, b | 0 <= a < b < |events| ensures events[a].id != events[b].id {
      assert PairOk(own[a], own[b]);
    }
  }

  lemma {:induction false} GrantedSound(env: Envelope, i: nat, n: nat, lease: Lease, lim: Limits)
    requires Sound(env, lim) && i < |env| && 1 <= n <= |env[i].events|
    requires Leased(env[i].events) == []
    requires n <= env[i].batchLimit && BatchBytes(env[i].events[..n]) <= lim.maxBatchBytes
    requires lease.token !in UsedIds(env) && lease.claimedAt <= MAX_SAFE_INTEGER
    requires forall j :: 0 <= j < n ==> env[i].events[j].enqueuedAt <= lease.claimedAt
    ensures Sound(env[i := env[i].(events := LeaseFirst(env[i].events, n, lease))], lim)
  {
    hide Consistent, Flat, UsedIds;
    var s := env[i].(events := LeaseFirst(env[i].events, n, lease));
    var env' := env[i := s];
    FlatSplit(env, i);
    FlatUpdate(env, i, s);
    var a, own, b := Flat(env[..i]), Tag(env[i].key, env[i].events), Flat(env[i + 1..]);
    assert Regrants(Flat(env), Flat(env'), env[i].key, lease) by {
      RegrantsParts(a, own, Tag(s.key, s.events), b, env[i].key, lease);
    }
    forall x | x in Flat(env) ensures x.e.id in UsedIds(env) && (x.e.lease.Some? ==> x.e.lease.value.token in UsedIds(env)) {
      UsedIdsHold(env, x);
    }
    RegrantConsistent(Flat(env), Flat(env'), env[i].key, lease, UsedIds(env));
    GrantedScope(env[i], n, lease, lim);
  }

  lemma {:induction false} RegrantsParts(a: seq<Tagged>, own: seq<Tagged>, own': seq<Tagged>, b: seq<Tagged>, key: Key, lease: Lease)
    requires Regrants(own, own', key, lease)
    ensures Regrants(a + own + b, a + own' + b, key, lease)
  {
  }

  lemma {:induction false} GrantedScope(s: Scope, n: nat, lease: Lease, lim: Limits)
    requires ScopeOk(s, lim) && 1 <= n <= |s.events| && Leased(s.events) == []
    requires n <= s.batchLimit && BatchBytes(s.events[..n]) <= lim.maxBatchBytes
    requires lease.claimedAt <= MAX_SAFE_INTEGER
    requires forall j :: 0 <= j < n ==> s.events[j].enqueuedAt <= lease.claimedAt
    ensures ScopeOk(s.(events := LeaseFirst(s.events, n, lease)), lim)
  {
    hide TotalBytes, Leased;
    var r := LeaseFirst(s.events, n, lease);
    LeasedFirst(s.events, n, lease);
    forall e | e in r ensures EventOk(e) && (e.lease.Some? ==> e.lease == Some(lease)) {
      var j :| 0 <= j < |r| && r[j] == e;
      assert s.events[j] in s.events;
      if j >= n && e.lease.Some? {
        assert e in Leased(s.events) by { LeasedMember(s.events, e); }
      }
    }
  }

  lemma {:induction false} LeasedMember(events: seq<StoredEvent>, e: StoredEvent)
    requires e in events && e.lease.Some?
    ensures e in Leased(events)
  {
  }

  // ---------------------------------------------------------------------------------------------
  // Every operation
  // ---------------------------------------------------------------------------------------------

  /** A readable record: what reading accepts, with one scope per key. */
  ghost predicate Readable(stored: Envelope, lim: Limits) {
    WellFormed(stored, lim) && DistinctKeys(stored)
  }

  /** No stored time is ahead of the clock. */
  ghost predicate NotAhead(env: Envelope, now: nat) {
    forall s, e :: s in env && e in s.events ==>
      e.enqueuedAt <= now && (e.lease.Some? ==> e.lease.value.claimedAt <= now)
  }

  lemma {:induction false} CleanNotAhead(env: Envelope, now: nat, clock: nat, lim: Limits)
    requires NotAhead(env, clock)
    ensures NotAhead(Clean(env, now, lim), clock)
  {
    hide Clean, CleanEvents;
    var c := Clean(env, now, lim);
    forall s, e | s in c && e in s.events
      ensures e.enqueuedAt <= clock && (e.lease.Some? ==> e.lease.value.claimedAt <= clock)
    {
      var t := CleanScope(env, now, lim, s);
      ThinsClean(t.events, now, lim);
      var x := ThinsMember(t.events, s.events, e);
    }
  }

  lemma {:induction false} OpenedSound(c: Envelope, key: Key, lim: Limits)
    requires Sound(c, lim) && ValidLimits(lim)
    ensures var g := Opened(c, key, lim);
            && DistinctKeys(g) && Consistent(Flat(g)) && Find(g, key).Some?
            && Flat(g) == Flat(c)
            && (forall j :: 0 <= j < |g| && j != Find(g, key).value ==> ScopeOk(g[j], lim))
            && var s := g[Find(g, key).value];
               (ScopeOk(s, lim) || (s.events == [] && s.failureCount == 0 && s.retryAt == 0 && 1 <= s.batchLimit <= lim.maxBatchEvents))
  {
    hide ScopeOk;
    var g := Opened(c, key, lim);
    if Find(c, key).None? {
      var added := Scope(key, 0, 0, lim.maxBatchEvents, []);
      FlatConcat(c, [added]);
      assert g[|c|] == added;
      assert added in g;
      assert forall j :: 0 <= j < |c| ==> g[j] == c[j] && c[j] in c;
    }
  }

  lemma {:induction false} EnqueueKeeps(stored: Envelope, now: nat, key: Key, event: ClientEvent, candidates: seq<Id>, lim: Limits)
    requires ValidLimits(lim) && Readable(stored, lim) && now <= MAX_SAFE_INTEGER
    ensures Readable(EnqueueStep(stored, now, key, event, candidates, lim).stored, lim)
  {
    hide Clean, UsedIds, Consistent, ScopeOk, Flat, DistinctKeys, FreshId, CountEvents;
    var c := Clean(stored, now, lim);
    CleanSound(stored, now, lim);
    OpenedSound(c, key, lim);
    var g := Opened(c, key, lim);
    var id := FreshId(candidates, UsedIds(g));
    if id.Some? {
      var e := StoredEvent(id.value, event, now, None);
      var i := Find(g, key).value;
      AppendedSound(g, i, e, lim);
      WriteKeeps(stored, Appended(g, key, e), Queued(e), lim);
    }
  }

  /** Nothing is handed out, or everything handed out was enqueued by now. */
  predicate InTime(s: Step<ClaimAnswer>, now: nat) {
    s.answer.Ok? && s.answer.value.Claimed? ==>
      forall entry :: entry in s.answer.value.ticket.entries ==> entry.enqueuedAt <= now
  }

  /**
   What a claim writes can be read again exactly when it hands out nothing that was enqueued after
   the time of the claim. Events it leaves alone, and other scopes, may be ahead of the clock.
   */
  lemma {:induction false} ClaimExact(stored: Envelope, now: nat, key: Key, candidates: seq<Id>, lim: Limits)
    requires ValidLimits(lim) && Readable(stored, lim) && now <= MAX_SAFE_INTEGER
    ensures var s := ClaimStep(stored, now, key, candidates, lim);
            Readable(s.stored, lim) <==> InTime(s, now)
  {
    hide Clean, UsedIds, Consistent, ScopeOk, Flat, DistinctKeys, FreshId, CountEvents, EarliestExpiry,
         SelectCount, EntryIds, Granted, BatchBytes, Leased, WellFormed;
    var c := Clean(stored, now, lim);
    assert Sound(stored, lim) by { ReadableSound(stored, lim); }
    CleanSound(stored, now, lim);
    WriteKeeps(stored, c, Empty, lim);
    var f := Find(c, key);
    if f.Some? {
      var s := c[f.value];
      var n := SelectCount(s.events, Min(s.batchLimit, lim.maxBatchEvents), lim.maxBatchBytes, 0);
      var token := FreshId(candidates, UsedIds(c));
      if s.retryAt <= now && Leased(s.events) == [] && n > 0 && token.Some? {
        ClaimGrantExact(stored, c, f.value, n, token.value, now, lim);
      }
    }
  }

  lemma {:induction false} ClaimDistinct(stored: Envelope, now: nat, key: Key, candidates: seq<Id>, lim: Limits)
    requires Readable(stored, lim)
    ensures DistinctKeys(ClaimStep(stored, now, key, candidates, lim).stored)
  {
    hide Clean, UsedIds, FreshId, CountEvents, EarliestExpiry, SelectCount, EntryIds, Granted, Leased, ScopeOk, Consistent;
    CleanSound(stored, now, lim);
  }

  /** Under a clock that has not gone back a claim is always in time. */
  lemma {:induction false} ClaimKeeps(stored: Envelope, now: nat, key: Key, candidates: seq<Id>, lim: Limits)
    requires ValidLimits(lim) && Readable(stored, lim) && now <= MAX_SAFE_INTEGER && NotAhead(stored, now)
    ensures Readable(ClaimStep(stored, now, key, candidates, lim).stored, lim)
  {
    hide Clean, UsedIds, FreshId, CountEvents, NotAhead, EarliestExpiry, SelectCount, EntryIds, Granted, Leased, Readable;
    var c := Clean(stored, now, lim);
    CleanNotAhead(stored, now, now, lim);
    ClaimExact(stored, now, key, candidates, lim);
    var s := ClaimStep(stored, now, key, candidates, lim);
    if s.answer.Ok? && s.answer.value.Claimed? {
      var i := Find(c, key).value;
      forall entry | entry in s.answer.value.ticket.entries ensures entry.enqueuedAt <= now {
        var k :| 0 <= k < |s.answer.value.ticket.entries| && s.answer.value.ticket.entries[k] == entry;
        EventNotAhead(c, c[i], c[i].events[k], now);
      }
    }
  }

  lemma {:induction false} EventNotAhead(env: Envelope, s: Scope, e: StoredEvent, now: nat)
    requires NotAhead(env, now) && s in env && e in s.events
    ensures e.enqueuedAt <= now
  {
  }

  lemma {:induction false} ReadableSound(stored: Envelope, lim: Limits)
    requires Readable(stored, lim)
    ensures Sound(stored, lim)
  {
  }

  lemma {:induction false} ClaimGrantExact(stored: Envelope, c: Envelope, i: nat, n: nat, token: Id, now: nat, lim: Limits)
    requires Readable(stored, lim) && Sound(c, lim) && now <= MAX_SAFE_INTEGER
    requires i < |c| && Leased(c[i].events) == []
    requires 1 <= n == SelectCount(c[i].events, Min(c[i].batchLimit, lim.maxBatchEvents), lim.maxBatchBytes, 0)
    requires token !in UsedIds(c)
    ensures var ticket := Ticket(c[i].key, token, now, QueuedAll(c[i].events[..n]));
            var env := c[i := c[i].(events := Granted(c[i].events, EntryIds(ticket), Lease(token, now)))];
            var s := Write(stored, env, Claimed(ticket), lim);
            Readable(s.stored, lim) <==> InTime(s, now)
  {
    hide UsedIds, Consistent, Flat, DistinctKeys, SelectCount, BatchBytes, Leased, WellFormed, EntryIds, Granted;
    var s := c[i];
    assert s in c;
    var ticket := Ticket(s.key, token, now, QueuedAll(s.events[..n]));
    var lease := Lease(token, now);
    ScopeIdsDistinct(c, i);
    GrantIsPrefix(s.events, n, ticket, lease);
    var env := c[i := s.(events := Granted(s.events, EntryIds(ticket), lease))];
    if j :| 0 <= j < n && s.events[j].enqueuedAt > now {
      assert ticket.entries[j] == Queued(s.events[j]);
      assert ticket.entries[j] in ticket.entries;
      EarlyIsUnreadable(env, i, LeaseFirst(s.events, n, lease)[j], lim);
    } else {
      forall entry | entry in ticket.entries ensures entry.enqueuedAt <= now {
        var j :| 0 <= j < n && ticket.entries[j] == entry;
      }
      GrantedSound(c, i, n, lease, lim);
      WriteKeeps(stored, env, Claimed(ticket), lim);
    }
  }

  /** A lease taken before its event was enqueued is refused by every read. */
  lemma {:induction false} EarlyIsUnreadable(env: Envelope, i: nat, e: StoredEvent, lim: Limits)
    requires i < |env| && e in env[i].events && e.lease.Some? && e.lease.value.claimedAt < e.enqueuedAt
    ensures !WellFormed(env, lim)
  {
    assert env[i] in env;
  }

  lemma {:induction false} AcknowledgeKeeps(stored: Envelope, now: nat, ticket: Ticket, lim: Limits)
    requires Readable(stored, lim)
    ensures Readable(AcknowledgeStep(stored, now, ticket, lim).stored, lim)
  {
    hide Clean, Consistent, ScopeOk, Flat, DistinctKeys, CountEvents, NotHeld, Filter;
    var c := Clean(stored, now, lim);
    CleanSound(stored, now, lim);
    WriteKeeps(stored, c, 0, lim);
    var f := Find(c, ticket.key);
    if f.Some? {
      var i := f.value;
      var s := Acknowledged(c[i], ticket);
      ThinsFilter(c[i].events, NotHeld(ticket));
      ThinsSame(c[i].events);
      var removed := |c[i].events| - |s.events|;
      if s.events == [] {
        WithoutSound(c, i, lim);
        WriteKeeps(stored, WithoutScope(c, i), removed, lim);
      } else {
        assert c[i] in c;
        assert ScopeOk(s, lim) by {
          if s != c[i] { ThinnedScope(c[i], s, lim); }
        }
        UpdateSound(c, i, s, lim);
        WriteKeeps(stored, c[i := s], removed, lim);
      }
    }
  }

  lemma {:induction false} NoneLeased(events: seq<StoredEvent>)
    requires forall i :: 0 <= i < |events| ==> events[i].lease.None?
    ensures Leased(events) == []
  {
    if events != [] {
      NoneLeased(events[1..]);
    }
  }

  /** One claim per scope: releasing a claim that holds anything leaves no event of its scope leased. */
  lemma {:induction false} ReleaseClears(env: Envelope, i: nat, ticket: Ticket)
    requires i < |env| && OneToken(env[i].events)
    requires Filter(env[i].events, Held(ticket)) != []
    requires forall e :: e in env[i].events && e.lease.Some? && e.lease.value.token == ticket.token ==> e.id in EntryIds(ticket)
    ensures Leased(Released(ticket, env[i].events)) == []
  {
    hide EntryIds;
    var events := env[i].events;
    var x := Filter(events, Held(ticket))[0];
    var r := Released(ticket, events);
    forall j | 0 <= j < |r| ensures r[j].lease.None? {
      assert x in events && events[j] in events;
    }
    NoneLeased(r);
  }

  lemma {:induction false} RetriedScopeOk(s: Scope, ticket: Ticket, now: nat, failure: SendFailure, random: real, host: Host, lim: Limits)
    requires ScopeOk(s, lim) && now <= MAX_SAFE_INTEGER && 0.0 <= random < 1.0
    requires Leased(Released(ticket, s.events)) == []
    ensures ScopeOk(Retried(s, ticket, now, failure, random, host), lim)
  {
    hide RetryAt, NextBatchLimit, Released, Leased;
    var t := Retried(s, ticket, now, failure, random, host);
    RetryAtRange(now, t.failureCount, random, failure, host);
    BatchLimitShrinks(s.batchLimit, |ticket.entries|, failure);
    ThinsReleased(ticket, s.events);
    assert |t.events| == |s.events|;
    ThinnedScope(s, t, lim);
  }

  lemma {:induction false} ReleaseKeeps(stored: Envelope, now: nat, ticket: Ticket, failure: SendFailure, random: real, host: Host, lim: Limits)
    requires Readable(stored, lim) && now <= MAX_SAFE_INTEGER && 0.0 <= random < 1.0
    requires forall x :: x in Flat(stored) && x.e.lease.Some? && x.e.lease.value.token == ticket.token ==> x.e.id in EntryIds(ticket)
    ensures Readable(ReleaseStep(stored, now, ticket, failure, random, host, lim).stored, lim)
  {
    hide Clean, Consistent, ScopeOk, Flat, DistinctKeys, CountEvents, Held, Filter, EntryIds, Retried, ThinsAll, Thins, Leased, Released;
    var c := Clean(stored, now, lim);
    CleanSound(stored, now, lim);
    WriteKeeps<Option<RetryState>>(stored, c, None, lim);
    var f := Find(c, ticket.key);
    if f.Some? {
      var i := f.value;
      var held := |Filter(c[i].events, Held(ticket))|;
      if held != 0 {
        assert c[i] in c;
        forall e | e in c[i].events && e.lease.Some? && e.lease.value.token == ticket.token ensures e.id in EntryIds(ticket) {
          FlatHolds(c, c[i], e);
          ThinsAllClean(stored, now, lim);
          var x := ThinsAllMember(stored, c, Tagged(c[i].key, e));
        }
        assert OneToken(c[i].events) by { ScopeOneToken(c[i], lim); }
        ReleaseClears(c, i, ticket);
        var s := Retried(c[i], ticket, now, failure, random, host);
        RetriedScopeOk(c[i], ticket, now, failure, random, host, lim);
        RetriedThins(c[i], ticket, now, failure, random, host);
        UpdateSound(c, i, s, lim);
        WriteKeeps(stored, c[i := s], Some(RetryState(held, s.failureCount, s.retryAt, s.batchLimit)), lim);
      }
    }
  }

  lemma {:induction false} ScopeOneToken(s: Scope, lim: Limits)
    requires ScopeOk(s, lim)
    ensures OneToken(s.events)
  {
  }

  lemma {:induction false} RetriedThins(s: Scope, ticket: Ticket, now: nat, failure: SendFailure, random: real, host: Host)
    ensures var t := Retried(s, ticket, now, failure, random, host); t.key == s.key && Thins(s.events, t.events)
  {
    ThinsReleased(ticket, s.events);
  }

  lemma {:induction false} InspectKeeps(stored: Envelope, now: nat, key: Key, lim: Limits)
    requires Readable(stored, lim)
    ensures Readable(InspectStep(stored, now, key, lim).stored, lim)
  {
    hide Clean, Consistent, ScopeOk, Flat, DistinctKeys, CountEvents;
    CleanSound(stored, now, lim);
  }

  lemma {:induction false} DiscardKeeps(stored: Envelope, key: Key, lim: Limits)
    requires Readable(stored, lim)
    ensures Readable(DiscardStep(stored, key, lim).stored, lim)
  {
    hide Consistent, ScopeOk, Flat, DistinctKeys, CountEvents;
    match Find(stored, key) {
      case None =>
      case Some(i) => WithoutSound(stored, i, lim);
    }
  }
}
