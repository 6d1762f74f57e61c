/**
 The stored form of the client-event queue, its cleaning, and the checks every read repeats.

 A record of scopes is a list of scopes in insertion order, one per key. An id or a claim token is
 drawn from the same source, so both have type Id.
 */
module ClientEventEnvelope {
  import opened Numbers
  import opened Sequences
  import RetryPolicy

  type Id = nat
  type Key = nat

  const MAX_ID_ATTEMPTS: nat := 32

  /** An audit event; `bytes` is the length of its serialized form. */
  datatype ClientEvent = ClientEvent(content: nat, bytes: nat)

  datatype Lease = Lease(token: Id, claimedAt: nat)

  datatype StoredEvent = StoredEvent(id: Id, event: ClientEvent, enqueuedAt: nat, lease: Option<Lease>)

  datatype Scope = Scope(key: Key, failureCount: nat, retryAt: nat, batchLimit: nat, events: seq<StoredEvent>)

  type Envelope = seq<Scope>

  datatype Limits = Limits(
    maxScopes: nat,
    maxEvents: nat,
    maxStoredBytes: nat,
    maxBatchEvents: nat,
    maxBatchBytes: nat,
    eventMaxAge: nat,
    claimTtl: nat,
    storedBytes: Envelope -> nat)

  predicate ValidLimits(lim: Limits) {
    && 1 <= lim.maxScopes <= 32
    && 1 <= lim.maxEvents <= 2048
    && 1 <= lim.maxBatchEvents <= 50
    && 1 <= lim.maxBatchBytes <= 32768
    && 1 <= lim.eventMaxAge <= 2592000000
    && 1 <= lim.claimTtl <= 120000
  }

  // ---------------------------------------------------------------------------------------------
  // Batches
  // ---------------------------------------------------------------------------------------------

  function TotalBytes(events: seq<StoredEvent>): nat {
    if events == [] then 0 else events[0].event.bytes + TotalBytes(events[1..])
  }

  /** Length of the serialized list: brackets, events and the commas between them. */
  function BatchBytes(events: seq<StoredEvent>): nat {
    2 + TotalBytes(events) + if events == [] then 0 else |events| - 1
  }

  function IsLeased(): StoredEvent -> bool {
    (e: StoredEvent) => e.lease.Some?
  }

  function Leased(events: seq<StoredEvent>): seq<StoredEvent> {
    Filter(events, IsLeased())
  }

  lemma {:induction false} TotalBytesConcat(a: seq<StoredEvent>, b: seq<StoredEvent>)
    ensures TotalBytes(a + b) == TotalBytes(a) + TotalBytes(b)
  {
    if a == [] {
      assert a + b == b;
    } else {
      assert (a + b)[1..] == a[1..] + b;
      TotalBytesConcat(a[1..], b);
    }
  }

  // ---------------------------------------------------------------------------------------------
  // Cleaning
  // ---------------------------------------------------------------------------------------------

  predicate Aged(e: StoredEvent, now: nat, lim: Limits) {
    now >= SafeAdd(e.enqueuedAt, lim.eventMaxAge)
  }

  predicate Lapsed(e: StoredEvent, now: nat, lim: Limits) {
    e.lease.Some? && now >= SafeAdd(e.lease.value.claimedAt, lim.claimTtl)
  }

  /** What cleaning leaves of one event. */
  function Kept(now: nat, lim: Limits): StoredEvent -> Option<StoredEvent> {
    (e: StoredEvent) =>
      if Aged(e, now, lim) then None
      else if Lapsed(e, now, lim) then Some(e.(lease := None))
      else Some(e)
  }

  function CleanEvents(events: seq<StoredEvent>, now: nat, lim: Limits): (r: seq<StoredEvent>)
    ensures |r| <= |events|
  {
    FilterMap(events, Kept(now, lim))
  }

  /** Old events go, lapsed leases go, and a scope left without events goes. */
  function Clean(env: Envelope, now: nat, lim: Limits): (r: Envelope)
    ensures |r| <= |env|
  {
    if env == [] then []
    else
      var kept := CleanEvents(env[0].events, now, lim);
      (if kept == [] then [] else [env[0].(events := kept)]) + Clean(env[1..], now, lim)
  }

  lemma {:induction false} CleanEventsLast(events: seq<StoredEvent>, i: nat, now: nat, lim: Limits)
    requires i < |events|
    ensures events[..i + 1] == events[..i] + [events[i]]
    ensures CleanEvents(events[..i + 1], now, lim) ==
            CleanEvents(events[..i], now, lim)
            + if Aged(events[i], now, lim) then []
              else if Lapsed(events[i], now, lim) then [events[i].(lease := None)] else [events[i]]
  {
    hide FilterMap;
    assert events[..i + 1][..i] == events[..i];
    FilterMapLast(events[..i + 1], Kept(now, lim));
  }

  /** The loops of the cleaning pass; the answer says whether anything changed. */
  method CleanupEvents(events: seq<StoredEvent>, now: nat, lim: Limits)
      returns (retained: seq<StoredEvent>, changed: bool)
    ensures retained == CleanEvents(events, now, lim)
    ensures changed <==> retained != events
  {
    hide CleanEvents, Aged;
    retained, changed := [], false;
    assert CleanEvents([], now, lim) == [];
    for i := 0 to |events|
      invariant retained == CleanEvents(events[..i], now, lim)
      invariant changed <==> retained != events[..i]
    {
      CleanEventsLast(events, i, now, lim);
      var e := events[i];
      if Aged(e, now, lim) {
        changed := true;
        continue;
      }
      if Lapsed(e, now, lim) {
        e := e.(lease := None);
        changed := true;
      }
      retained := retained + [e];
      assert retained[|retained| - 1] == e;
      assert changed && |retained| == i + 1 && e == events[i] ==> retained[..i] != events[..i];
    }
    assert events[..|events|] == events;
  }

  method CleanupEnvelope(env: Envelope, now: nat, lim: Limits) returns (cleaned: Envelope, changed: bool)
    requires forall s :: s in env ==> s.events != []
    ensures cleaned == Clean(env, now, lim)
    ensures changed <==> cleaned != env
  {
    hide CleanEvents, Clean;
    cleaned, changed := [], false;
    assert Clean([], now, lim) == [];
    for i := 0 to |env|
      invariant cleaned == Clean(env[..i], now, lim)
      invariant changed <==> cleaned != env[..i]
    {
      var retained, touched := CleanupEvents(env[i].events, now, lim);
      CleanLast(env, i, now, lim);
      assert env[i] in env;
      if retained == [] {
        changed := true;
      } else {
        var scope := env[i].(events := retained);
        assert touched <==> scope != env[i];
        cleaned := cleaned + [scope];
        changed := changed || touched;
        assert cleaned[|cleaned| - 1] == scope;
        assert |cleaned| == i + 1 && !touched && changed ==> cleaned[..i] != env[..i];
      }
    }
    assert env[..|env|] == env;
  }

  lemma {:induction false} CleanConcat(a: Envelope, b: Envelope, now: nat, lim: Limits)
    ensures Clean(a + b, now, lim) == Clean(a, now, lim) + Clean(b, now, lim)
  {
    if a == [] {
      assert a + b == b;
    } else {
      assert (a + b)[1..] == a[1..] + b;
      CleanConcat(a[1..], b, now, lim);
    }
  }

  lemma {:induction false} CleanLast(env: Envelope, i: nat, now: nat, lim: Limits)
    requires i < |env|
    ensures env[..i + 1] == env[..i] + [env[i]]
    ensures var kept := CleanEvents(env[i].events, now, lim);
            Clean(env[..i + 1], now, lim) ==
            Clean(env[..i], now, lim) + if kept == [] then [] else [env[i].(events := kept)]
  {
    hide CleanEvents;
    assert env[..i + 1] == env[..i] + [env[i]];
    CleanConcat(env[..i], [env[i]], now, lim);
  }

  /** Every scope that remains is a stored scope with its events cleaned, and has some left. */
  lemma {:induction false} CleanScope(env: Envelope, now: nat, lim: Limits, s: Scope) returns (t: Scope)
    requires s in Clean(env, now, lim)
    ensures t in env && s == t.(events := CleanEvents(t.events, now, lim)) && s.events != []
  {
    hide CleanEvents;
    var kept := CleanEvents(env[0].events, now, lim);
    if kept != [] && s == env[0].(events := kept) {
      t := env[0];
    } else {
      t := CleanScope(env[1..], now, lim, s);
    }
  }

  lemma {:induction false} CleanHasNoEmptyScope(env: Envelope, now: nat, lim: Limits)
    ensures forall s :: s in Clean(env, now, lim) ==> s.events != []
  {
    forall s | s in Clean(env, now, lim) ensures s.events != [] {
      var t := CleanScope(env, now, lim, s);
    }
  }

  // ---------------------------------------------------------------------------------------------
  // The whole queue as one list
  // ---------------------------------------------------------------------------------------------

  datatype Tagged = Tagged(key: Key, e: StoredEvent)

  function Tag(key: Key, events: seq<StoredEvent>): (r: seq<Tagged>)
    ensures |r| == |events|
    ensures forall i :: 0 <= i < |r| ==> r[i] == Tagged(key, events[i])
  {
    seq(|events|, i requires 0 <= i < |events| => Tagged(key, events[i]))
  }

  function Flat(env: Envelope): seq<Tagged> {
    if env == [] then [] else Tag(env[0].key, env[0].events) + Flat(env[1..])
  }

  lemma {:induction false} FlatHolds(env: Envelope, s: Scope, e: StoredEvent)
    requires s in env && e in s.events
    ensures Tagged(s.key, e) in Flat(env)
  {
    if s == env[0] {
      var i :| 0 <= i < |s.events| && s.events[i] == e;
      assert Flat(env)[i] == Tagged(s.key, e);
    } else {
      FlatHolds(env[1..], s, e);
    }
  }

  lemma {:induction false} FlatFrom(env: Envelope, x: Tagged) returns (s: Scope)
    requires x in Flat(env)
    ensures s in env && s.key == x.key && x.e in s.events
  {
    if x in Tag(env[0].key, env[0].events) {
      s := env[0];
    } else {
      s := FlatFrom(env[1..], x);
    }
  }

  lemma {:induction false} FlatConcat(a: Envelope, b: Envelope)
    ensures Flat(a + b) == Flat(a) + Flat(b)
  {
    if a == [] {
      assert a + b == b;
    } else {
      assert (a + b)[1..] == a[1..] + b;
      FlatConcat(a[1..], b);
    }
  }

  lemma {:induction false} FlatSplit(env: Envelope, i: nat)
    requires i < |env|
    ensures Flat(env) == Flat(env[..i]) + Tag(env[i].key, env[i].events) + Flat(env[i + 1..])
  {
    assert env == env[..i] + env[i..];
    FlatConcat(env[..i], env[i..]);
    assert env[i..][1..] == env[i + 1..];
  }

  function CountEvents(env: Envelope): nat {
    if env == [] then 0 else |env[0].events| + CountEvents(env[1..])
  }

  lemma {:induction false} CountIsLength(env: Envelope)
    ensures CountEvents(env) == |Flat(env)|
  {
    if env != [] {
      CountIsLength(env[1..]);
    }
  }

  // ---------------------------------------------------------------------------------------------
  // What a readable queue is
  // ---------------------------------------------------------------------------------------------

  ghost predicate DistinctKeys(env: Envelope) {
    forall i, j :: 0 <= i < j < |env| ==> env[i].key != env[j].key
  }

  predicate EventOk(e: StoredEvent) {
    && e.enqueuedAt <= MAX_SAFE_INTEGER
    && (e.lease.Some? ==> e.enqueuedAt <= e.lease.value.claimedAt <= MAX_SAFE_INTEGER)
  }

  ghost predicate OneToken(events: seq<StoredEvent>) {
    forall e, f :: e in events && f in events && e.lease.Some? && f.lease.Some? ==> e.lease.value.token == f.lease.value.token
  }

  /** What is checked of one scope by itself. */
  ghost predicate ScopeOk(s: Scope, lim: Limits) {
    && s.failureCount <= RetryPolicy.MAX_FAILURE_COUNT
    && s.retryAt <= MAX_SAFE_INTEGER
    && (s.failureCount == 0 <==> s.retryAt == 0)
    && 1 <= s.batchLimit <= lim.maxBatchEvents
    && s.events != []
    && (forall e :: e in s.events ==> EventOk(e))
    && OneToken(s.events)
    && |Leased(s.events)| <= s.batchLimit
    && (Leased(s.events) != [] ==> BatchBytes(Leased(s.events)) <= lim.maxBatchBytes)
  }

  predicate SelfOk(x: Tagged) {
    x.e.lease.Some? ==> x.e.lease.value.token != x.e.id
  }

  /** Two stored events never share an id, no token is an id, and a token belongs to one claim of one scope. */
  predicate PairOk(x: Tagged, y: Tagged) {
    && x.e.id != y.e.id
    && (x.e.lease.Some? ==> x.e.lease.value.token != y.e.id)
    && (y.e.lease.Some? ==> y.e.lease.value.token != x.e.id)
    && (x.e.lease.Some? && y.e.lease.Some? && x.e.lease.value.token == y.e.lease.value.token
        ==> x.key == y.key && x.e.lease == y.e.lease)
  }

  ghost predicate Consistent(flat: seq<Tagged>) {
    && (forall i :: 0 <= i < |flat| ==> SelfOk(flat[i]))
    && (forall i, j :: 0 <= i < j < |flat| ==> PairOk(flat[i], flat[j]))
  }

  ghost predicate WellFormed(env: Envelope, lim: Limits) {
    && |env| <= lim.maxScopes
    && (forall s :: s in env ==> ScopeOk(s, lim))
    && CountEvents(env) <= lim.maxEvents
    && Consistent(Flat(env))
    && lim.storedBytes(env) <= lim.maxStoredBytes
  }

  // ---------------------------------------------------------------------------------------------
  // Reading
  // ---------------------------------------------------------------------------------------------

  datatype ParseError = Corrupt | Capacity | ResourceLimit

  /** The events of one claim token met so far. */
  datatype Group = Group(key: Key, claimedAt: nat, events: seq<StoredEvent>)

  function HeldBy(token: Id): Tagged -> Option<StoredEvent> {
    (x: Tagged) => if x.e.lease.Some? && x.e.lease.value.token == token then Some(x.e) else None
  }

  function Holders(flat: seq<Tagged>, token: Id): seq<StoredEvent> {
    FilterMap(flat, HeldBy(token))
  }

  /** The three collections of the reading loop describe exactly the events read so far. */
  ghost predicate Tracks(seen: seq<Tagged>, ids: set<Id>, tokens: set<Id>, groups: map<Id, Group>) {
    && ids == (set x | x in seen :: x.e.id)
    && tokens == (set x | x in seen && x.e.lease.Some? :: x.e.lease.value.token)
    && groups.Keys == tokens
    && (forall x :: x in seen && x.e.lease.Some? ==>
          groups[x.e.lease.value.token].key == x.key
          && groups[x.e.lease.value.token].claimedAt == x.e.lease.value.claimedAt)
    && (forall t :: t in groups ==> groups[t].events == Holders(seen, t))
  }

  method ParseStoredScope(s: Scope, lim: Limits) returns (ok: bool)
    ensures ok <==> ScopeOk(s, lim)
  {
    hide EventOk;
    var claimed := Leased(s.events);
    var tokens := set e | e in claimed :: if e.lease.Some? then e.lease.value.token else 0;
    ok :=
      && s.failureCount <= RetryPolicy.MAX_FAILURE_COUNT
      && s.retryAt <= MAX_SAFE_INTEGER
      && (s.failureCount == 0) == (s.retryAt == 0)
      && 1 <= s.batchLimit <= lim.maxBatchEvents
      && s.events != []
      && (forall e :: e in s.events ==> EventOk(e))
      && |tokens| <= 1
      && |claimed| <= s.batchLimit
      && (|claimed| > 0 ==> BatchBytes(claimed) <= lim.maxBatchBytes);
    AtMostOne(tokens);
    if OneToken(s.events) {
      assert forall t, u :: t in tokens && u in tokens ==> t == u;
    } else {
      var e, f :| e in s.events && f in s.events && e.lease.Some? && f.lease.Some?
        && e.lease.value.token != f.lease.value.token;
      assert e in claimed && f in claimed;
      assert e.lease.value.token in tokens && f.lease.value.token in tokens;
    }
  }

  lemma {:induction false} AtMostOne<T>(s: set<T>)
    ensures |s| <= 1 <==> forall a, b :: a in s && b in s ==> a == b
  {
    if s != {} {
      var a :| a in s;
      assert |s - {a}| == |s| - 1;
      if |s| == 1 {
        assert s - {a} == {};
      } else {
        var b :| b in s - {a};
      }
    }
  }

  lemma {:induction false} ConsistentLast(seen: seq<Tagged>, x: Tagged)
    requires Consistent(seen)
    ensures Consistent(seen + [x]) <==> SelfOk(x) && forall y :: y in seen ==> PairOk(y, x)
  {
    hide SelfOk, PairOk;
    var all := seen + [x];
    if Consistent(all) {
      assert all[|seen|] == x;
      forall y: Tagged | y in seen ensures PairOk(y, x) {
        var i :| 0 <= i < |seen| && seen[i] == y;
        assert all[i] == y;
      }
    }
  }

  lemma {:induction false} ConsistentPrefix(a: seq<Tagged>, b: seq<Tagged>)
    requires Consistent(a + b)
    ensures Consistent(a)
  {
    hide SelfOk, PairOk;
    forall i, j | 0 <= i < j < |a| ensures PairOk(a[i], a[j]) {
      assert (a + b)[i] == a[i] && (a + b)[j] == a[j];
    }
    forall i | 0 <= i < |a| ensures SelfOk(a[i]) {
      assert (a + b)[i] == a[i];
    }
  }

  lemma {:induction false} HoldersLast(seen: seq<Tagged>, x: Tagged, t: Id)
    ensures Holders(seen + [x], t) == Holders(seen, t) + match HeldBy(t)(x) case None => [] case Some(e) => [e]
  {
    hide FilterMap;
    FilterMapLast(seen + [x], HeldBy(t));
    assert (seen + [x])[..|seen|] == seen;
  }

  lemma {:induction false} NoHolders(flat: seq<Tagged>, t: Id)
    requires forall x :: x in flat && x.e.lease.Some? ==> x.e.lease.value.token != t
    ensures Holders(flat, t) == []
  {
    if flat != [] {
      NoHolders(flat[1..], t);
    }
  }

  lemma {:induction false} TracksEvent(seen: seq<Tagged>, x: Tagged, ids: set<Id>, tokens: set<Id>, groups: map<Id, Group>)
      returns (groups': map<Id, Group>)
    requires Tracks(seen, ids, tokens, groups)
    requires x.e.lease.Some? && x.e.lease.value.token in groups ==>
               groups[x.e.lease.value.token].key == x.key
               && groups[x.e.lease.value.token].claimedAt == x.e.lease.value.claimedAt
    ensures groups' == WithEvent(groups, x)
    ensures Tracks(seen + [x], ids + {x.e.id},
                   if x.e.lease.Some? then tokens + {x.e.lease.value.token} else tokens, groups')
  {
    hide Holders;
    groups' := WithEvent(groups, x);
    var all := seen + [x];
    assert forall y :: y in all <==> y in seen || y == x;
    forall t | t in groups' ensures groups'[t].events == Holders(all, t) {
      HoldersLast(seen, x, t);
      if t !in tokens {
        assert Holders(seen, t) == [] by { NoHolders(seen, t); }
      }
    }
  }

  function WithEvent(groups: map<Id, Group>, x: Tagged): map<Id, Group> {
    if x.e.lease.None? then groups
    else
      var t := x.e.lease.value.token;
      if t in groups then groups[t := groups[t].(events := groups[t].events + [x.e])]
      else groups[t := Group(x.key, x.e.lease.value.claimedAt, [x.e])]
  }

  /** The body of the reading loop: one event is added, or the whole record is refused. */
  method AddEvent(ghost seen: seq<Tagged>, x: Tagged, ids: set<Id>, tokens: set<Id>, groups: map<Id, Group>)
      returns (ok: bool, ids': set<Id>, tokens': set<Id>, groups': map<Id, Group>)
    requires Consistent(seen) && Tracks(seen, ids, tokens, groups)
    ensures ok <==> Consistent(seen + [x])
    ensures ok ==> Tracks(seen + [x], ids', tokens', groups')
  {
    hide Holders, Consistent;
    ids', tokens', groups' := ids, tokens, groups;
    ConsistentLast(seen, x);
    if x.e.id in ids || x.e.id in tokens {
      return false, ids', tokens', groups';
    }
    ids' := ids + {x.e.id};
    if x.e.lease.Some? {
      var token := x.e.lease.value.token;
      if token in ids' {
        return false, ids', tokens', groups';
      }
      tokens' := tokens + {token};
      if token in groups {
        var group := groups[token];
        if group.key != x.key || group.claimedAt != x.e.lease.value.claimedAt {
          return false, ids', tokens', groups';
        }
        groups' := groups[token := group.(events := group.events + [x.e])];
      } else {
        groups' := groups[token := Group(x.key, x.e.lease.value.claimedAt, [x.e])];
      }
    }
    ok := true;
    ghost var _ := TracksEvent(seen, x, ids, tokens, groups);
  }

  lemma {:induction false} HoldersOfScope(key: Key, events: seq<StoredEvent>, t: Id)
    requires forall e :: e in events && e.lease.Some? ==> e.lease.value.token == t
    ensures Holders(Tag(key, events), t) == Leased(events)
  {
    if events != [] {
      assert Tag(key, events)[1..] == Tag(key, events[1..]);
      HoldersOfScope(key, events[1..], t);
    }
  }

  lemma {:induction false} HoldersConcat(a: seq<Tagged>, b: seq<Tagged>, t: Id)
    ensures Holders(a + b, t) == Holders(a, t) + Holders(b, t)
  {
    FilterMapConcat(a, b, HeldBy(t));
  }

  /** In a consistent queue the holders of a token are the leased events of the one scope they are in. */
  lemma {:induction false} HoldersAreLeased(env: Envelope, k: nat, t: Id)
    requires Consistent(Flat(env)) && DistinctKeys(env)
    requires k < |env| && OneToken(env[k].events)
    requires exists e :: e in env[k].events && e.lease.Some? && e.lease.value.token == t
    ensures Holders(Flat(env), t) == Leased(env[k].events)
  {
    hide Holders, Leased;
    var e :| e in env[k].events && e.lease.Some? && e.lease.value.token == t;
    var x := Tagged(env[k].key, e);
    FlatHolds(env, env[k], e);
    FlatSplit(env, k);
    var before, own, after := Flat(env[..k]), Tag(env[k].key, env[k].events), Flat(env[k + 1..]);
    forall y: Tagged | y in before + after && y.e.lease.Some? ensures y.e.lease.value.token != t {
      var rest := if y in before then env[..k] else env[k + 1..];
      var s := FlatFrom(rest, y);
      assert y.key != x.key;
      assert y in Flat(env) by { assert y in before || y in after; }
      if y.e.lease.value.token == t {
        SameToken(Flat(env), x, y);
      }
    }
    NoHolders(before, t);
    NoHolders(after, t);
    HoldersConcat(before, own, t);
    HoldersConcat(before + own, after, t);
    HoldersOfScope(env[k].key, env[k].events, t);
  }

  lemma {:induction false} SameToken(flat: seq<Tagged>, x: Tagged, y: Tagged)
    requires Consistent(flat) && x in flat && y in flat
    requires x.e.lease.Some? && y.e.lease.Some? && x.e.lease.value.token == y.e.lease.value.token
    ensures x.key == y.key && x.e.lease == y.e.lease
  {
    var i :| 0 <= i < |flat| && flat[i] == x;
    var j :| 0 <= j < |flat| && flat[j] == y;
    assert i < j ==> PairOk(flat[i], flat[j]);
    assert j < i ==> PairOk(flat[j], flat[i]);
  }

  lemma {:induction false} GroupsFit(env: Envelope, lim: Limits, t: Id)
    requires DistinctKeys(env) && (forall s :: s in env ==> ScopeOk(s, lim)) && Consistent(Flat(env))
    requires exists x :: x in Flat(env) && x.e.lease.Some? && x.e.lease.value.token == t
    ensures |Holders(Flat(env), t)| <= lim.maxBatchEvents
    ensures BatchBytes(Holders(Flat(env), t)) <= lim.maxBatchBytes
  {
    hide Consistent, Holders;
    var x :| x in Flat(env) && x.e.lease.Some? && x.e.lease.value.token == t;
    var s := FlatFrom(env, x);
    var k :| 0 <= k < |env| && env[k] == s;
    HoldersAreLeased(env, k, t);
    assert x.e in Leased(s.events);
  }

  /** Reading accepts exactly the well-formed records, and returns them unchanged. */
  method ParseEnvelope(raw: Envelope, lim: Limits) returns (r: Result<Envelope, ParseError>)
    requires DistinctKeys(raw)
    ensures r.Ok? <==> WellFormed(raw, lim)
    ensures r.Ok? ==> r.value == raw
  {
    hide ScopeOk, Consistent, Tracks, Flat, DistinctKeys, Holders;
    if |raw| > lim.maxScopes {
      return Err(Corrupt);
    }
    var ids: set<Id>, tokens: set<Id>, groups: map<Id, Group>, count := {}, {}, map[], 0;
    var scopes: Envelope := [];
    ghost var seen: seq<Tagged> := [];
    NothingTracked();
    for k := 0 to |raw|
      invariant scopes == raw[..k] && seen == Flat(raw[..k])
      invariant forall s :: s in raw[..k] ==> ScopeOk(s, lim)
      invariant count == |seen| <= lim.maxEvents
      invariant Consistent(seen) && Tracks(seen, ids, tokens, groups)
    {
      var scope := raw[k];
      assert scope in raw;
      assert raw[..k + 1] == raw[..k] + [scope];
      ReadSoFar(raw, k);
      CountIsLength(raw);
      var scopeOk := ParseStoredScope(scope, lim);
      if !scopeOk {
        return Err(Corrupt);
      }
      count := count + |scope.events|;
      if count > lim.maxEvents {
        return Err(Capacity);
      }
      ghost var own := Tag(scope.key, scope.events);
      assert seen + own[..0] == seen;
      for n := 0 to |scope.events|
        invariant Consistent(seen + own[..n]) && Tracks(seen + own[..n], ids, tokens, groups)
      {
        var x := Tagged(scope.key, scope.events[n]);
        assert seen + own[..n + 1] == (seen + own[..n]) + [x];
        var ok;
        ok, ids, tokens, groups := AddEvent(seen + own[..n], x, ids, tokens, groups);
        if !ok {
          if Consistent(Flat(raw)) {
            assert Flat(raw) == (seen + own[..n + 1]) + (own[n + 1..] + Flat(raw[k + 1..]));
            ConsistentPrefix(seen + own[..n + 1], own[n + 1..] + Flat(raw[k + 1..]));
            assert false;
          }
          return Err(Corrupt);
        }
      }
      assert own[..|own|] == own;
      seen := seen + own;
      scopes := scopes + [scope];
    }
    assert raw[..|raw|] == raw;
    CountIsLength(raw);
    GroupsAllFit(raw, lim, ids, tokens, groups);
    var rest := groups.Keys;
    while rest != {}
      invariant rest <= groups.Keys
      decreases |rest|
    {
      var t :| t in rest;
      rest := rest - {t};
      if |groups[t].events| > lim.maxBatchEvents || BatchBytes(groups[t].events) > lim.maxBatchBytes {
        return Err(Corrupt);
      }
    }
    if lim.storedBytes(scopes) > lim.maxStoredBytes {
      return Err(ResourceLimit);
    }
    return Ok(scopes);
  }

  lemma {:induction false} NothingTracked()
    ensures Flat([]) == [] && Consistent([]) && Tracks([], {}, {}, map[])
  {
  }

  lemma {:induction false} ReadSoFar(raw: Envelope, k: nat)
    requires k < |raw|
    ensures Flat(raw[..k + 1]) == Flat(raw[..k]) + Tag(raw[k].key, raw[k].events)
    ensures Flat(raw) == Flat(raw[..k]) + Tag(raw[k].key, raw[k].events) + Flat(raw[k + 1..])
  {
    FlatSplit(raw, k);
    assert raw[..k + 1] == raw[..k] + [raw[k]];
    FlatConcat(raw[..k], [raw[k]]);
  }

  lemma {:induction false} GroupsAllFit(raw: Envelope, lim: Limits, ids: set<Id>, tokens: set<Id>, groups: map<Id, Group>)
    requires DistinctKeys(raw) && (forall s :: s in raw ==> ScopeOk(s, lim)) && Consistent(Flat(raw))
    requires Tracks(Flat(raw), ids, tokens, groups)
    ensures forall t :: t in groups ==>
              |groups[t].events| <= lim.maxBatchEvents && BatchBytes(groups[t].events) <= lim.maxBatchBytes
  {
    hide ScopeOk, Consistent, Flat, DistinctKeys, Holders;
    forall t | t in groups
      ensures |groups[t].events| <= lim.maxBatchEvents && BatchBytes(groups[t].events) <= lim.maxBatchBytes
    {
      GroupsFit(raw, lim, t);
    }
  }
}
