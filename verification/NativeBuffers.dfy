/**
 * Ownership of native memory across the C shim and its Rust caller. The C heap and the SDK are one machine in which
 * any allocation and any SDK call may fail; a failed data-key call may still have filled its buffers.
 */
module NativeBuffers {
  import opened Basics

  /** Address 0 is the null pointer. */
  const NULL: nat := 0

  datatype Event = Allocated(p: nat) | Freed(p: nat)

  /** An SDK byte buffer: an owned block, or none. */
  datatype ByteBuf = ByteBuf(data: nat, len: nat)

  const EMPTY_BUF := ByteBuf(NULL, 0)

  /** What happens at each call: whether it fails, and the bytes that a data-key call leaves in its two buffers. */
  datatype Oracle = Oracle(fails: nat -> bool, plain: nat -> Bytes, encrypted: nat -> Bytes)

  /** None of the calls after `start` up to `end` fails. */
  ghost predicate NoFailure(oracle: Oracle, start: nat, end: nat) {
    forall k: nat :: start < k <= end ==> !oracle.fails(k)
  }

  // ----- the ledger of allocations -----

  function Count(log: seq<Event>, event: Event): nat {
    if log == [] then 0
    else Count(log[..|log| - 1], event) + if log[|log| - 1] == event then 1 else 0
  }

  function Outstanding(log: seq<Event>): set<nat> {
    if log == [] then {}
    else
      var before := Outstanding(log[..|log| - 1]);
      match log[|log| - 1]
      case Allocated(p) => before + {p}
      case Freed(p) => before - {p}
  }

  /** Addresses are handed out in order and never twice; only outstanding blocks are freed. */
  ghost predicate Proper(log: seq<Event>, next: nat) {
    if log == [] then next == 1
    else match log[|log| - 1]
      case Allocated(p) => p + 1 == next && p > 0 && Proper(log[..|log| - 1], p)
      case Freed(p) => p in Outstanding(log[..|log| - 1]) && Proper(log[..|log| - 1], next)
  }

  /** In a proper ledger a block is freed exactly once if it is no longer outstanding, and never before that. */
  lemma {:induction false} FreedExactlyOnce(log: seq<Event>, next: nat, p: nat)
    requires Proper(log, next)
    ensures Count(log, Allocated(p)) == if 1 <= p < next then 1 else 0
    ensures Count(log, Freed(p)) == Count(log, Allocated(p)) - if p in Outstanding(log) then 1 else 0
    ensures p in Outstanding(log) ==> 1 <= p < next
    decreases |log|
  {
    if log != [] {
      var front := log[..|log| - 1];
      match log[|log| - 1]
      case Allocated(q) => FreedExactlyOnce(front, q, p);
      case Freed(q) => FreedExactlyOnce(front, next, p);
    }
  }

  lemma Appended(log: seq<Event>, event: Event)
    ensures (log + [event])[..|log + [event]| - 1] == log
  {
  }

  // ----- ownership -----

  /** The owned blocks are live, and without them the heap is as before. */
  ghost predicate Owns(before: map<nat, Bytes>, after: map<nat, Bytes>, owned: set<nat>) {
    owned <= after.Keys && after - owned == before
  }

  /** The blocks among some pointers. */
  function Blocks(pointers: set<nat>): set<nat> {
    pointers - {NULL}
  }

  /** The pointer is null or live. */
  predicate Held(live: map<nat, Bytes>, p: nat) {
    p == NULL || p in live
  }

  /** Releasing a block that is not among `beside` leaves those alone. */
  lemma Beside(live: map<nat, Bytes>, beside: set<nat>, p: nat)
    requires beside <= live.Keys && NULL !in live && Held(live - beside, p)
    ensures (live - {p}) - beside == (live - beside) - {p}
    ensures beside <= (live - {p}).Keys
  {
  }

  lemma OwnsOne(before: map<nat, Bytes>, after: map<nat, Bytes>, p: nat)
    requires NULL !in after && Held(after, p) && after - {p} == before
    ensures Owns(before, after, Blocks({p}))
  {
    assert after - {} == after;
    assert after - {NULL} == after;
    assert Blocks({p}) == if p == NULL then {} else {p};
  }

  lemma OwnsMore(a: map<nat, Bytes>, b: map<nat, Bytes>, c: map<nat, Bytes>, first: set<nat>, second: set<nat>)
    requires Owns(a, b, first) && Owns(b, c, second)
    ensures Owns(a, c, first + second)
  {
    assert c - (first + second) == (c - second) - first;
  }

  /** A null buffer has length 0; any other is a live block of its length. */
  ghost predicate Holds(live: map<nat, Bytes>, buffer: ByteBuf) {
    if buffer.data == NULL then buffer.len == 0
    else buffer.data in live && |live[buffer.data]| == buffer.len
  }

  ghost function BytesIn(live: map<nat, Bytes>, buffer: ByteBuf): Bytes {
    if buffer.data != NULL && buffer.data in live then live[buffer.data] else []
  }

  /** The two buffers are distinct new blocks, or null, that hold these bytes. */
  ghost predicate Delivers(before: map<nat, Bytes>, after: map<nat, Bytes>, plain: Bytes, encrypted: Bytes,
                           a: ByteBuf, b: ByteBuf)
  {
    && Owns(before, after, Blocks({a.data, b.data})) && (a.data == b.data ==> a.data == NULL)
    && Holds(after, a) && Holds(after, b) && BytesIn(after, a) == plain && BytesIn(after, b) == encrypted
  }

  lemma OwnedElsewhere(before: map<nat, Bytes>, after: map<nat, Bytes>, p: nat, buffer: ByteBuf)
    requires Owns(before, after, Blocks({p})) && Holds(before, buffer)
    ensures Holds(after, buffer) && BytesIn(after, buffer) == BytesIn(before, buffer)
  {
    if buffer.data != NULL {
      assert buffer.data in after - Blocks({p});
    }
  }

  lemma DeliversBoth(l0: map<nat, Bytes>, l1: map<nat, Bytes>, l2: map<nat, Bytes>, a: ByteBuf, b: ByteBuf)
    requires Owns(l0, l1, Blocks({a.data})) && Owns(l1, l2, Blocks({b.data})) && Holds(l1, a) && Holds(l2, b)
    ensures Delivers(l0, l2, BytesIn(l1, a), BytesIn(l2, b), a, b)
  {
    OwnsMore(l0, l1, l2, Blocks({a.data}), Blocks({b.data}));
    assert Blocks({a.data, b.data}) == Blocks({a.data}) + Blocks({b.data});
    OwnedElsewhere(l1, l2, b.data, a);
    assert l2 - Blocks({b.data}) == l1;
  }

  lemma DeliversKeeps(before: map<nat, Bytes>, after: map<nat, Bytes>, plain: Bytes, encrypted: Bytes,
                      a: ByteBuf, b: ByteBuf)
    requires Delivers(before, after, plain, encrypted, a, b)
    ensures before.Keys <= after.Keys && Owns(before, after, Blocks({a.data, b.data}))
  {
    assert forall p :: p in before ==> p in after - Blocks({a.data, b.data});
  }

  /** A delivery stays one when everything else around it is released. */
  lemma DeliversMoved(l2: map<nat, Bytes>, l3: map<nat, Bytes>, before: map<nat, Bytes>, after: map<nat, Bytes>,
                      plain: Bytes, encrypted: Bytes, a: ByteBuf, b: ByteBuf)
    requires Delivers(l2, l3, plain, encrypted, a, b) && Owns(before, after, Blocks({a.data, b.data}))
    requires forall q :: q in Blocks({a.data, b.data}) ==> after[q] == l3[q]
    ensures Delivers(before, after, plain, encrypted, a, b)
  {
    assert a.data != NULL ==> a.data in Blocks({a.data, b.data});
    assert b.data != NULL ==> b.data in Blocks({a.data, b.data});
  }

  lemma Settled(l1: map<nat, Bytes>, l2: map<nat, Bytes>, l3: map<nat, Bytes>, p: nat, kept: set<nat>)
    requires NULL !in l3 && Held(l2, p) && l2 - {p} == l1 && Owns(l2, l3, kept)
    ensures Held(l3, p) && kept <= (l3 - {p}).Keys && (l3 - {p}) - kept == l1
  {
    assert (l3 - {p}) - kept == (l3 - kept) - {p};
    assert p in kept ==> p !in l3 - kept;
  }

  lemma OwnsNothing(live: map<nat, Bytes>)
    ensures Owns(live, live, Blocks({NULL}))
    ensures forall after :: Owns(live, after, Blocks({NULL})) ==> after == live
  {
    assert Blocks({NULL}) == {};
    forall after | Owns(live, after, Blocks({NULL})) ensures after == live {
      assert after - {} == after;
    }
    assert live - {} == live;
  }

  lemma DeliversWithout(l0: map<nat, Bytes>, l1: map<nat, Bytes>, l2: map<nat, Bytes>, inner: set<nat>,
                        plain: Bytes, encrypted: Bytes, a: ByteBuf, b: ByteBuf)
    requires Owns(l0, l1, inner) && Delivers(l1, l2, plain, encrypted, a, b)
    ensures Delivers(l0, l2 - inner, plain, encrypted, a, b)
  {
    OwnsWithout(l0, l1, l2, inner, Blocks({a.data, b.data}));
    assert a.data != NULL ==> a.data in Blocks({a.data, b.data});
    assert b.data != NULL ==> b.data in Blocks({a.data, b.data});
  }

  // ----- the machine -----

  class Machine {
    const oracle: Oracle
    /** Live blocks and their contents; SDK objects are blocks without contents. */
    var live: map<nat, Bytes>
    var next: nat
    var calls: nat
    /** Library initialisations that have not been cleaned up. */
    var depth: nat
    ghost var log: seq<Event>
    /** The bytes that the last data-key call delivered. */
    ghost var delivered: (Bytes, Bytes)

    constructor (oracle: Oracle)
      ensures Valid() && live == map[] && depth == 0 && this.oracle == oracle
    {
      this.oracle := oracle;
      live, next, calls, depth := map[], 1, 0, 0;
      log := [];
      delivered := ([], []);
    }

    ghost predicate Valid()
      reads this`live, this`next, this`log
    {
      live.Keys == Outstanding(log) && Proper(log, next)
    }

    lemma NullIsDead()
      requires Valid()
      ensures NULL !in live && next !in live && next > 0
    {
      FreedExactlyOnce(log, next, NULL);
      FreedExactlyOnce(log, next, next);
      NextPositive(log, next);
    }

    /** `malloc` and every SDK constructor: a fresh block or null. */
    method Allocate(contents: Bytes) returns (p: nat)
      requires Valid()
      modifies this`live, this`next, this`calls, this`log
      ensures Valid() && next >= old(next)
      ensures Held(live, p) && live - {p} == old(live)
      ensures calls == old(calls) + 1 && (p != NULL <==> !oracle.fails(calls))
      ensures p != NULL ==> live[p] == contents
    {
      calls := calls + 1;
      if oracle.fails(calls) {
        NullIsDead();
        assert live - {NULL} == live;
        return NULL;
      }
      NullIsDead();
      Appended(log, Allocated(next));
      p := next;
      live := live[p := contents];
      log := log + [Allocated(p)];
      next := next + 1;
    }

    /** `free`: freeing a block twice, or one never allocated, is an error of the caller. */
    method Free(p: nat)
      requires Valid() && p in live
      modifies this`live, this`log
      ensures Valid() && live == old(live) - {p}
    {
      Appended(log, Freed(p));
      live := live - {p};
      log := log + [Freed(p)];
    }

    method Copy(p: nat, bytes: Bytes)
      requires Valid() && p in live && |live[p]| == |bytes|
      modifies this`live
      ensures Valid() && live == old(live)[p := bytes]
    {
      live := live[p := bytes];
    }

    /** SDK destructors accept null. */
    method Destroy(p: nat)
      requires Valid() && (p == NULL || p in live)
      modifies this`live, this`log
      ensures Valid() && live == old(live) - {p}
    {
      NullIsDead();
      if p != NULL {
        Free(p);
      }
    }

    method LibraryInit()
      modifies this`depth
      ensures depth == old(depth) + 1
    {
      depth := depth + 1;
    }

    method LibraryCleanUp()
      requires depth > 0
      modifies this`depth
      ensures depth == old(depth) - 1
    {
      depth := depth - 1;
    }

    method SeedEntropy() returns (ok: bool)
      requires depth > 0
      modifies this`calls
      ensures ok == !oracle.fails(calls) && calls == old(calls) + 1
    {
      calls := calls + 1;
      ok := !oracle.fails(calls);
    }

    /** Fills a byte buffer, which stays empty when there are no bytes or no memory. */
    method FillByteBuf(bytes: Bytes) returns (buffer: ByteBuf)
      requires Valid()
      modifies this`live, this`next, this`calls, this`log
      ensures Valid() && next >= old(next) && Holds(live, buffer)
      ensures Owns(old(live), live, Blocks({buffer.data}))
      ensures calls == old(calls) + 1 && (!oracle.fails(calls) ==> BytesIn(live, buffer) == bytes)
    {
      var p := Allocate(bytes);
      NullIsDead();
      OwnsOne(old(live), live, p);
      buffer := if p == NULL then EMPTY_BUF else ByteBuf(p, |bytes|);
    }

    /** GenerateDataKey or Decrypt: on success the buffers hold what was delivered; on failure they hold anything. */
    method CallKms(client: nat, both: bool) returns (ok: bool, plain: ByteBuf, encrypted: ByteBuf)
      requires Valid() && depth > 0 && client in live
      modifies this`live, this`next, this`calls, this`log, this`delivered
      ensures Valid() && next >= old(next) && Holds(live, plain) && Holds(live, encrypted)
      ensures plain.data == encrypted.data ==> plain.data == NULL
      ensures Owns(old(live), live, Blocks({plain.data, encrypted.data}))
      ensures ok ==> delivered == (BytesIn(live, plain), BytesIn(live, encrypted))
      ensures !both ==> encrypted == EMPTY_BUF
      ensures calls > old(calls) && ok == !oracle.fails(old(calls) + 1)
      ensures NoFailure(oracle, old(calls), calls) ==>
                delivered == (oracle.plain(old(calls) + 1), if both then oracle.encrypted(old(calls) + 1) else [])
    {
      calls := calls + 1;
      ok := !oracle.fails(calls);
      var call := calls;
      plain := FillByteBuf(oracle.plain(calls));
      ghost var middle := live;
      encrypted := EMPTY_BUF;
      if both {
        encrypted := FillByteBuf(oracle.encrypted(call));
        OwnsMore(old(live), middle, live, Blocks({plain.data}), Blocks({encrypted.data}));
        assert Blocks({plain.data, encrypted.data}) == Blocks({plain.data}) + Blocks({encrypted.data});
        OwnedElsewhere(middle, live, encrypted.data, plain);
      } else {
        assert Blocks({plain.data, encrypted.data}) == Blocks({plain.data});
      }
      delivered := (BytesIn(live, plain), BytesIn(live, encrypted));
    }
  }

  lemma NextPositive(log: seq<Event>, next: nat)
    requires Proper(log, next)
    ensures next > 0
    decreases |log|
  {
    if log != [] && log[|log| - 1].Freed? { NextPositive(log[..|log| - 1], next); }
  }

  /** Inner blocks may be released while outer ones, allocated later, are kept. */
  lemma OwnsWithout(a: map<nat, Bytes>, b: map<nat, Bytes>, c: map<nat, Bytes>, inner: set<nat>, outer: set<nat>)
    requires Owns(a, b, inner) && Owns(b, c, outer)
    ensures Owns(a, c - inner, outer)
  {
    assert (c - inner) - outer == (c - outer) - inner;
    assert inner !! outer;
  }

  lemma OwnsNone(before: map<nat, Bytes>, live: map<nat, Bytes>)
    ensures live - {} == live
    ensures Owns(before, live, {}) <==> before == live
  {
    assert live - {} == live;
  }

  // ----- the shim -----

  /** A buffer that crosses the language boundary. */
  class NativeBuffer {
    var data: nat
    var len: nat

    constructor ()
      ensures Null()
    {
      data, len := NULL, 0;
    }

    function AsBuf(): ByteBuf
      reads this
    {
      ByteBuf(data, len)
    }

    predicate Null()
      reads this
    {
      data == NULL && len == 0
    }
  }

  class ClientState {
    var region: nat
    var accessKeyId: nat
    var secretAccessKey: nat
    var sessionToken: nat
    var credentials: nat
    var client: nat

    constructor ()
      ensures Cleared()
    {
      region, accessKeyId, secretAccessKey, sessionToken, credentials, client := NULL, NULL, NULL, NULL, NULL, NULL;
    }

    predicate Cleared()
      reads this
    {
      && region == NULL && accessKeyId == NULL && secretAccessKey == NULL && sessionToken == NULL
      && credentials == NULL && client == NULL
    }

    /** The fields hold distinct blocks, in the order of their construction, over what was live before. */
    ghost predicate Built(before: map<nat, Bytes>, live: map<nat, Bytes>)
      reads this
    {
      var l5 := live - {client};
      var l4 := l5 - {credentials};
      && Held(live, client) && Held(l5, credentials) && BuiltStrings(before, l4)
    }

    ghost predicate BuiltStrings(before: map<nat, Bytes>, live: map<nat, Bytes>)
      reads this`region, this`accessKeyId, this`secretAccessKey, this`sessionToken
    {
      var l3 := live - {sessionToken};
      var l2 := l3 - {secretAccessKey};
      var l1 := l2 - {accessKeyId};
      && Held(live, sessionToken) && Held(l3, secretAccessKey) && Held(l2, accessKeyId) && Held(l1, region)
      && l1 - {region} == before
    }

    /** Releases whatever is held, in whatever state of construction, beside some other blocks; closes the library. */
    method CleanClient(m: Machine, ghost before: map<nat, Bytes>, ghost beside: set<nat>)
      requires m.Valid() && m.depth > 0 && beside <= m.live.Keys && Built(before, m.live - beside)
      modifies this, m`live, m`log, m`depth
      ensures m.Valid() && m.depth == old(m.depth) - 1 && Owns(before, m.live, beside) && Cleared()
      ensures forall q :: q in beside ==> m.live[q] == old(m.live)[q]
    {
      hide Machine.Valid;
      hide BuiltStrings;
      m.NullIsDead();
      assert m.live - {NULL} == m.live;
      if client != NULL {
        m.Free(client);
      }
      ghost var l5 := m.live;
      assert l5 == old(m.live) - {client} && l5 - {NULL} == l5;
      Beside(old(m.live), beside, client);
      if credentials != NULL {
        m.Free(credentials);
      }
      assert m.live == l5 - {credentials};
      Beside(l5, beside, credentials);
      ReleaseStrings(m, before, beside);
      m.LibraryCleanUp();
      Clear();
    }

    method ReleaseStrings(m: Machine, ghost before: map<nat, Bytes>, ghost beside: set<nat>)
      requires m.Valid() && beside <= m.live.Keys && BuiltStrings(before, m.live - beside)
      modifies m`live, m`log
      ensures m.Valid() && Owns(before, m.live, beside)
      ensures forall q :: q in beside ==> m.live[q] == old(m.live)[q]
    {
      hide Machine.Valid;
      m.NullIsDead();
      Beside(m.live, beside, sessionToken);
      m.Destroy(sessionToken);
      Beside(m.live, beside, secretAccessKey);
      m.Destroy(secretAccessKey);
      Beside(m.live, beside, accessKeyId);
      m.Destroy(accessKeyId);
      Beside(m.live, beside, region);
      m.Destroy(region);
    }

    method Clear()
      modifies this
      ensures Cleared()
    {
      region, accessKeyId, secretAccessKey, sessionToken, credentials, client := NULL, NULL, NULL, NULL, NULL, NULL;
    }

    method NewStrings(m: Machine)
      requires m.Valid()
      modifies this`region, this`accessKeyId, this`secretAccessKey, this`sessionToken, m`live, m`next, m`calls, m`log
      ensures m.Valid() && m.next >= old(m.next) && BuiltStrings(old(m.live), m.live)
      ensures m.calls == old(m.calls) + 4
      ensures NoFailure(m.oracle, old(m.calls), m.calls) ==>
                region != NULL && accessKeyId != NULL && secretAccessKey != NULL && sessionToken != NULL
    {
      hide Machine.Valid;
      region := m.Allocate([]);
      accessKeyId := m.Allocate([]);
      secretAccessKey := m.Allocate([]);
      sessionToken := m.Allocate([]);
    }

    /** Clean-up with nothing beside the client. */
    method Abandon(m: Machine, ghost before: map<nat, Bytes>)
      requires m.Valid() && m.depth > 0 && Built(before, m.live)
      modifies this, m`live, m`log, m`depth
      ensures m.Valid() && m.depth == old(m.depth) - 1 && m.live == before
    {
      hide Machine.Valid;
      OwnsNone(before, m.live);
      CleanClient(m, before, {});
      OwnsNone(before, m.live);
    }

    /** Either everything is built and the library stays open, or nothing is left. */
    method InitClient(m: Machine) returns (rc: int)
      requires m.Valid()
      modifies this, m`live, m`next, m`calls, m`log, m`depth
      ensures m.Valid() && m.next >= old(m.next)
      ensures rc == 0 ==> Built(old(m.live), m.live) && client != NULL && m.depth == old(m.depth) + 1
      ensures rc != 0 ==> m.live == old(m.live) && m.depth == old(m.depth)
      ensures m.calls > old(m.calls) && (NoFailure(m.oracle, old(m.calls), m.calls) ==> rc == 0)
    {
      hide Machine.Valid;
      hide BuiltStrings;
      ghost var before := m.live;
      Clear();
      ClearedIsBuilt(m);
      m.LibraryInit();
      var seeded := m.SeedEntropy();
      if !seeded {
        Abandon(m, before);
        return -1;
      }
      NewStrings(m);
      m.NullIsDead();
      assert m.live - {NULL} == m.live;
      if region == NULL || accessKeyId == NULL || secretAccessKey == NULL || sessionToken == NULL {
        Abandon(m, before);
        return -1;
      }
      rc := NewHandles(m, before);
    }

    /** Credentials and client, on top of the strings. */
    method NewHandles(m: Machine, ghost before: map<nat, Bytes>) returns (rc: int)
      requires m.Valid() && m.depth > 0 && BuiltStrings(before, m.live) && client == NULL
      modifies this, m`live, m`next, m`calls, m`log, m`depth
      ensures m.Valid() && m.next >= old(m.next)
      ensures rc == 0 ==> Built(before, m.live) && client != NULL && m.depth == old(m.depth)
      ensures rc != 0 ==> m.live == before && m.depth == old(m.depth) - 1
      ensures m.calls > old(m.calls) && (NoFailure(m.oracle, old(m.calls), m.calls) ==> rc == 0)
    {
      hide Machine.Valid;
      hide BuiltStrings;
      ghost var l4 := m.live;
      credentials := m.Allocate([]);
      assert m.live - {credentials} == l4;
      m.NullIsDead();
      assert m.live - {NULL} == m.live;
      if credentials == NULL {
        Abandon(m, before);
        return -1;
      }
      ghost var l5 := m.live;
      client := m.Allocate([]);
      assert m.live - {client} == l5;
      if client == NULL {
        Abandon(m, before);
        return -1;
      }
      return 0;
    }

    lemma ClearedIsBuilt(m: Machine)
      requires m.Valid() && Cleared()
      ensures Built(m.live, m.live)
    {
      m.NullIsDead();
      assert m.live - {NULL} == m.live;
    }
  }

  method CopyBuffer(m: Machine, source: ByteBuf, target: NativeBuffer) returns (rc: int)
    requires m.Valid() && Holds(m.live, source)
    modifies target, m`live, m`next, m`calls, m`log
    ensures m.Valid() && m.next >= old(m.next)
    ensures Owns(old(m.live), m.live, Blocks({target.data}))
    ensures rc == 0 ==> Holds(m.live, target.AsBuf()) && BytesIn(m.live, target.AsBuf()) == BytesIn(old(m.live), source)
    ensures rc != 0 ==> target.Null()
    ensures m.calls >= old(m.calls) && (NoFailure(m.oracle, old(m.calls), m.calls) ==> rc == 0)
  {
    target.data, target.len := NULL, 0;
    m.NullIsDead();
    if source.len == 0 {
      assert m.live - {} == m.live;
      return 0;
    }
    target.data := m.Allocate(seq(source.len, _ => 0));
    m.NullIsDead();
    OwnsOne(old(m.live), m.live, target.data);
    if target.data == NULL {
      return -1;
    }
    m.Copy(target.data, m.live[source.data]);
    target.len := source.len;
    return 0;
  }

  /** `nkms_buffer_free`: wipes, frees and clears; null buffers are left alone. */
  method BufferFree(m: Machine, buffer: NativeBuffer?)
    requires m.Valid() && (buffer != null ==> Holds(m.live, buffer.AsBuf()))
    modifies m`live, m`log, buffer
    ensures m.Valid()
    ensures buffer == null ==> m.live == old(m.live)
    ensures buffer != null ==> buffer.Null() && m.live == old(m.live) - {old(buffer.data)}
  {
    m.NullIsDead();
    if buffer != null && buffer.data != NULL {
      m.Copy(buffer.data, seq(buffer.len, _ => 0));
      m.Free(buffer.data);
      buffer.data, buffer.len := NULL, 0;
    }
  }

  /** Copies both SDK buffers out, or neither. */
  method CopyBoth(m: Machine, plain: ByteBuf, encrypted: ByteBuf, plaintext: NativeBuffer, ciphertext: NativeBuffer)
    returns (ok: bool)
    requires m.Valid() && Holds(m.live, plain) && Holds(m.live, encrypted)
    requires plaintext != ciphertext && ciphertext.Null()
    modifies plaintext, ciphertext, m`live, m`next, m`calls, m`log
    ensures m.Valid() && m.next >= old(m.next)
    ensures ok ==> Delivers(old(m.live), m.live, BytesIn(old(m.live), plain), BytesIn(old(m.live), encrypted),
                            plaintext.AsBuf(), ciphertext.AsBuf())
    ensures !ok ==> m.live == old(m.live) && plaintext.Null() && ciphertext.Null()
    ensures m.calls >= old(m.calls) && (NoFailure(m.oracle, old(m.calls), m.calls) ==> ok)
  {
    hide Machine.Valid;
    m.NullIsDead();
    ghost var l0 := m.live;
    var rc := CopyBuffer(m, plain, plaintext);
    ghost var l1 := m.live;
    m.NullIsDead();
    if rc == 0 {
      assert BytesIn(l1, encrypted) == BytesIn(l0, encrypted) by { OwnedElsewhere(l0, l1, plaintext.data, encrypted); }
      rc := CopyBuffer(m, encrypted, ciphertext);
      m.NullIsDead();
      if rc == 0 {
        DeliversBoth(l0, l1, m.live, plaintext.AsBuf(), ciphertext.AsBuf());
        return true;
      }
      assert m.live == l1 by { assert m.live - {} == m.live; }
    }
    BufferFree(m, plaintext);
    BufferFree(m, ciphertext);
    return false;
  }

  /** The call and the copies, with the SDK's own buffers released in the end. */
  method GenerateInto(m: Machine, client: nat, plaintext: NativeBuffer, ciphertext: NativeBuffer) returns (ok: bool)
    requires m.Valid() && m.depth > 0 && client in m.live && plaintext != ciphertext
    requires plaintext.Null() && ciphertext.Null()
    modifies plaintext, ciphertext, m`live, m`next, m`calls, m`log, m`delivered
    ensures m.Valid() && m.next >= old(m.next)
    ensures ok ==> Delivers(old(m.live), m.live, m.delivered.0, m.delivered.1, plaintext.AsBuf(), ciphertext.AsBuf())
    ensures !ok ==> m.live == old(m.live) && plaintext.Null() && ciphertext.Null()
    ensures m.calls > old(m.calls) && (NoFailure(m.oracle, old(m.calls), m.calls) ==> ok)
    ensures ok && NoFailure(m.oracle, old(m.calls), m.calls) ==>
              m.delivered == (m.oracle.plain(old(m.calls) + 1), m.oracle.encrypted(old(m.calls) + 1))
  {
    hide Machine.Valid;
    hide Delivers;
    ghost var l0 := m.live;
    var plain, encrypted;
    ok, plain, encrypted := m.CallKms(client, true);
    ghost var l1, inner := m.live, Blocks({plain.data, encrypted.data});
    m.NullIsDead();
    if ok {
      ok := CopyBoth(m, plain, encrypted, plaintext, ciphertext);
      if ok {
        DeliversWithout(l0, l1, m.live, inner, m.delivered.0, m.delivered.1, plaintext.AsBuf(), ciphertext.AsBuf());
        DeliversKeeps(l1, m.live, m.delivered.0, m.delivered.1, plaintext.AsBuf(), ciphertext.AsBuf());
      }
    }
    ghost var l2 := m.live;
    m.NullIsDead();
    m.Destroy(plain.data);
    m.Destroy(encrypted.data);
    assert m.live == l2 - inner;
  }

  /** The call and the copy of the one result; the request buffer belongs to the caller. */
  method DecryptInto(m: Machine, client: nat, plaintext: NativeBuffer) returns (ok: bool)
    requires m.Valid() && m.depth > 0 && client in m.live && plaintext.Null()
    modifies plaintext, m`live, m`next, m`calls, m`log, m`delivered
    ensures m.Valid() && m.next >= old(m.next)
    ensures ok ==> Delivers(old(m.live), m.live, m.delivered.0, [], plaintext.AsBuf(), EMPTY_BUF)
    ensures !ok ==> m.live == old(m.live) && plaintext.Null()
    ensures m.calls > old(m.calls) && (NoFailure(m.oracle, old(m.calls), m.calls) ==> ok)
  {
    hide Machine.Valid;
    hide Delivers;
    ghost var l0 := m.live;
    var plain, unused;
    ok, plain, unused := m.CallKms(client, false);
    ghost var l1, inner := m.live, Blocks({plain.data, unused.data});
    m.NullIsDead();
    if ok {
      var rc := CopyBuffer(m, plain, plaintext);
      ok := rc == 0;
      m.NullIsDead();
      if ok {
        OwnsNothing(m.live);
        DeliversBoth(l1, m.live, m.live, plaintext.AsBuf(), EMPTY_BUF);
        DeliversWithout(l0, l1, m.live, inner, m.delivered.0, [], plaintext.AsBuf(), EMPTY_BUF);
        DeliversKeeps(l1, m.live, m.delivered.0, [], plaintext.AsBuf(), EMPTY_BUF);
      } else {
        OwnsNothing(l1);
      }
    }
    ghost var l2 := m.live;
    m.Destroy(plain.data);
    assert m.live == l2 - inner;
  }

  /**
   * `nkms_generate_data_key`, at every failure point: an error leaves nothing live and both buffers null; success
   * leaves exactly the two buffers, holding what the SDK delivered. The library is closed again either way.
   */
  method GenerateDataKey(m: Machine, keyBits: nat, plaintext: NativeBuffer, ciphertext: NativeBuffer) returns (rc: int)
    requires m.Valid() && plaintext != ciphertext
    modifies plaintext, ciphertext, m`live, m`next, m`calls, m`log, m`delivered, m`depth
    ensures m.Valid() && m.next >= old(m.next) && m.depth == old(m.depth)
    ensures rc == 0 ==> Delivers(old(m.live), m.live, m.delivered.0, m.delivered.1, plaintext.AsBuf(), ciphertext.AsBuf())
    ensures rc != 0 ==> m.live == old(m.live) && plaintext.Null() && ciphertext.Null()
    ensures rc == 0 ==> keyBits == 128 || keyBits == 256
    ensures m.calls > old(m.calls)
    ensures NoFailure(m.oracle, old(m.calls), m.calls) ==> (rc == 0 <==> keyBits == 128 || keyBits == 256)
  {
    hide Machine.Valid;
    hide Delivers;
    hide ClientState.BuiltStrings;
    ghost var l0 := m.live;
    plaintext.data, plaintext.len := NULL, 0;
    ciphertext.data, ciphertext.len := NULL, 0;
    var state := new ClientState();
    var initialised := state.InitClient(m);
    if initialised != 0 {
      return -1;
    }
    ghost var l1 := m.live;
    var kmsKeyId := m.Allocate([]);
    ghost var l2 := m.live;
    rc := -1;
    ghost var kept: set<nat> := {};
    OwnsNone(l2, l2);
    if kmsKeyId != NULL && (keyBits == 128 || keyBits == 256) {
      var ok := GenerateInto(m, state.client, plaintext, ciphertext);
      if ok {
        rc := 0;
        kept := Blocks({plaintext.data, ciphertext.data});
        DeliversKeeps(l2, m.live, m.delivered.0, m.delivered.1, plaintext.AsBuf(), ciphertext.AsBuf());
      }
    }
    ghost var l3 := m.live;
    m.NullIsDead();
    Settled(l1, l2, l3, kmsKeyId, kept);
    m.Destroy(kmsKeyId);
    state.CleanClient(m, l0, kept);
    if rc == 0 {
      DeliversMoved(l2, l3, l0, m.live, m.delivered.0, m.delivered.1, plaintext.AsBuf(), ciphertext.AsBuf());
    }
    OwnsNone(l0, m.live);
  }

  /** `nkms_decrypt_data_key`, likewise, with an optional encryption context. */
  method DecryptDataKey(m: Machine, hasContext: bool, plaintext: NativeBuffer) returns (rc: int)
    requires m.Valid()
    modifies plaintext, m`live, m`next, m`calls, m`log, m`delivered, m`depth
    ensures m.Valid() && m.next >= old(m.next) && m.depth == old(m.depth)
    ensures rc == 0 ==> Delivers(old(m.live), m.live, m.delivered.0, [], plaintext.AsBuf(), EMPTY_BUF)
    ensures rc != 0 ==> m.live == old(m.live) && plaintext.Null()
    ensures m.calls > old(m.calls) && (NoFailure(m.oracle, old(m.calls), m.calls) ==> rc == 0)
  {
    hide Machine.Valid;
    hide Delivers;
    hide ClientState.BuiltStrings;
    ghost var l0 := m.live;
    plaintext.data, plaintext.len := NULL, 0;
    var state := new ClientState();
    var initialised := state.InitClient(m);
    if initialised != 0 {
      return -1;
    }
    ghost var l1 := m.live;
    m.NullIsDead();
    OwnsNone(l1, l1);
    assert l1 - {NULL} == l1;
    var context := NULL;
    if hasContext {
      context := m.Allocate([]);
    }
    ghost var l2 := m.live;
    rc := -1;
    ghost var kept: set<nat> := {};
    OwnsNone(l2, l2);
    if !hasContext || context != NULL {
      var ok := DecryptInto(m, state.client, plaintext);
      if ok {
        rc := 0;
        kept := Blocks({plaintext.data, EMPTY_BUF.data});
        DeliversKeeps(l2, m.live, m.delivered.0, [], plaintext.AsBuf(), EMPTY_BUF);
      }
    }
    ghost var l3 := m.live;
    m.NullIsDead();
    Settled(l1, l2, l3, context, kept);
    m.Destroy(context);
    state.CleanClient(m, l0, kept);
    if rc == 0 {
      DeliversMoved(l2, l3, l0, m.live, m.delivered.0, [], plaintext.AsBuf(), EMPTY_BUF);
    }
    OwnsNone(l0, m.live);
  }

  // ----- the Rust half -----

  /** `take_native_buffer`: copies the bytes out and gives the block back. */
  method TakeNativeBuffer(m: Machine, buffer: NativeBuffer) returns (bytes: Bytes)
    requires m.Valid() && Holds(m.live, buffer.AsBuf())
    modifies m`live, m`log, buffer
    ensures m.Valid() && buffer.Null() && m.live == old(m.live) - {old(buffer.data)}
    ensures bytes == BytesIn(old(m.live), old(buffer.AsBuf()))
  {
    bytes := if buffer.data == NULL || buffer.len == 0 then [] else m.live[buffer.data];
    BufferFree(m, buffer);
  }

  /** Every block allocated since then has been freed, exactly once. */
  ghost predicate AllReturned(log: seq<Event>, start: nat, end: nat) {
    forall p :: start <= p < end ==> Count(log, Allocated(p)) == 1 && Count(log, Freed(p)) == 1
  }

  lemma ReturnedSince(m: Machine, before: map<nat, Bytes>, start: nat)
    requires m.Valid() && m.live == before && 1 <= start && forall p :: p in before ==> p < start
    ensures AllReturned(m.log, start, m.next)
  {
    forall p: nat | start <= p < m.next ensures Count(m.log, Allocated(p)) == 1 && Count(m.log, Freed(p)) == 1 {
      FreedExactlyOnce(m.log, m.next, p);
    }
  }

  lemma LiveBelowNext(m: Machine)
    requires m.Valid()
    ensures m.next >= 1 && forall p :: p in m.live ==> p < m.next
  {
    m.NullIsDead();
    forall p | p in m.live ensures p < m.next {
      FreedExactlyOnce(m.log, m.next, p);
    }
  }

  /** Both halves together: whatever fails, nothing leaks and nothing is freed twice; success returns the SDK's bytes. */
  method GenerateFromRust(m: Machine, keyBits: nat) returns (r: Option<(Bytes, Bytes)>)
    requires m.Valid()
    modifies m`live, m`next, m`calls, m`log, m`delivered, m`depth
    ensures m.Valid() && m.live == old(m.live) && m.depth == old(m.depth)
    ensures AllReturned(m.log, old(m.next), m.next)
    ensures r.Some? ==> r.value == m.delivered && (keyBits == 128 || keyBits == 256)
    ensures NoFailure(m.oracle, old(m.calls), m.calls) ==> (r.Some? <==> keyBits == 128 || keyBits == 256)
  {
    hide Machine.Valid;
    LiveBelowNext(m);
    ghost var l0, start := m.live, m.next;
    var plaintext := new NativeBuffer();
    var ciphertext := new NativeBuffer();
    var rc := GenerateDataKey(m, keyBits, plaintext, ciphertext);
    if rc != 0 {
      ReturnedSince(m, l0, start);
      return None;
    }
    m.NullIsDead();
    ghost var l1, a, b := m.live, plaintext.AsBuf(), ciphertext.AsBuf();
    OwnsNone(l1, l1);
    var plaintextDataKey := TakeNativeBuffer(m, plaintext);
    var encryptedDataKey := TakeNativeBuffer(m, ciphertext);
    assert m.live == l1 - Blocks({a.data, b.data});
    ReturnedSince(m, l0, start);
    return Some((plaintextDataKey, encryptedDataKey));
  }

  method DecryptFromRust(m: Machine, hasContext: bool) returns (r: Option<Bytes>)
    requires m.Valid()
    modifies m`live, m`next, m`calls, m`log, m`delivered, m`depth
    ensures m.Valid() && m.live == old(m.live) && m.depth == old(m.depth)
    ensures AllReturned(m.log, old(m.next), m.next)
    ensures r.Some? ==> r.value == m.delivered.0
    ensures NoFailure(m.oracle, old(m.calls), m.calls) ==> r.Some?
  {
    hide Machine.Valid;
    LiveBelowNext(m);
    ghost var l0, start := m.live, m.next;
    var plaintext := new NativeBuffer();
    var rc := DecryptDataKey(m, hasContext, plaintext);
    if rc != 0 {
      ReturnedSince(m, l0, start);
      return None;
    }
    m.NullIsDead();
    ghost var l1, a := m.live, plaintext.AsBuf();
    var plaintextDataKey := TakeNativeBuffer(m, plaintext);
    assert m.live == l1 - Blocks({a.data, EMPTY_BUF.data});
    ReturnedSince(m, l0, start);
    return Some(plaintextDataKey);
  }
}
