/** A wallet's session store as its owner means it: for each program a temporary key with an expiry
    and a queue of at most five persisted keys, oldest first. */
module Sessions {
  import opened Base

  const RING: nat := 5
  const SESSION_HEADER: nat := 48
  const PROGRAM_ENTRY: nat := 232

  datatype Grants = Grants(temporary: Key, expiresAt: i64, queue: seq<Key>)

  datatype Store = Store(owner: Key, programs: map<Key, Grants>)

  const NO_GRANTS := Grants(ZERO_KEY, 0, [])

  ghost predicate GrantsOk(g: Grants) {
    && |g.queue| <= RING
    && (forall i :: 0 <= i < |g.queue| ==> g.queue[i] != ZERO_KEY)
    && (forall i, j :: 0 <= i < j < |g.queue| ==> g.queue[i] != g.queue[j])
  }

  function Space(programs: nat): nat {
    SESSION_HEADER + programs * PROGRAM_ENTRY
  }

  /** Nothing changes for a key in the queue; any other joins the back, and if the queue is full the
      oldest makes room. */
  function Enqueue(queue: seq<Key>, key: Key): seq<Key> {
    if key in queue then queue
    else if |queue| < RING then queue + [key]
    else queue[1..] + [key]
  }

  function Without(queue: seq<Key>, key: Key): seq<Key> {
    if queue == [] then []
    else (if queue[0] == key then [] else [queue[0]]) + Without(queue[1..], key)
  }

  function GrantKey(g: Grants, key: Key, expiresAt: i64): Grants {
    if expiresAt == 0 then g.(queue := Enqueue(g.queue, key))
    else g.(temporary := key, expiresAt := expiresAt)
  }

  function RevokeKey(g: Grants, key: Key): Grants {
    Grants(
      if g.temporary == key then ZERO_KEY else g.temporary,
      if g.temporary == key then 0 else g.expiresAt,
      Without(g.queue, key))
  }

  predicate GrantsAllow(g: Grants, key: Key, now: i64) {
    (g.temporary == key && now < g.expiresAt) || key in g.queue
  }

  /** The store honours `key` for `program` at time `now`. */
  predicate Allows(s: Store, key: Key, program: Key, now: i64) {
    key != ZERO_KEY && program in s.programs && GrantsAllow(s.programs[program], key, now)
  }

  function ProgramGrants(s: Store, program: Key): Grants {
    if program in s.programs then s.programs[program] else NO_GRANTS
  }

  lemma {:induction false} WithoutMembers(queue: seq<Key>, key: Key)
    ensures forall k :: k in Without(queue, key) <==> k in queue && k != key
    ensures |Without(queue, key)| <= |queue|
  {
    if queue != [] {
      WithoutMembers(queue[1..], key);
      assert queue == [queue[0]] + queue[1..];
    }
  }

  lemma {:induction false} WithoutKeepsDistinct(queue: seq<Key>, key: Key)
    requires forall i, j :: 0 <= i < j < |queue| ==> queue[i] != queue[j]
    ensures var w := Without(queue, key); forall i, j :: 0 <= i < j < |w| ==> w[i] != w[j]
  {
    if queue != [] {
      WithoutKeepsDistinct(queue[1..], key);
      WithoutMembers(queue[1..], key);
      assert queue[0] !in queue[1..];
      assert queue[0] !in Without(queue[1..], key);
    }
  }

  lemma GrantKeepsOk(g: Grants, key: Key, expiresAt: i64)
    requires GrantsOk(g) && key != ZERO_KEY
    ensures GrantsOk(GrantKey(g, key, expiresAt))
  {
  }

  lemma RevokeKeepsOk(g: Grants, key: Key)
    requires GrantsOk(g)
    ensures GrantsOk(RevokeKey(g, key))
  {
    WithoutMembers(g.queue, key);
    WithoutKeepsDistinct(g.queue, key);
    var w := Without(g.queue, key);
    forall i | 0 <= i < |w|
      ensures w[i] != ZERO_KEY
    {
      assert w[i] in w;
    }
  }

  /** A granted key consents until its expiry; a revoked one does not consent at all. */
  lemma GrantThenRevoke(g: Grants, key: Key, expiresAt: i64, now: i64)
    requires key != ZERO_KEY && (expiresAt == 0 || now < expiresAt)
    ensures GrantsAllow(GrantKey(g, key, expiresAt), key, now)
    ensures !GrantsAllow(RevokeKey(g, key), key, now)
    ensures forall k :: k != key && k != ZERO_KEY ==>
              (GrantsAllow(RevokeKey(g, key), k, now) <==> GrantsAllow(g, k, now))
  {
    WithoutMembers(g.queue, key);
  }
}
