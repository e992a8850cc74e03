/** The session store as its account holds it: one entry per program, each with a ring of five keys
    padded with zero keys. Read as an owner means it, it is the store of Sessions. */
module SessionTable {
  import opened Base
  import opened Sessions

  datatype ProgramEntry = ProgramEntry(program: Key, temporary: Key, expiresAt: i64, ring: seq<Key>)

  datatype SessionData = SessionData(owner: Key, bump: byte, entries: seq<ProgramEntry>)

  // ---- The ring ----

  /** Full slots first, then zero keys; no key twice. */
  ghost predicate Packed(ring: seq<Key>) {
    && |ring| == RING
    && (forall i, j :: 0 <= i < j < |ring| && ring[i] == ZERO_KEY ==> ring[j] == ZERO_KEY)
    && (forall i, j :: 0 <= i < j < |ring| && ring[i] != ZERO_KEY ==> ring[i] != ring[j])
  }

  function FirstFree(ring: seq<Key>, from: nat): (r: Option<nat>)
    requires from <= |ring|
    ensures r.Some? ==> from <= r.value < |ring| && ring[r.value] == ZERO_KEY
    ensures r.Some? ==> forall i :: from <= i < r.value ==> ring[i] != ZERO_KEY
    ensures r.None? ==> forall i :: from <= i < |ring| ==> ring[i] != ZERO_KEY
    decreases |ring| - from
  {
    if from == |ring| then None
    else if ring[from] == ZERO_KEY then Some(from)
    else FirstFree(ring, from + 1)
  }

  function GrantRing(ring: seq<Key>, key: Key): (r: seq<Key>)
    requires |ring| == RING
    ensures |r| == RING
  {
    if key in ring then ring
    else
      match FirstFree(ring, 0)
      case Some(i) => ring[i := key]
      case None => ring[1..] + [key]
  }

  /** The keys of a ring other than `key`, in order and without the padding. */
  function Kept(ring: seq<Key>, key: Key): (r: seq<Key>)
    ensures |r| <= |ring|
  {
    if ring == [] then []
    else
      var last := ring[|ring| - 1];
      Kept(ring[..|ring| - 1], key) + (if last != key && last != ZERO_KEY then [last] else [])
  }

  function Padding(n: nat): seq<Key> {
    seq(n, i => ZERO_KEY)
  }

  function RevokeRing(ring: seq<Key>, key: Key): (r: seq<Key>)
    requires |ring| == RING
    ensures |r| == RING
  {
    Kept(ring, key) + Padding(RING - |Kept(ring, key)|)
  }

  /** The queue a ring stands for. */
  function Queue(ring: seq<Key>): seq<Key> {
    Kept(ring, ZERO_KEY)
  }

  lemma {:induction false} KeptOfFull(ring: seq<Key>, n: nat)
    requires n <= |ring|
    requires forall i :: 0 <= i < n ==> ring[i] != ZERO_KEY
    requires forall i :: n <= i < |ring| ==> ring[i] == ZERO_KEY
    ensures Queue(ring) == ring[..n]
    decreases |ring|
  {
    if ring != [] {
      var rest := ring[..|ring| - 1];
      if n == |ring| {
        KeptOfFull(rest, n - 1);
        assert ring[..n] == rest[..n - 1] + [ring[n - 1]];
      } else {
        KeptOfFull(rest, n);
        assert ring[..n] == rest[..n];
      }
    }
  }

  /** A packed ring is its queue and then padding. */
  lemma PackedIsQueue(ring: seq<Key>) returns (n: nat)
    requires Packed(ring)
    ensures n == |Queue(ring)| <= RING && ring == Queue(ring) + Padding(RING - n)
    ensures Queue(ring) == ring[..n]
    ensures n < RING ==> FirstFree(ring, 0) == Some(n)
    ensures n == RING ==> FirstFree(ring, 0) == None
  {
    var free := FirstFree(ring, 0);
    n := if free.Some? then free.value else RING;
    KeptOfFull(ring, n);
    assert ring == ring[..n] + Padding(RING - n);
  }

  lemma QueueMembers(ring: seq<Key>, key: Key)
    requires Packed(ring) && key != ZERO_KEY
    ensures key in ring <==> key in Queue(ring)
  {
    var n := PackedIsQueue(ring);
    assert forall i :: n <= i < RING ==> ring[i] == ZERO_KEY;
  }

  lemma FromQueue(queue: seq<Key>, ring: seq<Key>)
    requires |queue| <= RING && ring == queue + Padding(RING - |queue|)
    requires forall i :: 0 <= i < |queue| ==> queue[i] != ZERO_KEY
    requires forall i, j :: 0 <= i < j < |queue| ==> queue[i] != queue[j]
    ensures Packed(ring) && Queue(ring) == queue
  {
    KeptOfFull(ring, |queue|);
  }

  lemma QueueIsClean(ring: seq<Key>)
    requires Packed(ring)
    ensures var q := Queue(ring);
            && |q| <= RING
            && (forall i :: 0 <= i < |q| ==> q[i] != ZERO_KEY)
            && (forall i, j :: 0 <= i < j < |q| ==> q[i] != q[j])
  {
    var n := PackedIsQueue(ring);
  }

  /** Granting on the ring is joining the queue: nothing for a key already there, the back of a short
      queue, the place of the oldest in a full one. */
  lemma GrantRefines(ring: seq<Key>, key: Key)
    requires Packed(ring) && key != ZERO_KEY
    ensures Packed(GrantRing(ring, key)) && Queue(GrantRing(ring, key)) == Enqueue(Queue(ring), key)
  {
    var n := PackedIsQueue(ring);
    QueueMembers(ring, key);
    if key !in ring {
      QueueIsClean(ring);
      var queue := Enqueue(Queue(ring), key);
      assert GrantRing(ring, key) == queue + Padding(RING - |queue|);
      FromQueue(queue, GrantRing(ring, key));
    }
  }

  lemma {:induction false} KeptIsWithout(ring: seq<Key>, key: Key)
    ensures Kept(ring, key) == Without(Queue(ring), key)
    decreases |ring|
  {
    if ring != [] {
      var rest, last := ring[..|ring| - 1], ring[|ring| - 1];
      KeptIsWithout(rest, key);
      WithoutAppend(Queue(rest), last, key);
      assert Queue(ring) == if last == ZERO_KEY then Queue(rest) else Queue(rest) + [last];
      assert Kept(ring, key) == if last == ZERO_KEY || last == key then Kept(rest, key) else Kept(rest, key) + [last];
    }
  }

  lemma {:induction false} WithoutAppend(queue: seq<Key>, last: Key, key: Key)
    ensures Without(queue + [last], key) == Without(queue, key) + (if last == key then [] else [last])
  {
    if queue != [] {
      WithoutAppend(queue[1..], last, key);
      assert (queue + [last])[1..] == queue[1..] + [last];
    }
  }

  /** Revoking on the ring takes the key out of the queue, the others closing up in order. */
  lemma RevokeRefines(ring: seq<Key>, key: Key)
    requires Packed(ring)
    ensures Packed(RevokeRing(ring, key)) && Queue(RevokeRing(ring, key)) == Without(Queue(ring), key)
  {
    KeptIsWithout(ring, key);
    QueueIsClean(ring);
    RevokeKeepsOk(Grants(ZERO_KEY, 0, Queue(ring)), key);
    FromQueue(Kept(ring, key), RevokeRing(ring, key));
  }

  datatype RingOp = GrantKeyOp(key: Key) | RevokeKeyOp(key: Key)

  function RunRing(ring: seq<Key>, ops: seq<RingOp>): (r: seq<Key>)
    requires |ring| == RING
    ensures |r| == RING
    decreases |ops|
  {
    if ops == [] then ring
    else
      var r := RunRing(ring, ops[..|ops| - 1]);
      match ops[|ops| - 1]
      case GrantKeyOp(k) => GrantRing(r, k)
      case RevokeKeyOp(k) => RevokeRing(r, k)
  }

  function RunQueue(queue: seq<Key>, ops: seq<RingOp>): seq<Key>
    decreases |ops|
  {
    if ops == [] then queue
    else
      var q := RunQueue(queue, ops[..|ops| - 1]);
      match ops[|ops| - 1]
      case GrantKeyOp(k) => Enqueue(q, k)
      case RevokeKeyOp(k) => Without(q, k)
  }

  /** From an empty ring, under any sequence of grants and revokes, the five slots are a bounded
      first-in-first-out queue: packed, without duplicates, and in the order of the grants. */
  lemma {:induction false} RingIsAQueue(ops: seq<RingOp>)
    requires forall i :: 0 <= i < |ops| ==> ops[i].key != ZERO_KEY
    ensures Packed(RunRing(Padding(RING), ops)) && Queue(RunRing(Padding(RING), ops)) == RunQueue([], ops)
    decreases |ops|
  {
    if ops == [] {
      KeptOfFull(Padding(RING), 0);
    } else {
      var earlier := ops[..|ops| - 1];
      RingIsAQueue(earlier);
      match ops[|ops| - 1]
      case GrantKeyOp(k) => GrantRefines(RunRing(Padding(RING), earlier), k);
      case RevokeKeyOp(k) => RevokeRefines(RunRing(Padding(RING), earlier), k);
    }
  }

  // ---- One program's entry ----

  function NewEntry(program: Key): ProgramEntry {
    ProgramEntry(program, ZERO_KEY, 0, Padding(RING))
  }

  predicate EntryAllows(e: ProgramEntry, key: Key, now: i64) {
    (e.temporary == key && now < e.expiresAt) || key in e.ring
  }

  ghost predicate EntryOk(e: ProgramEntry) {
    Packed(e.ring)
  }

  function GrantsOf(e: ProgramEntry): Grants {
    Grants(e.temporary, e.expiresAt, Queue(e.ring))
  }

  function GrantEntry(e: ProgramEntry, key: Key, expiresAt: i64): ProgramEntry
    requires |e.ring| == RING
  {
    if expiresAt == 0 then e.(ring := GrantRing(e.ring, key))
    else e.(temporary := key, expiresAt := expiresAt)
  }

  function RevokeEntry(e: ProgramEntry, key: Key): ProgramEntry
    requires |e.ring| == RING
  {
    ProgramEntry(
      e.program,
      if e.temporary == key then ZERO_KEY else e.temporary,
      if e.temporary == key then 0 else e.expiresAt,
      RevokeRing(e.ring, key))
  }

  lemma GrantEntryRefines(e: ProgramEntry, key: Key, expiresAt: i64)
    requires EntryOk(e) && key != ZERO_KEY
    ensures EntryOk(GrantEntry(e, key, expiresAt))
    ensures GrantsOf(GrantEntry(e, key, expiresAt)) == GrantKey(GrantsOf(e), key, expiresAt)
  {
    GrantRefines(e.ring, key);
  }

  lemma RevokeEntryRefines(e: ProgramEntry, key: Key)
    requires EntryOk(e)
    ensures EntryOk(RevokeEntry(e, key)) && GrantsOf(RevokeEntry(e, key)) == RevokeKey(GrantsOf(e), key)
  {
    RevokeRefines(e.ring, key);
  }

  lemma NewEntryRefines(program: Key)
    ensures EntryOk(NewEntry(program)) && GrantsOf(NewEntry(program)) == NO_GRANTS
  {
    KeptOfFull(Padding(RING), 0);
  }

  // ---- The whole store ----

  /** The first entry at or after `from` for `program`. */
  function FirstEntry(es: seq<ProgramEntry>, program: Key, from: nat): (r: Option<nat>)
    requires from <= |es|
    ensures r.Some? ==> from <= r.value < |es| && es[r.value].program == program
    ensures r.Some? ==> forall i :: from <= i < r.value ==> es[i].program != program
    ensures r.None? ==> forall i :: from <= i < |es| ==> es[i].program != program
    decreases |es| - from
  {
    if from == |es| then None
    else if es[from].program == program then Some(from)
    else FirstEntry(es, program, from + 1)
  }

  /** `Session::allows`. */
  predicate StoreAllows(d: SessionData, key: Key, program: Key, now: i64) {
    key != ZERO_KEY
    && var i := FirstEntry(d.entries, program, 0);
       i.Some? && EntryAllows(d.entries[i.value], key, now)
  }

  /** The entries after a grant for `program`, its entry added at the end if it had none. */
  function GrantIn(es: seq<ProgramEntry>, program: Key, key: Key, expiresAt: i64): seq<ProgramEntry>
    requires forall i :: 0 <= i < |es| ==> |es[i].ring| == RING
  {
    match FirstEntry(es, program, 0)
    case Some(i) => es[i := GrantEntry(es[i], key, expiresAt)]
    case None => es + [GrantEntry(NewEntry(program), key, expiresAt)]
  }

  function RevokeIn(es: seq<ProgramEntry>, program: Key, key: Key): seq<ProgramEntry>
    requires forall i :: 0 <= i < |es| ==> |es[i].ring| == RING
  {
    match FirstEntry(es, program, 0)
    case Some(i) => es[i := RevokeEntry(es[i], key)]
    case None => es
  }

  function DropIn(es: seq<ProgramEntry>, program: Key): seq<ProgramEntry> {
    if es == [] then []
    else DropIn(es[..|es| - 1], program) + (if es[|es| - 1].program == program then [] else [es[|es| - 1]])
  }

  ghost predicate EntriesOk(es: seq<ProgramEntry>) {
    && (forall i :: 0 <= i < |es| ==> EntryOk(es[i]))
    && (forall i, j :: 0 <= i < j < |es| ==> es[i].program != es[j].program)
  }

  function ProgramsUpTo(es: seq<ProgramEntry>, n: nat): map<Key, Grants>
    requires n <= |es|
  {
    if n == 0 then map[] else ProgramsUpTo(es, n - 1)[es[n - 1].program := GrantsOf(es[n - 1])]
  }

  function Programs(es: seq<ProgramEntry>): map<Key, Grants> {
    ProgramsUpTo(es, |es|)
  }

  function StoreOf(d: SessionData): Store {
    Store(d.owner, Programs(d.entries))
  }

  /** The entry a lookup finds. */
  function Lookup(es: seq<ProgramEntry>, program: Key): Option<ProgramEntry> {
    match FirstEntry(es, program, 0)
    case None => None
    case Some(i) => Some(es[i])
  }

  /** Each entry is the only one of its program, so it is the one a lookup finds. */
  lemma LookupFindsTheOnlyEntry(es: seq<ProgramEntry>, i: nat)
    requires EntriesOk(es) && i < |es|
    ensures Lookup(es, es[i].program) == Some(es[i]) && FirstEntry(es, es[i].program, 0) == Some(i)
  {
    var j := FirstEntry(es, es[i].program, 0);
    assert j.Some? && j.value == i;
  }

  lemma {:induction false} LookedUpIsIn(es: seq<ProgramEntry>, n: nat, i: nat)
    requires EntriesOk(es) && i < n <= |es|
    ensures es[i].program in ProgramsUpTo(es, n) && ProgramsUpTo(es, n)[es[i].program] == GrantsOf(es[i])
    decreases n
  {
    if i < n - 1 {
      LookedUpIsIn(es, n - 1, i);
    }
  }

  lemma {:induction false} InHasIndex(es: seq<ProgramEntry>, n: nat, program: Key) returns (i: nat)
    requires n <= |es| && program in ProgramsUpTo(es, n)
    ensures i < n && es[i].program == program
    decreases n
  {
    if es[n - 1].program == program {
      i := n - 1;
    } else {
      i := InHasIndex(es, n - 1, program);
    }
  }

  lemma {:induction false} ProgramsCount(es: seq<ProgramEntry>, n: nat)
    requires EntriesOk(es) && n <= |es|
    ensures |ProgramsUpTo(es, n)| == n
    decreases n
  {
    if n > 0 {
      ProgramsCount(es, n - 1);
      if es[n - 1].program in ProgramsUpTo(es, n - 1) {
        var i := InHasIndex(es, n - 1, es[n - 1].program);
      }
      assert ProgramsUpTo(es, n).Keys == ProgramsUpTo(es, n - 1).Keys + {es[n - 1].program};
    }
  }

  lemma InIffFound(es: seq<ProgramEntry>, program: Key)
    requires EntriesOk(es)
    ensures program in Programs(es) <==> Lookup(es, program).Some?
    ensures program in Programs(es) ==> Programs(es)[program] == GrantsOf(Lookup(es, program).value)
  {
    if program in Programs(es) {
      var i := InHasIndex(es, |es|, program);
      LookedUpIsIn(es, |es|, i);
      LookupFindsTheOnlyEntry(es, i);
    } else if FirstEntry(es, program, 0).Some? {
      LookedUpIsIn(es, |es|, FirstEntry(es, program, 0).value);
    }
  }

  /** `allows` reads the store as its owner means it. */
  lemma AllowsIsRefined(d: SessionData, key: Key, program: Key, now: i64)
    requires EntriesOk(d.entries)
    ensures StoreAllows(d, key, program, now) == Allows(StoreOf(d), key, program, now)
  {
    InIffFound(d.entries, program);
    var i := FirstEntry(d.entries, program, 0);
    if key != ZERO_KEY && i.Some? {
      QueueMembers(d.entries[i.value].ring, key);
    }
  }

  /** A store's map, pinned down lookup by lookup. */
  lemma ProgramsFrom(es: seq<ProgramEntry>, ps: map<Key, Grants>)
    requires EntriesOk(es)
    requires forall p :: p in ps <==> Lookup(es, p).Some?
    requires forall p :: p in ps ==> ps[p] == GrantsOf(Lookup(es, p).value)
    ensures Programs(es) == ps && |ps| == |es|
  {
    forall p: Key
      ensures p in Programs(es) <==> p in ps
      ensures p in ps ==> Programs(es)[p] == ps[p]
    {
      InIffFound(es, p);
    }
    assert Programs(es).Keys == ps.Keys;
    ProgramsCount(es, |es|);
  }

  lemma EntrySet(es: seq<ProgramEntry>, i: nat, e: ProgramEntry)
    requires EntriesOk(es) && i < |es| && EntryOk(e) && e.program == es[i].program
    ensures EntriesOk(es[i := e]) && Programs(es[i := e]) == Programs(es)[e.program := GrantsOf(e)]
  {
    var es', ps := es[i := e], Programs(es)[e.program := GrantsOf(e)];
    LookupFindsTheOnlyEntry(es, i);
    forall p: Key
      ensures p in ps <==> Lookup(es', p).Some?
      ensures p in ps ==> ps[p] == GrantsOf(Lookup(es', p).value)
    {
      InIffFound(es, p);
      SameLookup(es, i, e, p);
    }
    ProgramsFrom(es', ps);
  }

  lemma SameLookup(es: seq<ProgramEntry>, i: nat, e: ProgramEntry, program: Key)
    requires i < |es| && e.program == es[i].program
    ensures FirstEntry(es[i := e], program, 0) == FirstEntry(es, program, 0)
  {
    var a, b := FirstEntry(es, program, 0), FirstEntry(es[i := e], program, 0);
    if a.Some? {
      assert es[i := e][a.value].program == program;
    }
    if b.Some? {
      assert es[b.value].program == program;
    }
  }

  lemma EntryAdded(es: seq<ProgramEntry>, e: ProgramEntry)
    requires EntriesOk(es) && EntryOk(e) && FirstEntry(es, e.program, 0).None?
    ensures EntriesOk(es + [e]) && Programs(es + [e]) == Programs(es)[e.program := GrantsOf(e)]
  {
    var es', ps := es + [e], Programs(es)[e.program := GrantsOf(e)];
    LookupFindsTheOnlyEntry(es', |es|);
    forall p: Key
      ensures p in ps <==> Lookup(es', p).Some?
      ensures p in ps ==> ps[p] == GrantsOf(Lookup(es', p).value)
    {
      InIffFound(es, p);
      var i := FirstEntry(es, p, 0);
      if i.Some? {
        LookupFindsTheOnlyEntry(es', i.value);
      }
    }
    ProgramsFrom(es', ps);
  }

  /** A grant touches its own program and no other, and adds at most one entry. */
  lemma GrantInRefines(es: seq<ProgramEntry>, program: Key, key: Key, expiresAt: i64)
    requires EntriesOk(es) && key != ZERO_KEY
    ensures var es' := GrantIn(es, program, key, expiresAt);
            var g := if program in Programs(es) then Programs(es)[program] else NO_GRANTS;
            && EntriesOk(es') && Programs(es') == Programs(es)[program := GrantKey(g, key, expiresAt)]
            && |es'| == if program in Programs(es) then |es| else |es| + 1
  {
    InIffFound(es, program);
    var i := FirstEntry(es, program, 0);
    if i.Some? {
      GrantEntryRefines(es[i.value], key, expiresAt);
      EntrySet(es, i.value, GrantEntry(es[i.value], key, expiresAt));
    } else {
      NewEntryRefines(program);
      GrantEntryRefines(NewEntry(program), key, expiresAt);
      EntryAdded(es, GrantEntry(NewEntry(program), key, expiresAt));
    }
  }

  lemma RevokeInRefines(es: seq<ProgramEntry>, program: Key, key: Key)
    requires EntriesOk(es)
    ensures var es' := RevokeIn(es, program, key);
            && EntriesOk(es') && |es'| == |es|
            && Programs(es') == if program in Programs(es)
                then Programs(es)[program := RevokeKey(Programs(es)[program], key)]
                                else Programs(es)
  {
    InIffFound(es, program);
    var i := FirstEntry(es, program, 0);
    if i.Some? {
      RevokeEntryRefines(es[i.value], key);
      EntrySet(es, i.value, RevokeEntry(es[i.value], key));
    }
  }

  lemma {:induction false} DropInKeepsOk(es: seq<ProgramEntry>, program: Key)
    requires EntriesOk(es)
    ensures EntriesOk(DropIn(es, program))
    ensures forall e :: e in DropIn(es, program) <==> e in es && e.program != program
    decreases |es|
  {
    if es != [] {
      var rest, last := es[..|es| - 1], es[|es| - 1];
      DropInKeepsOk(rest, program);
      assert es == rest + [last];
      var kept := DropIn(rest, program);
      forall i | 0 <= i < |kept|
        ensures kept[i].program != last.program
      {
        assert kept[i] in rest;
      }
    }
  }

  /** Dropping a program forgets exactly its keys; the entries close up in order. */
  lemma DropInRefines(es: seq<ProgramEntry>, program: Key)
    requires EntriesOk(es)
    ensures var es' := DropIn(es, program);
            && EntriesOk(es') && Programs(es') == Programs(es) - {program}
            && |es'| == if program in Programs(es) then |es| - 1 else |es|
  {
    var es', ps := DropIn(es, program), Programs(es) - {program};
    DropInKeepsOk(es, program);
    forall p: Key
      ensures p in ps <==> Lookup(es', p).Some?
      ensures p in ps ==> ps[p] == GrantsOf(Lookup(es', p).value)
    {
      DropLookup(es, program, p);
      InIffFound(es, p);
    }
    ProgramsFrom(es', ps);
    ProgramsCount(es, |es|);
    SizeWithout(Programs(es), program);
  }

  lemma {:induction false} DropNothing(es: seq<ProgramEntry>, program: Key)
    requires forall i :: 0 <= i < |es| ==> es[i].program != program
    ensures DropIn(es, program) == es
    decreases |es|
  {
    if es != [] {
      DropNothing(es[..|es| - 1], program);
    }
  }

  lemma SizeWithout(ps: map<Key, Grants>, program: Key)
    ensures |ps - {program}| == if program in ps then |ps| - 1 else |ps|
  {
    if program in ps {
      assert ps.Keys == (ps - {program}).Keys + {program};
    } else {
      assert ps - {program} == ps;
    }
  }

  lemma DropLookup(es: seq<ProgramEntry>, program: Key, p: Key)
    requires EntriesOk(es) && EntriesOk(DropIn(es, program))
    requires forall e :: e in DropIn(es, program) <==> e in es && e.program != program
    ensures Lookup(DropIn(es, program), p) == if p == program then None else Lookup(es, p)
  {
    var es' := DropIn(es, program);
    var i, j := FirstEntry(es, p, 0), FirstEntry(es', p, 0);
    if j.Some? {
      assert es'[j.value] in es;
      var k :| 0 <= k < |es| && es[k] == es'[j.value];
      LookupFindsTheOnlyEntry(es, k);
    }
  }
}
