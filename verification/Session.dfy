/** `Session` and its `Entry` as the handlers hold them in memory: the ring is an array updated in
    place, the entries a list the store grows and shrinks. Each method is proved against the
    operation of SessionTable it carries out. */
module SessionObject {
  import opened Base
  import opened Sessions
  import opened SessionTable

  class Entry {
    const program: Key
    var temporary: Key
    var expiresAt: i64
    const ring: array<Key>

    ghost predicate Valid()
      reads this
    {
      ring.Length == RING
    }

    function Data(): ProgramEntry
      reads this, ring
    {
      ProgramEntry(program, temporary, expiresAt, ring[..])
    }

    constructor Load(e: ProgramEntry)
      requires |e.ring| == RING
      ensures Valid() && fresh(ring) && Data() == e
    {
      program, temporary, expiresAt := e.program, e.temporary, e.expiresAt;
      var slots := new Key[RING](i => ZERO_KEY);
      for i := 0 to RING
        invariant fresh(slots)
        invariant slots[..i] == e.ring[..i]
      {
        slots[i] := e.ring[i];
      }
      ring := slots;
    }

    method Contains(key: Key) returns (found: bool)
      requires Valid()
      ensures found <==> key in ring[..]
    {
      for i := 0 to RING
        invariant forall j :: 0 <= j < i ==> ring[j] != key
      {
        if ring[i] == key {
          return true;
        }
      }
      return false;
    }

    method Allows(key: Key, now: i64) returns (ok: bool)
      requires Valid()
      ensures ok == EntryAllows(Data(), key, now)
    {
      if temporary == key && now < expiresAt {
        return true;
      }
      ok := Contains(key);
    }

    /** Every slot takes its right neighbour's key. */
    method RotateLeft()
      requires Valid()
      modifies ring
      ensures ring[..] == old(ring[..])[1..] + [old(ring[0])]
    {
      var first := ring[0];
      for i := 0 to RING - 1
        invariant forall j :: 0 <= j < i ==> ring[j] == old(ring[j + 1])
        invariant forall j :: i <= j < RING ==> ring[j] == old(ring[j])
      {
        ring[i] := ring[i + 1];
      }
      ring[RING - 1] := first;
    }

    method Grant(key: Key)
      requires Valid()
      modifies ring
      ensures ring[..] == GrantRing(old(ring[..]), key)
    {
      var held := Contains(key);
      if held {
        return;
      }
      var free := 0;
      while free < RING && ring[free] != ZERO_KEY
        invariant free <= RING
        invariant FirstFree(ring[..], 0) == FirstFree(ring[..], free)
      {
        free := free + 1;
      }
      if free < RING {
        ring[free] := key;
        return;
      }
      RotateLeft();
      ring[RING - 1] := key;
    }

    method GrantTemporary(key: Key, expiresAt: i64)
      modifies this`temporary, this`expiresAt
      ensures Data() == old(Data()).(temporary := key, expiresAt := expiresAt)
    {
      this.temporary, this.expiresAt := key, expiresAt;
    }

    /** Takes `key` out of the temporary slot and out of the ring, whose later keys move up. */
    method Revoke(key: Key)
      requires Valid()
      modifies this`temporary, this`expiresAt, ring
      ensures Data() == RevokeEntry(old(Data()), key)
    {
      if temporary == key {
        temporary, expiresAt := ZERO_KEY, 0;
      }
      var kept := [];
      for i := 0 to RING
        invariant kept == Kept(ring[..i], key)
      {
        assert ring[..i + 1][..i] == ring[..i];
        if ring[i] != key && ring[i] != ZERO_KEY {
          kept := kept + [ring[i]];
        }
      }
      assert ring[..RING] == ring[..];
      ghost var was := ring[..];
      for i := 0 to RING
        invariant temporary == (if old(temporary) == key then ZERO_KEY else old(temporary))
        invariant expiresAt == (if old(temporary) == key then 0 else old(expiresAt))
        invariant forall j :: 0 <= j < i ==> ring[j] == if j < |kept| then kept[j] else ZERO_KEY
      {
        ring[i] := if i < |kept| then kept[i] else ZERO_KEY;
      }
      assert ring[..] == RevokeRing(was, key);
    }
  }

  class Session {
    var owner: Key
    var bump: byte
    var entries: seq<ProgramEntry>

    function Data(): SessionData
      reads this
    {
      SessionData(owner, bump, entries)
    }

    ghost predicate Valid()
      reads this
    {
      forall i :: 0 <= i < |entries| ==> |entries[i].ring| == RING
    }

    constructor (owner: Key, bump: byte)
      ensures Valid() && Data() == SessionData(owner, bump, [])
    {
      this.owner, this.bump, entries := owner, bump, [];
    }

    constructor Load(d: SessionData)
      requires forall i :: 0 <= i < |d.entries| ==> |d.entries[i].ring| == RING
      ensures Valid() && Data() == d
    {
      owner, bump, entries := d.owner, d.bump, d.entries;
    }

    method FindProgram(program: Key) returns (r: Option<nat>)
      ensures r == FirstEntry(entries, program, 0)
    {
      var i := 0;
      while i < |entries| && entries[i].program != program
        invariant i <= |entries|
        invariant FirstEntry(entries, program, 0) == FirstEntry(entries, program, i)
      {
        i := i + 1;
      }
      return if i < |entries| then Some(i) else None;
    }

    method Allows(key: Key, program: Key, now: i64) returns (ok: bool)
      requires Valid()
      ensures ok == StoreAllows(Data(), key, program, now)
    {
      if key == ZERO_KEY {
        return false;
      }
      var i := FindProgram(program);
      if i.None? {
        return false;
      }
      var e := new Entry.Load(entries[i.value]);
      ok := e.Allows(key, now);
    }

    /** The one entry of a program: an existing one, or a fresh one at the end of the list. */
    method EntryMut(program: Key) returns (index: nat, added: bool)
      requires Valid()
      modifies this`entries
      ensures Valid()
      ensures match FirstEntry(old(entries), program, 0)
              case Some(i) => index == i && !added && entries == old(entries)
              case None => index == |old(entries)| && added && entries == old(entries) + [NewEntry(program)]
    {
      var i := FindProgram(program);
      if i.Some? {
        return i.value, false;
      }
      entries := entries + [NewEntry(program)];
      return |entries| - 1, true;
    }

    /** Grants `key` for `program`, as `authorize` does; `added` tells if that took a new entry. */
    method Grant(program: Key, key: Key, expiresAt: i64) returns (added: bool)
      requires Valid()
      modifies this`entries
      ensures Valid() && entries == GrantIn(old(entries), program, key, expiresAt)
      ensures added <==> FirstEntry(old(entries), program, 0).None?
    {
      var i;
      i, added := EntryMut(program);
      var e := new Entry.Load(entries[i]);
      if expiresAt == 0 {
        e.Grant(key);
      } else {
        e.GrantTemporary(key, expiresAt);
      }
      entries := entries[i := e.Data()];
    }

    method Revoke(program: Key, key: Key)
      requires Valid()
      modifies this`entries
      ensures Valid() && entries == RevokeIn(old(entries), program, key)
    {
      var i := FindProgram(program);
      if i.Some? {
        var e := new Entry.Load(entries[i.value]);
        e.Revoke(key);
        entries := entries[i.value := e.Data()];
      }
    }

    /** Drops the program's entry; whether there was one. */
    method DropEntry(program: Key) returns (dropped: bool)
      requires Valid()
      modifies this`entries
      ensures Valid() && entries == DropIn(old(entries), program)
      ensures dropped <==> |entries| != |old(entries)|
    {
      var kept := [];
      for i := 0 to |entries|
        invariant entries == old(entries)
        invariant kept == DropIn(entries[..i], program)
        invariant forall j :: 0 <= j < |kept| ==> |kept[j].ring| == RING
      {
        assert entries[..i + 1][..i] == entries[..i];
        if entries[i].program != program {
          kept := kept + [entries[i]];
        }
      }
      assert entries[..|entries|] == entries;
      dropped := |kept| != |entries|;
      entries := kept;
    }
  }
}
