/** What a list of instructions makes of the keys one owner grants one program, and which grant a key
    that still stands goes back to. */
module GrantRuns {
  import opened Base
  import opened Machine
  import opened Sessions

  // ---- One instruction ----

  predicate Persists(st: Step, owner: Key, program: Key) {
    st.op.Authorize? && st.op.owner == owner && st.op.program == program && st.op.expiresAt == 0
  }

  predicate Lends(st: Step, owner: Key, program: Key) {
    st.op.Authorize? && st.op.owner == owner && st.op.program == program && st.op.expiresAt != 0
  }

  /** The owner drops the program, or closes their ledger and the store with it. */
  predicate Drops(st: Step, owner: Key, program: Key) {
    || (st.op.Revoke? && st.op.owner == owner && st.op.program == program && st.op.key == ZERO_KEY)
    || (st.op.Close? && st.op.owner == owner)
  }

  predicate RevokesOne(st: Step, owner: Key, program: Key) {
    st.op.Revoke? && st.op.owner == owner && st.op.program == program && st.op.key != ZERO_KEY
  }

  predicate TakesBack(st: Step, owner: Key, program: Key, key: Key) {
    Drops(st, owner, program) || (RevokesOne(st, owner, program) && st.op.key == key)
  }

  function AfterStep(g: Grants, st: Step, owner: Key, program: Key): Grants {
    if Persists(st, owner, program) || Lends(st, owner, program) then GrantKey(g, st.op.key, st.op.expiresAt)
    else if Drops(st, owner, program) then NO_GRANTS
    else if RevokesOne(st, owner, program) then RevokeKey(g, st.op.key)
    else g
  }

  /** The owner's grants to the program after all of `steps`, there being none before. */
  function GrantsAfter(steps: seq<Step>, owner: Key, program: Key): Grants
    decreases |steps|
  {
    if steps == [] then NO_GRANTS
    else AfterStep(GrantsAfter(steps[..|steps| - 1], owner, program), steps[|steps| - 1], owner, program)
  }

  // ---- Which grant a standing key goes back to ----

  /** The temporary slot holds the key step `j` put there: nothing has replaced it or taken it back. */
  ghost predicate LentSince(steps: seq<Step>, j: nat, owner: Key, program: Key, key: Key) {
    && j < |steps| && Lends(steps[j], owner, program) && steps[j].op.key == key
    && forall n :: j < n < |steps| ==> !Lends(steps[n], owner, program) && !TakesBack(steps[n], owner, program, key)
  }

  /** One step's effect on the keys queued behind a given one; `queue` is the whole queue before it. */
  function NextBehind(behind: seq<Key>, queue: seq<Key>, st: Step, owner: Key, program: Key): seq<Key> {
    if Persists(st, owner, program) then if st.op.key in queue then behind else behind + [st.op.key]
    else if Drops(st, owner, program) then []
    else if RevokesOne(st, owner, program) then Without(behind, st.op.key)
    else behind
  }

  /** The keys that joined the queue after step `j` and were not taken back since. */
  function Behind(steps: seq<Step>, j: nat, owner: Key, program: Key): seq<Key>
    requires j < |steps|
    decreases |steps|
  {
    if |steps| == j + 1 then []
    else
      var earlier := steps[..|steps| - 1];
      NextBehind(Behind(earlier, j, owner, program), GrantsAfter(earlier, owner, program).queue,
                 steps[|steps| - 1], owner, program)
  }

  /** Step `j` queued the key, nothing has taken it back, and never since were there so many newer keys
      behind it as to push it out. */
  ghost predicate QueuedSince(steps: seq<Step>, j: nat, owner: Key, program: Key, key: Key) {
    && j < |steps| && Persists(steps[j], owner, program) && steps[j].op.key == key
    && key !in GrantsAfter(steps[..j], owner, program).queue
    && (forall n :: j < n < |steps| ==> !TakesBack(steps[n], owner, program, key))
    && (forall n :: j < n <= |steps| ==> |Behind(steps[..n], j, owner, program)| < RING)
  }

  // ---- The queue, a step at a time ----

  ghost predicate QueueOk(q: seq<Key>) {
    |q| <= RING && forall i, j :: 0 <= i < j < |q| ==> q[i] != q[j]
  }

  lemma {:induction false} QueueStaysOk(steps: seq<Step>, owner: Key, program: Key)
    ensures QueueOk(GrantsAfter(steps, owner, program).queue)
    decreases |steps|
  {
    if steps != [] {
      var st := steps[|steps| - 1];
      QueueStaysOk(steps[..|steps| - 1], owner, program);
      var q := GrantsAfter(steps[..|steps| - 1], owner, program).queue;
      if RevokesOne(st, owner, program) {
        WithoutMembers(q, st.op.key);
        WithoutKeepsDistinct(q, st.op.key);
      }
    }
  }

  lemma {:induction false} WithoutConcat(a: seq<Key>, b: seq<Key>, key: Key)
    ensures Without(a + b, key) == Without(a, key) + Without(b, key)
  {
    if a == [] {
      assert a + b == b;
    } else {
      assert (a + b)[0] == a[0] && (a + b)[1..] == a[1..] + b;
      WithoutConcat(a[1..], b, key);
    }
  }

  /** What a step leaves before `key` in the queue, if it leaves `key` there. */
  function NextBefore(before: seq<Key>, queue: seq<Key>, st: Step, owner: Key, program: Key): seq<Key> {
    if Persists(st, owner, program) then
      if st.op.key in queue || |queue| < RING || before == [] then before else before[1..]
    else if RevokesOne(st, owner, program) then Without(before, st.op.key)
    else before
  }

  lemma QueueAroundKey(g: Grants, before: seq<Key>, key: Key, behind: seq<Key>, st: Step, owner: Key, program: Key)
    requires QueueOk(g.queue) && g.queue == before + [key] + behind && !TakesBack(st, owner, program, key)
    ensures var queue := AfterStep(g, st, owner, program).queue;
            var behind' := NextBehind(behind, g.queue, st, owner, program);
            && (key in queue <==> |behind'| < RING)
            && (|behind'| < RING ==> queue == NextBefore(before, g.queue, st, owner, program) + [key] + behind')
  {
    assert g.queue[|before|] == key;
    if Persists(st, owner, program) {
      JoinAroundKey(before, key, behind, st.op.key);
    } else if RevokesOne(st, owner, program) {
      WithoutConcat(before + [key], behind, st.op.key);
      WithoutConcat(before, [key], st.op.key);
      assert Without([key], st.op.key) == [key];
      WithoutMembers(behind, st.op.key);
      WithoutMembers(g.queue, st.op.key);
    }
  }

  lemma JoinAroundKey(before: seq<Key>, key: Key, behind: seq<Key>, joining: Key)
    requires QueueOk(before + [key] + behind)
    ensures var queue := before + [key] + behind;
            var behind' := if joining in queue then behind else behind + [joining];
            var before' := if joining in queue || |queue| < RING || before == [] then before else before[1..];
            && (key in Enqueue(queue, joining) <==> |behind'| < RING)
            && (|behind'| < RING ==> Enqueue(queue, joining) == before' + [key] + behind')
  {
    var queue := before + [key] + behind;
    assert queue[|before|] == key;
    if joining !in queue {
      if |queue| < RING {
        assert queue + [joining] == before + [key] + (behind + [joining]);
        assert (queue + [joining])[|before|] == key;
      } else if before == [] {
        assert queue[1..] == behind;
        assert key !in behind;
      } else {
        assert queue[1..] + [joining] == before[1..] + [key] + (behind + [joining]);
        assert (queue[1..] + [joining])[|before| - 1] == key;
      }
    }
  }

  lemma EarlierQueued(steps: seq<Step>, j: nat, owner: Key, program: Key, key: Key)
    requires QueuedSince(steps, j, owner, program, key) && j + 1 < |steps|
    ensures QueuedSince(steps[..|steps| - 1], j, owner, program, key)
    ensures |Behind(steps, j, owner, program)| < RING && !TakesBack(steps[|steps| - 1], owner, program, key)
  {
    var earlier := steps[..|steps| - 1];
    assert earlier[..j] == steps[..j] && steps[..|steps|] == steps;
    forall n | j < n <= |earlier|
      ensures |Behind(earlier[..n], j, owner, program)| < RING
    {
      assert earlier[..n] == steps[..n];
    }
  }

  lemma LaterQueued(steps: seq<Step>, j: nat, owner: Key, program: Key, key: Key)
    requires steps != [] && QueuedSince(steps[..|steps| - 1], j, owner, program, key)
    requires |Behind(steps, j, owner, program)| < RING && !TakesBack(steps[|steps| - 1], owner, program, key)
    ensures QueuedSince(steps, j, owner, program, key)
  {
    var last := |steps| - 1;
    var earlier := steps[..last];
    assert earlier[..j] == steps[..j] && earlier[j] == steps[j];
    forall n | j < n < |steps|
      ensures !TakesBack(steps[n], owner, program, key)
    {
      if n < last {
        assert earlier[n] == steps[n];
      }
    }
    forall n | j < n <= |steps|
      ensures |Behind(steps[..n], j, owner, program)| < RING
    {
      if n == |steps| {
        assert steps[..n] == steps;
      } else {
        assert earlier[..n] == steps[..n];
      }
    }
  }

  /** A key queued by step `j` stands in the queue with exactly the newer keys behind it. */
  lemma {:induction false} QueueAfter(steps: seq<Step>, j: nat, owner: Key, program: Key,
      key: Key) returns (before: seq<Key>)
    requires QueuedSince(steps, j, owner, program, key)
    ensures GrantsAfter(steps, owner, program).queue == before + [key] + Behind(steps, j, owner, program)
    decreases |steps|
  {
    var earlier, st := steps[..|steps| - 1], steps[|steps| - 1];
    var g := GrantsAfter(earlier, owner, program);
    if |steps| == j + 1 {
      before := if |g.queue| < RING then g.queue else g.queue[1..];
    } else {
      EarlierQueued(steps, j, owner, program, key);
      before := QueueAfter(earlier, j, owner, program, key);
      QueueStaysOk(earlier, owner, program);
      QueueAroundKey(g, before, key, Behind(earlier, j, owner, program), st, owner, program);
      before := NextBefore(before, g.queue, st, owner, program);
    }
  }

  lemma KeptByStep(g: Grants, key: Key, st: Step, owner: Key, program: Key)
    requires key in AfterStep(g, st, owner, program).queue
    ensures key in g.queue || (Persists(st, owner, program) && st.op.key == key)
    ensures TakesBack(st, owner, program, key) ==> Persists(st, owner, program)
  {
    if RevokesOne(st, owner, program) {
      WithoutMembers(g.queue, st.op.key);
    }
  }

  lemma FreshlyQueued(steps: seq<Step>, owner: Key, program: Key, key: Key)
    requires steps != [] && Persists(steps[|steps| - 1], owner, program) && steps[|steps| - 1].op.key == key
    requires key !in GrantsAfter(steps[..|steps| - 1], owner, program).queue
    ensures QueuedSince(steps, |steps| - 1, owner, program, key)
  {
    assert steps[..|steps|] == steps;
  }

  /** The grant that a queued key goes back to. */
  lemma {:induction false} QueuedBy(steps: seq<Step>, owner: Key, program: Key, key: Key) returns (j: nat)
    requires key in GrantsAfter(steps, owner, program).queue
    ensures QueuedSince(steps, j, owner, program, key)
    decreases |steps|
  {
    var earlier, st := steps[..|steps| - 1], steps[|steps| - 1];
    var g := GrantsAfter(earlier, owner, program);
    KeptByStep(g, key, st, owner, program);
    if key in g.queue {
      j := QueuedBy(earlier, owner, program, key);
      var before := QueueAfter(earlier, j, owner, program, key);
      QueueStaysOk(earlier, owner, program);
      QueueAroundKey(g, before, key, Behind(earlier, j, owner, program), st, owner, program);
      LaterQueued(steps, j, owner, program, key);
    } else {
      j := |steps| - 1;
      FreshlyQueued(steps, owner, program, key);
    }
  }

  lemma LaterLent(steps: seq<Step>, j: nat, owner: Key, program: Key, key: Key)
    requires steps != [] && LentSince(steps[..|steps| - 1], j, owner, program, key)
    requires !Lends(steps[|steps| - 1], owner, program) && !TakesBack(steps[|steps| - 1], owner, program, key)
    ensures LentSince(steps, j, owner, program, key) && steps[j] == steps[..|steps| - 1][j]
  {
    var last := |steps| - 1;
    var earlier := steps[..last];
    assert earlier[j] == steps[j];
    forall n | j < n < |steps|
      ensures !Lends(steps[n], owner, program) && !TakesBack(steps[n], owner, program, key)
    {
      if n < last {
        assert earlier[n] == steps[n];
      }
    }
  }

  /** The grant that a key in the temporary slot goes back to. */
  lemma {:induction false} LentBy(steps: seq<Step>, owner: Key, program: Key, key: Key) returns (j: nat)
    requires key != ZERO_KEY && GrantsAfter(steps, owner, program).temporary == key
    ensures LentSince(steps, j, owner, program, key)
              && steps[j].op.expiresAt == GrantsAfter(steps, owner, program).expiresAt
    decreases |steps|
  {
    var earlier, st := steps[..|steps| - 1], steps[|steps| - 1];
    if Lends(st, owner, program) {
      j := |steps| - 1;
    } else {
      j := LentBy(earlier, owner, program, key);
      LaterLent(steps, j, owner, program, key);
    }
  }

  lemma {:induction false} LentStands(steps: seq<Step>, j: nat, owner: Key, program: Key, key: Key)
    requires LentSince(steps, j, owner, program, key)
    ensures GrantsAfter(steps, owner, program).temporary == key
    ensures GrantsAfter(steps, owner, program).expiresAt == steps[j].op.expiresAt
    decreases |steps|
  {
    if j + 1 < |steps| {
      LentStands(steps[..|steps| - 1], j, owner, program, key);
    }
  }

  /** Step `j` is a grant of the key that still stands at time `now`. */
  ghost predicate StandsSince(steps: seq<Step>, j: nat, owner: Key, program: Key, key: Key, now: i64) {
    || QueuedSince(steps, j, owner, program, key)
    || (LentSince(steps, j, owner, program, key) && now < steps[j].op.expiresAt)
  }

  /** A key is honoured at a time if and only if some earlier step granted it and the grant stands: it
      was not taken back; if it was for good, newer keys never pushed it out of the queue; if it was
      for a time, that has not passed and no other key was lent since. */
  lemma HonouredIff(steps: seq<Step>, owner: Key, program: Key, key: Key, now: i64)
    requires key != ZERO_KEY
    ensures GrantsAllow(GrantsAfter(steps, owner, program), key, now) <==>
              exists j: nat :: StandsSince(steps, j, owner, program, key, now)
  {
    var g := GrantsAfter(steps, owner, program);
    if key in g.queue {
      var j := QueuedBy(steps, owner, program, key);
      assert StandsSince(steps, j, owner, program, key, now);
    } else if GrantsAllow(g, key, now) {
      var j := LentBy(steps, owner, program, key);
      assert StandsSince(steps, j, owner, program, key, now);
    }
    if exists j: nat :: StandsSince(steps, j, owner, program, key, now) {
      var j: nat :| StandsSince(steps, j, owner, program, key, now);
      if QueuedSince(steps, j, owner, program, key) {
        var before := QueueAfter(steps, j, owner, program, key);
        assert g.queue[|before|] == key;
      } else {
        LentStands(steps, j, owner, program, key);
      }
    }
  }
}
