/** A transaction as it is nested: an instruction, or a settlement with the instructions its callback
    makes, which may be settlements in turn. Flattened, it is a run of the machine. */
module Calls {
  import opened Base
  import opened Chains
  import opened Frames
  import opened Invariant
  import opened Lifecycle
  import opened Machine
  import opened Runs

  datatype Call = Plain(step: Step) | Settling(begin: Step, callback: seq<Call>)

  predicate Proper(call: Call) {
    match call
    case Plain(st) => !st.op.SettleBegin? && !st.op.SettleEnd?
    case Settling(begin, callback) => begin.op.SettleBegin? && forall i :: 0 <= i < |callback| ==> Proper(callback[i])
  }

  /** A close on basenet carries a list of accounts of its own and stands alone; on a rollup, where
      callbacks run, it is an instruction like any other, and refused. */
  predicate Runnable(call: Call) {
    match call
    case Plain(st) => !st.op.SettleBegin? && !st.op.SettleEnd? && (st.op.Close? ==> st.venue.Rollup?)
    case Settling(begin, callback) => begin.op.SettleBegin? && forall i :: 0 <= i < |callback| ==> Runnable(callback[i])
  }

  function End(begin: Step): Step {
    Step(begin.venue, begin.signers, SettleEnd)
  }

  function Flatten(call: Call): seq<Step> {
    match call
    case Plain(st) => [st]
    case Settling(begin, callback) => [begin] + FlattenAll(callback) + [End(begin)]
  }

  function FlattenAll(calls: seq<Call>): seq<Step> {
    if calls == [] then [] else Flatten(calls[0]) + FlattenAll(calls[1..])
  }

  // ---- Runs in pieces ----

  /** A run that fails early fails with the same error however it would have gone on. */
  lemma {:induction false} ExecFailsEarly(c: Chain, s: State, a: seq<Step>, b: seq<Step>)
    requires Exec(c, s, a).Failure?
    ensures Exec(c, s, a + b) == Exec(c, s, a)
    decreases |b|
  {
    if b == [] {
      assert a + b == a;
    } else {
      ExecFailsEarly(c, s, a, b[..|b| - 1]);
      assert (a + b)[..|a + b| - 1] == a + b[..|b| - 1];
    }
  }

  lemma ExecAppend(c: Chain, s: State, a: seq<Step>, b: seq<Step>)
    ensures Exec(c, s, a + b) ==
              match Exec(c, s, a)
              case Failure(e) => Failure(e)
              case Success(mid) => Exec(c, mid, b)
  {
    if Exec(c, s, a).Success? {
      ExecConcat(c, s, a, b);
    } else {
      ExecFailsEarly(c, s, a, b);
    }
  }

  /** A settlement's run, piece by piece. */
  lemma ExecSettlement(c: Chain, s: State, begin: Step, callback: seq<Call>)
    ensures Exec(c, s, Flatten(Settling(begin, callback))) ==
              match Next(c, s, begin)
              case Failure(e) => Failure(e)
              case Success(mid) =>
                match Exec(c, mid, FlattenAll(callback))
                case Failure(e) => Failure(e)
                case Success(done) => Next(c, done, End(begin))
  {
    var inner := FlattenAll(callback);
    ExecAppend(c, s, [begin] + inner, [End(begin)]);
    ExecAppend(c, s, [begin], inner);
    ExecOne(c, s, begin);
    if Exec(c, s, [begin] + inner).Success? {
      ExecOne(c, Exec(c, s, [begin] + inner).value, End(begin));
    }
  }

  // ---- Nesting keeps settlements balanced ----

  /** `steps` leave as many settlements under way as they found, and never fewer meanwhile. */
  ghost predicate Balanced(c: Chain, s: State, steps: seq<Step>)
    requires Exec(c, s, steps).Success?
  {
    |Exec(c, s, steps).value.settling| == |s.settling| && Within(c, s, steps, |s.settling|)
  }

  lemma {:induction false} WithinConcat(c: Chain, s: State, a: seq<Step>, b: seq<Step>, depth: nat)
    requires Exec(c, s, a).Success? && Exec(c, Exec(c, s, a).value, b).Success?
    requires Within(c, s, a, depth) && Within(c, Exec(c, s, a).value, b, depth)
    ensures Exec(c, s, a + b).Success? && Within(c, s, a + b, depth)
    decreases |b|
  {
    ExecConcat(c, s, a, b);
    if b == [] {
      assert a + b == a;
    } else {
      var rest := b[..|b| - 1];
      WithinConcat(c, s, a, rest, depth);
      assert (a + b)[..|a + b| - 1] == a + rest;
    }
  }

  lemma {:induction false} WithinLess(c: Chain, s: State, steps: seq<Step>, depth: nat, less: nat)
    requires Exec(c, s, steps).Success? && Within(c, s, steps, depth) && less <= depth
    ensures Within(c, s, steps, less)
    decreases |steps|
  {
    if steps != [] {
      WithinLess(c, s, steps[..|steps| - 1], depth, less);
    }
  }

  lemma WithinOne(c: Chain, s: State, st: Step, depth: nat)
    requires Next(c, s, st).Success? && |s.settling| >= depth && |Next(c, s, st).value.settling| >= depth
    ensures Exec(c, s, [st]).Success? && Within(c, s, [st], depth)
  {
    ExecOne(c, s, st);
    assert [st][..0] == [];
    assert Within(c, s, [], depth);
  }

  lemma PlainIsBalanced(c: Chain, s: State, st: Step)
    requires !st.op.SettleBegin? && !st.op.SettleEnd? && Next(c, s, st).Success?
    ensures Next(c, s, st).value.settling == s.settling
  {
    StepFrame(c, s, st);
    if st.op.CreateReceipt? {
      CreateWrites(c, s, st);
    } else if st.op.Reap? {
      ReapRemoves(c, s, st);
    }
  }

  lemma {:induction false} CallIsBalanced(c: Chain, s: State, call: Call)
    requires Proper(call) && Exec(c, s, Flatten(call)).Success?
    ensures Balanced(c, s, Flatten(call))
    decreases call, 1
  {
    match call
    case Plain(st) =>
      ExecOne(c, s, st);
      PlainIsBalanced(c, s, st);
      WithinOne(c, s, st, |s.settling|);
    case Settling(begin, callback) =>
      ExecSettlement(c, s, begin, callback);
      var mid := Next(c, s, begin).value;
      var done := Exec(c, mid, FlattenAll(callback)).value;
      CallbackIsBalanced(c, mid, callback);
      SettlementIsBalanced(c, s, begin, FlattenAll(callback), mid, done);
  }

  lemma SettlementIsBalanced(c: Chain, s: State, begin: Step, inner: seq<Step>, mid: State, done: State)
    requires begin.op.SettleBegin? && Next(c, s, begin) == Success(mid)
    requires Exec(c, mid, inner) == Success(done) && Balanced(c, mid, inner)
    requires Next(c, done, End(begin)).Success?
    ensures Exec(c, s, [begin] + inner + [End(begin)]).Success?
    ensures Balanced(c, s, [begin] + inner + [End(begin)])
  {
    BeginReads(c, s, begin);
    EndPops(c, done);
    BeginInner(c, s, begin, inner, mid, done);
    WithinOne(c, done, End(begin), |s.settling|);
    WithinConcat(c, s, [begin] + inner, [End(begin)], |s.settling|);
    ExecConcat(c, s, [begin] + inner, [End(begin)]);
    ExecOne(c, done, End(begin));
  }

  lemma BeginInner(c: Chain, s: State, begin: Step, inner: seq<Step>, mid: State, done: State)
    requires Next(c, s, begin) == Success(mid) && |mid.settling| == |s.settling| + 1
    requires Exec(c, mid, inner) == Success(done) && Balanced(c, mid, inner)
    ensures Exec(c, s, [begin] + inner) == Success(done) && Within(c, s, [begin] + inner, |s.settling|)
  {
    ExecOne(c, s, begin);
    WithinOne(c, s, begin, |s.settling|);
    WithinLess(c, mid, inner, |mid.settling|, |s.settling|);
    WithinConcat(c, s, [begin], inner, |s.settling|);
    ExecConcat(c, s, [begin], inner);
  }

  lemma EndPops(c: Chain, s: State)
    requires NextSettleEnd(c, s).Success?
    ensures s.settling != [] && NextSettleEnd(c, s).value.settling == s.settling[..|s.settling| - 1]
  {
  }

  lemma {:induction false} CallbackIsBalanced(c: Chain, s: State, calls: seq<Call>)
    requires (forall i :: 0 <= i < |calls| ==> Proper(calls[i])) && Exec(c, s, FlattenAll(calls)).Success?
    ensures Balanced(c, s, FlattenAll(calls))
    decreases calls, 0
  {
    if calls != [] {
      var first, rest := Flatten(calls[0]), FlattenAll(calls[1..]);
      ExecAppend(c, s, first, rest);
      CallIsBalanced(c, s, calls[0]);
      var mid := Exec(c, s, first).value;
      CallbackIsBalanced(c, mid, calls[1..]);
      WithinConcat(c, s, first, rest, |s.settling|);
    }
  }

  /** Whatever instructions a settlement's callback makes, nested as deep as they like: the receipt it
      is settling stays exactly as it was killed, the invariant holds when the callback starts (in
      `mid`) and when it ends (in `done`), and the rest of the handler only removes that receipt. */
  lemma NestedCallbackIsSafe(c: Chain, s: State, begin: Step, callback: seq<Call>,
      after: State) returns (mid: State, done: State)
    requires Sound(c) && Inv(c, s) && Proper(Settling(begin, callback))
    requires Exec(c, s, Flatten(Settling(begin, callback))) == Success(after)
    ensures Next(c, s, begin) == Success(mid) && Exec(c, mid, FlattenAll(callback)) == Success(done)
    ensures Inv(c, mid) && Inv(c, done)
    ensures var at := At(begin.venue, begin.op.receipt);
            && at in s.receipts && at in done.receipts
                && done.receipts[at] == ReceiptAccount(s.receipts[at].terms, false)
            && after == done.(receipts := done.receipts - {at}, settling := s.settling)
  {
    mid, done := SettlementPieces(c, s, begin, callback, after);
    CallbackIsBalanced(c, mid, callback);
    SettlementIsSafe(c, s, begin, mid, FlattenAll(callback), done, after);
  }

  lemma SettlementPieces(c: Chain, s: State, begin: Step, callback: seq<Call>,
      after: State) returns (mid: State, done: State)
    requires Exec(c, s, Flatten(Settling(begin, callback))) == Success(after)
    ensures Next(c, s, begin) == Success(mid) && Exec(c, mid, FlattenAll(callback)) == Success(done)
    ensures NextSettleEnd(c, done) == Success(after)
  {
    ExecSettlement(c, s, begin, callback);
    mid := Next(c, s, begin).value;
    done := Exec(c, mid, FlattenAll(callback)).value;
  }

  lemma SettlementIsSafe(c: Chain, s: State, begin: Step, mid: State, steps: seq<Step>, done: State, after: State)
    requires Sound(c) && Inv(c, s) && begin.op.SettleBegin? && Next(c, s, begin) == Success(mid)
    requires Exec(c, mid, steps) == Success(done) && Balanced(c, mid, steps) && NextSettleEnd(c, done) == Success(after)
    ensures Inv(c, mid) && Inv(c, done)
    ensures var at := At(begin.venue, begin.op.receipt);
            && at in s.receipts && at in done.receipts
                && done.receipts[at] == ReceiptAccount(s.receipts[at].terms, false)
            && after == done.(receipts := done.receipts - {at}, settling := s.settling)
  {
    CallbackStarts(c, s, begin, mid);
    assert mid.settling[..|s.settling|] == s.settling;
    SettlingsRestored(c, mid, s.settling, steps, done);
    SettlementEnds(c, mid, s.settling, steps, done, after);
  }

  lemma SettlementEnds(c: Chain, mid: State, before: seq<Settlement>, steps: seq<Step>, done: State, after: State)
    requires Sound(c) && Inv(c, mid) && |mid.settling| == |before| + 1
    requires Exec(c, mid, steps) == Success(done) && Balanced(c, mid, steps)
    requires done.settling[..|before|] == before && NextSettleEnd(c, done) == Success(after)
    ensures Inv(c, done)
    ensures var at := mid.settling[|before|].at;
            && at in mid.receipts && at in done.receipts && done.receipts[at] == mid.receipts[at]
            && after == done.(receipts := done.receipts - {at}, settling := before)
  {
    CallbackEnds(c, mid, steps, done);
    EndPops(c, done);
  }

  lemma SettlingsRestored(c: Chain, mid: State, before: seq<Settlement>, steps: seq<Step>, done: State)
    requires Sound(c) && Inv(c, mid) && |mid.settling| == |before| + 1 && mid.settling[..|before|] == before
    requires Exec(c, mid, steps) == Success(done) && Balanced(c, mid, steps)
    ensures |done.settling| == |before| + 1 && done.settling[..|before|] == before
  {
    forall i | 0 <= i < |before|
      ensures done.settling[i] == before[i]
    {
      CallbackKeepsSettlings(c, mid, steps, |mid.settling|, i);
      assert mid.settling[i] == before[i];
    }
  }
}
