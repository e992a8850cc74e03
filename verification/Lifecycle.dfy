/** A receipt's life: written once, then settled or reaped at most once, and untouchable while the
    callback of its settlement runs. */
module Lifecycle {
  import opened Base
  import opened Books
  import opened Chains
  import opened Consent
  import opened Flow
  import opened Frames
  import opened Invariant
  import opened Machine
  import opened Receipts
  import opened Runs
  import opened Totals

  // ---- What a step does at one receipt address ----

  predicate Creates(st: Step, at: At) {
    st.op.CreateReceipt? && At(st.venue, st.op.receipt) == at
  }

  predicate Settles(st: Step, at: At) {
    st.op.SettleBegin? && At(st.venue, st.op.receipt) == at
  }

  predicate LiveAt(s: State, at: At) {
    at in s.receipts && s.receipts[at].live
  }

  /** A reap that finds a live receipt and removes it. */
  predicate ReapsEffectively(s: State, s': State, st: Step, at: At) {
    st.op.Reap? && At(st.venue, st.op.receipt) == at && LiveAt(s, at) && at !in s'.receipts
  }

  /** The terms `create_receipt` writes down. */
  function TermsOf(st: Step, slot: u64): Receipt
    requires st.op.CreateReceipt?
  {
    Receipt(st.op.consenter, st.op.owners, st.op.authority, st.op.member, st.op.callbackDisc, slot,
            st.op.movements, st.op.args)
  }

  lemma CreateWrites(c: Chain, s: State, st: Step)
    requires st.op.CreateReceipt? && NextCreateReceipt(c, s, st).Success?
    ensures var at := At(st.venue, st.op.receipt);
            NextCreateReceipt(c, s, st).value ==
              s.(receipts := s.receipts[at := ReceiptAccount(TermsOf(st, ClockOf(s, st.venue).slot), true)])
    ensures st.op.authority in st.signers && st.op.consenter in st.signers
    ensures BelongsTo(c, st.op.authority, st.op.member)
  {
    assert c.derive(st.op.member, st.op.seeds) == Some(st.op.authority);
  }

  predicate IsReceiptOp(op: Op) {
    op.CreateReceipt? || op.SettleBegin? || op.SettleEnd? || op.Reap?
  }

  lemma NonReceiptOpsKeepReceipts(c: Chain, s: State, st: Step)
    requires !IsReceiptOp(st.op) && Next(c, s, st).Success?
    ensures Next(c, s, st).value.receipts == s.receipts && Next(c, s, st).value.settling == s.settling
  {
    StepFrame(c, s, st);
  }

  /** How one step may change what is live at an address: only a create makes a receipt live, a
      settle or a reap ends it, and nothing alters one. */
  ghost predicate Evolves(s: State, s': State, st: Step, at: At) {
    && (Creates(st, at) ==> LiveAt(s', at) && s'.receipts[at].terms == TermsOf(st, ClockOf(s, st.venue).slot))
    && (Settles(st, at) ==> LiveAt(s, at) && !LiveAt(s', at))
    && (!Creates(st, at) && LiveAt(s', at) ==> LiveAt(s, at) && s'.receipts[at] == s.receipts[at])
    && (LiveAt(s, at) && !LiveAt(s', at) ==> Settles(st, at) || ReapsEffectively(s, s', st, at))
  }

  lemma CreateEvolves(c: Chain, s: State, st: Step, at: At)
    requires st.op.CreateReceipt? && NextCreateReceipt(c, s, st).Success?
    ensures Evolves(s, NextCreateReceipt(c, s, st).value, st, at)
  {
    CreateWrites(c, s, st);
  }

  lemma BeginEvolves(c: Chain, s: State, st: Step, at: At)
    requires st.op.SettleBegin? && NextSettleBegin(c, s, st).Success?
    ensures Evolves(s, NextSettleBegin(c, s, st).value, st, at)
  {
    BeginReads(c, s, st);
  }

  lemma EndEvolves(c: Chain, s: State, st: Step, at: At)
    requires Inv(c, s) && st.op.SettleEnd? && NextSettleEnd(c, s).Success?
    ensures Evolves(s, NextSettleEnd(c, s).value, st, at)
  {
    EndRemovesKilled(c, s);
  }

  lemma ReapEvolves(c: Chain, s: State, st: Step, at: At)
    requires st.op.Reap? && NextReap(c, s, st).Success?
    ensures Evolves(s, NextReap(c, s, st).value, st, at)
  {
    ReapRemoves(c, s, st);
  }

  lemma LiveEvolves(c: Chain, s: State, st: Step, at: At)
    requires Inv(c, s) && Next(c, s, st).Success?
    ensures Evolves(s, Next(c, s, st).value, st, at)
  {
    if st.op.CreateReceipt? {
      CreateEvolves(c, s, st, at);
    } else if st.op.SettleBegin? {
      BeginEvolves(c, s, st, at);
    } else if st.op.SettleEnd? {
      EndEvolves(c, s, st, at);
    } else if st.op.Reap? {
      ReapEvolves(c, s, st, at);
    } else {
      NonReceiptOpsKeepReceipts(c, s, st);
    }
  }

  lemma EndRemovesKilled(c: Chain, s: State)
    requires Inv(c, s) && NextSettleEnd(c, s).Success?
    ensures s.settling != []
    ensures var last := s.settling[|s.settling| - 1];
            last.at in s.receipts && !s.receipts[last.at].live
            && NextSettleEnd(c, s).value
                == s.(receipts := s.receipts - {last.at}, settling := s.settling[..|s.settling| - 1])
  {
  }

  lemma ReapRemoves(c: Chain, s: State, st: Step)
    requires st.op.Reap? && NextReap(c, s, st).Success?
    ensures var at := At(st.venue, st.op.receipt); var s' := NextReap(c, s, st).value;
            s' == s || (LiveAt(s, at) && s.receipts[at].terms.slot < ClockOf(s, st.venue).slot
                && s' == s.(receipts := s.receipts - {at}))
  {
  }

  // ---- A settlement uses the receipt most recently written at its address ----

  /** Step `n` of a run creates, settles or removes a receipt at `at`. */
  ghost predicate Uses(c: Chain, s: State, steps: seq<Step>, n: nat, at: At)
    requires n < |steps| && Exec(c, s, steps[..n]).Success? && Exec(c, s, steps[..n + 1]).Success?
  {
    || Creates(steps[n], at)
    || Settles(steps[n], at)
    || ReapsEffectively(Exec(c, s, steps[..n]).value, Exec(c, s, steps[..n + 1]).value, steps[n], at)
  }

  lemma {:induction false} PrefixesRun(c: Chain, s: State, steps: seq<Step>, n: nat)
    requires n <= |steps| && Exec(c, s, steps).Success?
    ensures Exec(c, s, steps[..n]).Success?
    decreases |steps|
  {
    if n == |steps| {
      assert steps[..n] == steps;
    } else {
      PrefixesRun(c, s, steps[..|steps| - 1], n);
      assert steps[..|steps| - 1][..n] == steps[..n];
    }
  }

  /** Step `n` of a run does nothing to a receipt at `at`. */
  ghost predicate LeavesAlone(c: Chain, s: State, steps: seq<Step>, n: nat, at: At)
    requires n < |steps|
  {
    Exec(c, s, steps[..n]).Success? && Exec(c, s, steps[..n + 1]).Success? && !Uses(c, s, steps, n, at)
  }

  /** Step `j` of the run wrote `terms`, and no later step of it has used the address. */
  ghost predicate WrittenBy(c: Chain, s: State, steps: seq<Step>, at: At, terms: Receipt, j: nat)
    requires Exec(c, s, steps).Success?
  {
    && j < |steps| && Creates(steps[j], at)
    && Exec(c, s, steps[..j]).Success?
    && terms == TermsOf(steps[j], ClockOf(Exec(c, s, steps[..j]).value, at.venue).slot)
    && steps[j].op.authority in steps[j].signers && steps[j].op.consenter in steps[j].signers
    && BelongsTo(c, steps[j].op.authority, steps[j].op.member)
    && forall n :: j < n < |steps| ==> LeavesAlone(c, s, steps, n, at)
  }

  lemma {:induction false} LiveReceiptsWereWritten(c: Chain, s: State, steps: seq<Step>, at: At) returns (j: nat)
    requires Sound(c) && Genesis(c, s) && Exec(c, s, steps).Success? && LiveAt(Exec(c, s, steps).value, at)
    ensures WrittenBy(c, s, steps, at, Exec(c, s, steps).value.receipts[at].terms, j)
    decreases |steps|
  {
    var last := |steps| - 1;
    var earlier := steps[..last];
    RunInv(c, s, earlier);
    var before := Exec(c, s, earlier).value;
    LiveEvolves(c, before, steps[last], at);
    if Creates(steps[last], at) {
      j := last;
      LastWrites(c, s, steps, at);
    } else {
      j := LiveReceiptsWereWritten(c, s, earlier, at);
      ExtendWritten(c, s, steps, at, before.receipts[at].terms, j);
    }
  }

  lemma LastWrites(c: Chain, s: State, steps: seq<Step>, at: At)
    requires steps != [] && Exec(c, s, steps).Success? && Creates(steps[|steps| - 1], at)
    ensures at in Exec(c, s, steps).value.receipts
    ensures WrittenBy(c, s, steps, at, Exec(c, s, steps).value.receipts[at].terms, |steps| - 1)
  {
    CreateWrites(c, Exec(c, s, steps[..|steps| - 1]).value, steps[|steps| - 1]);
  }

  lemma ExtendWritten(c: Chain, s: State, steps: seq<Step>, at: At, terms: Receipt, j: nat)
    requires steps != [] && Exec(c, s, steps).Success? && Exec(c, s, steps[..|steps| - 1]).Success?
    requires WrittenBy(c, s, steps[..|steps| - 1], at, terms, j)
    requires !Creates(steps[|steps| - 1], at) && !Settles(steps[|steps| - 1], at)
    requires LiveAt(Exec(c, s, steps).value, at)
    ensures WrittenBy(c, s, steps, at, terms, j)
  {
    var last := |steps| - 1;
    var earlier := steps[..last];
    assert earlier[..j] == steps[..j];
    forall n | j < n < |steps|
      ensures LeavesAlone(c, s, steps, n, at)
    {
      if n == last {
        assert steps[..n + 1] == steps;
      } else {
        assert earlier[..n] == steps[..n] && earlier[..n + 1] == steps[..n + 1];
        assert LeavesAlone(c, s, earlier, n, at);
      }
    }
  }

  /** Step `j` of `earlier` wrote the receipt that `settle`, sent next, uses: in the same slot, with
      the terms written then, and nothing used the address in between. */
  ghost predicate Consumes(c: Chain, s: State, earlier: seq<Step>, settle: Step, j: nat)
    requires settle.op.SettleBegin? && Exec(c, s, earlier).Success?
  {
    var at := At(settle.venue, settle.op.receipt);
    var before := Exec(c, s, earlier).value;
    && LiveAt(before, at)
    && WrittenBy(c, s, earlier, at, before.receipts[at].terms, j)
    && ClockOf(Exec(c, s, earlier[..j]).value, at.venue).slot == ClockOf(before, at.venue).slot
    && settle.op.consenter == earlier[j].op.consenter && settle.op.consenter in settle.signers
    && settle.op.callbackProgram == earlier[j].op.member
  }

  /** Every settlement consumes the most recent receipt created at its address: in the same slot,
      with exactly the movements written then, signed then by the authority of its member program
      and by its consenter, and used by nothing in between. */
  lemma SettleConsumesLatestCreate(c: Chain, s: State, earlier: seq<Step>, settle: Step) returns (j: nat)
    requires Sound(c) && Genesis(c, s) && Exec(c, s, earlier).Success?
    requires settle.op.SettleBegin? && Next(c, Exec(c, s, earlier).value, settle).Success?
    ensures Consumes(c, s, earlier, settle, j)
  {
    var at := At(settle.venue, settle.op.receipt);
    var before := Exec(c, s, earlier).value;
    BeginNames(c, before, settle);
    j := LiveReceiptsWereWritten(c, s, earlier, at);
  }

  lemma BeginNames(c: Chain, s: State, st: Step)
    requires st.op.SettleBegin? && NextSettleBegin(c, s, st).Success?
    ensures var at := At(st.venue, st.op.receipt);
            LiveAt(s, at) && s.receipts[at].terms.slot == ClockOf(s, st.venue).slot
            && st.op.consenter == s.receipts[at].terms.consenter && st.op.consenter in st.signers
            && st.op.callbackProgram == s.receipts[at].terms.member
  {
  }

  // ---- Counting ----

  ghost function CountCreates(steps: seq<Step>, at: At): nat {
    if steps == [] then 0
    else CountCreates(steps[..|steps| - 1], at) + (if Creates(steps[|steps| - 1], at) then 1 else 0)
  }

  ghost function CountSettles(steps: seq<Step>, at: At): nat {
    if steps == [] then 0
    else CountSettles(steps[..|steps| - 1], at) + (if Settles(steps[|steps| - 1], at) then 1 else 0)
  }

  ghost function CountReaps(c: Chain, s: State, steps: seq<Step>, at: At): nat
    requires Exec(c, s, steps).Success?
    decreases |steps|
  {
    if steps == [] then 0
    else
      var earlier := steps[..|steps| - 1];
      CountReaps(c, s, earlier, at)
      + (if ReapsEffectively(Exec(c, s, earlier).value, Exec(c, s, steps).value, steps[|steps| - 1], at) then 1 else 0)
  }

  /** Settlements and reaps together never outnumber creations, at any address, in any run: no receipt
      is used twice, and none is both settled and reaped. */
  lemma {:induction false} EachReceiptIsUsedAtMostOnce(c: Chain, s: State, steps: seq<Step>, at: At)
    requires Sound(c) && Genesis(c, s) && Exec(c, s, steps).Success?
    ensures CountSettles(steps, at) + CountReaps(c, s, steps, at)
              + (if LiveAt(Exec(c, s, steps).value, at) then 1 else 0) <= CountCreates(steps, at)
    decreases |steps|
  {
    if steps != [] {
      var earlier := steps[..|steps| - 1];
      EachReceiptIsUsedAtMostOnce(c, s, earlier, at);
      RunInv(c, s, earlier);
      LiveEvolves(c, Exec(c, s, earlier).value, steps[|steps| - 1], at);
    }
  }

  /** After `steps` there is a live receipt at `at`. */
  ghost predicate LiveAfter(c: Chain, s: State, steps: seq<Step>, at: At) {
    Exec(c, s, steps).Success? && LiveAt(Exec(c, s, steps).value, at)
  }

  /** The last of `steps` ends a receipt at `at`: it settles it, or reaps it away. */
  ghost predicate LastEnds(c: Chain, s: State, steps: seq<Step>, at: At)
    requires steps != [] && Exec(c, s, steps).Success?
  {
    var earlier, st := steps[..|steps| - 1], steps[|steps| - 1];
    Settles(st, at) || ReapsEffectively(Exec(c, s, earlier).value, Exec(c, s, steps).value, st, at)
  }

  lemma EndsWhatWasLive(c: Chain, s: State, steps: seq<Step>, at: At)
    requires Sound(c) && Genesis(c, s) && steps != [] && Exec(c, s, steps).Success? && LastEnds(c, s, steps, at)
    ensures LiveAfter(c, s, steps[..|steps| - 1], at) && !LiveAfter(c, s, steps, at)
  {
    var last := |steps| - 1;
    RunInv(c, s, steps[..last]);
    LiveEvolves(c, Exec(c, s, steps[..last]).value, steps[last], at);
  }

  /** Without a create, what is not live stays so. */
  lemma {:induction false} OnlyACreateRevives(c: Chain, s: State, steps: seq<Step>, from: nat, at: At)
    requires Sound(c) && Genesis(c, s) && from <= |steps| && Exec(c, s, steps).Success?
    requires !LiveAfter(c, s, steps[..from], at) && forall n :: from <= n < |steps| ==> !Creates(steps[n], at)
    ensures !LiveAfter(c, s, steps, at)
    decreases |steps|
  {
    if from == |steps| {
      assert steps[..from] == steps;
    } else {
      var last := |steps| - 1;
      var earlier := steps[..last];
      assert earlier[..from] == steps[..from];
      OnlyACreateRevives(c, s, earlier, from, at);
      RunInv(c, s, earlier);
      LiveEvolves(c, Exec(c, s, earlier).value, steps[last], at);
    }
  }

  lemma CreatedBetween(c: Chain, s: State, steps: seq<Step>, from: nat, at: At) returns (n: nat)
    requires Sound(c) && Genesis(c, s) && from <= |steps| && LiveAfter(c, s, steps, at)
    requires !LiveAfter(c, s, steps[..from], at)
    ensures from <= n < |steps| && Creates(steps[n], at)
  {
    if forall n :: from <= n < |steps| ==> !Creates(steps[n], at) {
      OnlyACreateRevives(c, s, steps, from, at);
    }
    n :| from <= n < |steps| && Creates(steps[n], at);
  }

  /** If a run ends a receipt at an address with its last step and ended one there before, with step
      `i`, be it by two settlements, two reaps or one of each, then some step between them created a
      receipt there: none is settled twice, and none is both settled and reaped. */
  lemma SettleOrReapNeverBoth(c: Chain, s: State, steps: seq<Step>, i: nat, at: At)
    requires Sound(c) && Genesis(c, s) && i + 1 < |steps| && Exec(c, s, steps).Success? && LastEnds(c, s, steps, at)
    requires Exec(c, s, steps[..i + 1]).Success? && LastEnds(c, s, steps[..i + 1], at)
    ensures exists n :: i < n < |steps| - 1 && Creates(steps[n], at)
  {
    var earlier := steps[..|steps| - 1];
    EndsWhatWasLive(c, s, steps, at);
    EndsWhatWasLive(c, s, steps[..i + 1], at);
    assert earlier[..i + 1] == steps[..i + 1];
    var n := CreatedBetween(c, s, earlier, i + 1, at);
    assert Creates(steps[n], at);
  }

  // ---- The callback ----

  lemma SettlingIsNotSettled(c: Chain, s: State, st: Step)
    requires st.op.SettleBegin? && At(st.venue, st.op.receipt) in s.receipts
               && !s.receipts[At(st.venue, st.op.receipt)].live
    ensures NextSettleBegin(c, s, st).Failure?
  {
  }

  lemma SettlingIsNotWrittenOver(c: Chain, s: State, st: Step)
    requires st.op.CreateReceipt? && At(st.venue, st.op.receipt) in s.receipts
    requires s.receipts[At(st.venue, st.op.receipt)].terms.slot == ClockOf(s, st.venue).slot
    ensures NextCreateReceipt(c, s, st).Failure?
  {
  }

  lemma SettlingIsNotReaped(c: Chain, s: State, st: Step)
    requires st.op.Reap? && At(st.venue, st.op.receipt) in s.receipts && !s.receipts[At(st.venue, st.op.receipt)].live
    ensures NextReap(c, s, st) == Success(s) || NextReap(c, s, st).Failure?
  {
  }

  /** During its callback a receipt is inert: it cannot be settled, reaped or written over. */
  lemma SettlingReceiptIsInert(c: Chain, s: State, st: Step, i: nat)
    requires Inv(c, s) && i < |s.settling|
    requires st.venue == s.settling[i].at.venue
    requires (st.op.SettleBegin? || st.op.CreateReceipt? || st.op.Reap?) && st.op.receipt == s.settling[i].at.addr
    ensures st.op.SettleBegin? ==> Next(c, s, st).Failure?
    ensures st.op.CreateReceipt? ==> Next(c, s, st).Failure?
    ensures st.op.Reap? ==> Next(c, s, st) == Success(s) || Next(c, s, st).Failure?
  {
    assert s.settling[i].at == At(st.venue, st.op.receipt);
    if st.op.SettleBegin? {
      SettlingIsNotSettled(c, s, st);
    } else if st.op.CreateReceipt? {
      SettlingIsNotWrittenOver(c, s, st);
    } else {
      SettlingIsNotReaped(c, s, st);
    }
  }

  /** Steps during which the settlements under way at their start stay under way. */
  ghost predicate Within(c: Chain, s: State, steps: seq<Step>, depth: nat)
    requires Exec(c, s, steps).Success?
    decreases |steps|
  {
    && |Exec(c, s, steps).value.settling| >= depth
    && (steps != [] ==> Within(c, s, steps[..|steps| - 1], depth))
  }

  /** Settlement `i`, and its receipt, are in `s'` what they are in `s`. */
  ghost predicate StillSettling(s: State, s': State, i: nat) {
    && i < |s.settling| && i < |s'.settling| && s'.settling[i] == s.settling[i]
    && var at := s.settling[i].at;
       at in s.receipts && at in s'.receipts && s'.receipts[at] == s.receipts[at]
  }

  lemma CreateKeepsSettling(c: Chain, s: State, st: Step, i: nat)
    requires Inv(c, s) && st.op.CreateReceipt? && NextCreateReceipt(c, s, st).Success? && i < |s.settling|
    ensures StillSettling(s, NextCreateReceipt(c, s, st).value, i)
  {
    CreateWrites(c, s, st);
    assert At(st.venue, st.op.receipt) in s.receipts ==>
        s.receipts[At(st.venue, st.op.receipt)].terms.slot != ClockOf(s, st.venue).slot;
  }

  lemma BeginKeepsSettling(c: Chain, s: State, st: Step, i: nat)
    requires Inv(c, s) && st.op.SettleBegin? && NextSettleBegin(c, s, st).Success? && i < |s.settling|
    ensures StillSettling(s, NextSettleBegin(c, s, st).value, i)
  {
    BeginReads(c, s, st);
  }

  lemma ReapKeepsSettling(c: Chain, s: State, st: Step, i: nat)
    requires Inv(c, s) && st.op.Reap? && NextReap(c, s, st).Success? && i < |s.settling|
    ensures StillSettling(s, NextReap(c, s, st).value, i)
  {
    ReapRemoves(c, s, st);
  }

  lemma EndKeepsSettling(c: Chain, s: State, i: nat)
    requires Inv(c, s) && NextSettleEnd(c, s).Success? && i < |NextSettleEnd(c, s).value.settling|
    ensures StillSettling(s, NextSettleEnd(c, s).value, i)
  {
    EndRemovesKilled(c, s);
  }

  lemma EndStepKeepsSettling(c: Chain, s: State, st: Step, i: nat)
    requires Inv(c, s) && st.op.SettleEnd? && Next(c, s, st).Success? && i < |Next(c, s, st).value.settling|
    ensures i < |s.settling| && StillSettling(s, Next(c, s, st).value, i)
  {
    EndKeepsSettling(c, s, i);
  }

  lemma BeginStepKeepsSettling(c: Chain, s: State, st: Step, i: nat)
    requires Inv(c, s) && st.op.SettleBegin? && Next(c, s, st).Success? && i < |s.settling|
    ensures StillSettling(s, Next(c, s, st).value, i)
  {
    BeginKeepsSettling(c, s, st, i);
  }

  lemma OtherStepKeepsSettling(c: Chain, s: State, st: Step, i: nat)
    requires Inv(c, s) && !st.op.SettleBegin? && !st.op.SettleEnd? && Next(c, s, st).Success? && i < |s.settling|
    ensures StillSettling(s, Next(c, s, st).value, i)
  {
    if st.op.CreateReceipt? {
      CreateKeepsSettling(c, s, st, i);
    } else if st.op.Reap? {
      ReapKeepsSettling(c, s, st, i);
    } else {
      NonReceiptOpsKeepReceipts(c, s, st);
    }
  }

  lemma StepKeepsSettling(c: Chain, s: State, st: Step, i: nat)
    requires Inv(c, s) && Next(c, s, st).Success? && i < |s.settling| && i < |Next(c, s, st).value.settling|
    ensures StillSettling(s, Next(c, s, st).value, i)
  {
    if st.op.SettleBegin? {
      BeginStepKeepsSettling(c, s, st, i);
    } else if st.op.SettleEnd? {
      EndStepKeepsSettling(c, s, st, i);
    } else {
      OtherStepKeepsSettling(c, s, st, i);
    }
  }

  /** Whatever a callback does, the settlements it runs inside are still there afterwards, with their
      receipts as they were. */
  lemma {:induction false} CallbackKeepsSettlings(c: Chain, s: State, steps: seq<Step>, depth: nat, i: nat)
    requires Sound(c) && Inv(c, s) && Exec(c, s, steps).Success? && Within(c, s, steps, depth)
    requires i < depth <= |s.settling|
    ensures StillSettling(s, Exec(c, s, steps).value, i)
    decreases |steps|
  {
    if steps != [] {
      var earlier := steps[..|steps| - 1];
      CallbackKeepsSettlings(c, s, earlier, depth, i);
      ExecKeepsInv(c, s, earlier);
      StepKeepsSettling(c, Exec(c, s, earlier).value, steps[|steps| - 1], i);
    }
  }

  /** The state a callback starts in: its settlement is on top, over a killed receipt. */
  lemma CallbackStarts(c: Chain, s: State, begin: Step, mid: State)
    requires Sound(c) && Inv(c, s) && begin.op.SettleBegin? && Next(c, s, begin) == Success(mid)
    ensures Inv(c, mid)
    ensures var at := At(begin.venue, begin.op.receipt);
            && mid.settling == s.settling + [Settlement(at, begin.op.ephemeralVault)]
            && at in s.receipts && at in mid.receipts && mid.receipts[at] == ReceiptAccount(s.receipts[at].terms, false)
  {
    NextKeepsInv(c, s, begin);
    BeginReads(c, s, begin);
  }

  /** A whole settlement, callback included. `mid` is the state the callback starts in and `done` the
      one it leaves: the invariant holds in both; the settlement's end removes exactly the receipt
      its beginning used, whose terms nobody has changed; and it writes nothing else, so every
      ledger, reserve and session is as the callback left it. */
  lemma CallbackIsSafe(c: Chain, s: State, begin: Step, callback: seq<Step>, mid: State, done: State)
    requires Sound(c) && Inv(c, s) && begin.op.SettleBegin? && Next(c, s, begin) == Success(mid)
    requires Exec(c, mid, callback) == Success(done) && Within(c, mid, callback, |mid.settling|)
    requires |done.settling| == |mid.settling| && NextSettleEnd(c, done).Success?
    ensures Inv(c, mid) && Inv(c, done)
    ensures var at := At(begin.venue, begin.op.receipt); var s' := NextSettleEnd(c, done).value;
            && at in s.receipts && at in done.receipts
            && done.receipts[at] == ReceiptAccount(s.receipts[at].terms, false)
            && s' == done.(receipts := done.receipts - {at}, settling := s'.settling)
  {
    CallbackStarts(c, s, begin, mid);
    CallbackEnds(c, mid, callback, done);
  }

  lemma CallbackEnds(c: Chain, mid: State, callback: seq<Step>, done: State)
    requires Sound(c) && Inv(c, mid) && mid.settling != []
    requires Exec(c, mid, callback) == Success(done) && Within(c, mid, callback, |mid.settling|)
    requires |done.settling| == |mid.settling| && NextSettleEnd(c, done).Success?
    ensures Inv(c, done)
    ensures var at := mid.settling[|mid.settling| - 1].at; var s' := NextSettleEnd(c, done).value;
            && at in mid.receipts && at in done.receipts && done.receipts[at] == mid.receipts[at]
            && s' == done.(receipts := done.receipts - {at}, settling := s'.settling)
  {
    ExecKeepsInv(c, mid, callback);
    CallbackKeepsSettlings(c, mid, callback, |mid.settling|, |mid.settling| - 1);
    EndRemovesKilled(c, done);
  }

  // ---- Program ledgers ----

  lemma CheckedProgram(c: Chain, s: State, v: Venue, r: Receipt, infos: seq<Key>, idx: nat)
    requires idx < |infos| == |r.owners| && CheckLedger(c, s, v, r, infos, idx).None?
    ensures s.ledgers[infos[idx]].live.pdaAuth ==> s.ledgers[infos[idx]].live.authorized == r.member
  {
  }

  /** A program's ledger that a receipt takes from is bound to the receipt's member. */
  lemma ReceiptProgram(c: Chain, s: State, v: Venue, r: Receipt, infos: seq<Key>, owner: Key, m: Key)
    requires Sound(c) && LedgersOk(c, s.ledgers) && c.isPda(owner) && |infos| == |r.owners|
    requires CheckLedgers(c, s, v, r, infos, 0).None? && InRange(r.movements, |infos|)
    requires c.ledgerPda(owner) in s.ledgers && Net(infos, r.movements, c.ledgerPda(owner), m) < 0
    ensures BelongsTo(c, owner, r.member)
  {
    var a := c.ledgerPda(owner);
    LossesGoOut(infos, r.movements, a, m);
    var i :| 0 <= i < |r.movements| && infos[r.movements[i].src] == a;
    CheckedProgram(c, s, v, r, infos, r.movements[i].src);
    assert LedgerOk(c, a, s.ledgers[a]);
  }

  lemma BeginProgram(c: Chain, s: State, st: Step, s': State, owner: Key, m: Key)
    requires Sound(c) && LedgersOk(c, s.ledgers) && c.isPda(owner)
    requires st.op.SettleBegin? && NextSettleBegin(c, s, st) == Success(s')
    requires Holding(s', c.ledgerPda(owner), m) < Holding(s, c.ledgerPda(owner), m)
    ensures At(st.venue, st.op.receipt) in s.receipts
    ensures BelongsTo(c, owner, s.receipts[At(st.venue, st.op.receipt)].terms.member)
  {
    var r := ReadReceipt(s, st.venue, st.op.receipt).value;
    var infos := st.op.remaining[..|r.owners|];
    BeginMoves(c, s, st, r, infos);
    ReceiptDebits(c, s, st.venue, r, infos, s'.ledgers, owner, m);
  }

  lemma ReceiptDebits(c: Chain, s: State, v: Venue, r: Receipt, infos: seq<Key>, ls: map<Key, Acct<Book>>,
      owner: Key, m: Key)
    requires Sound(c) && LedgersOk(c, s.ledgers) && c.isPda(owner) && |infos| == |r.owners|
    requires CheckLedgers(c, s, v, r, infos, 0).None? && InRange(r.movements, |infos|)
    requires MoveAll(s.ledgers, infos, r.movements) == Success(ls)
    requires HeldIn(ls, c.ledgerPda(owner), m) < HeldIn(s.ledgers, c.ledgerPda(owner), m)
    ensures BelongsTo(c, owner, r.member)
  {
    MoveAllEffect(s.ledgers, infos, r.movements);
    ReceiptProgram(c, s, v, r, infos, owner, m);
  }

  lemma PlainProgramDebits(c: Chain, s: State, st: Step, owner: Key, m: Key)
    requires Sound(c) && Next(c, s, st).Success?
    requires st.op.Withdraw? || st.op.Close?
    requires Holding(Next(c, s, st).value, c.ledgerPda(owner), m) < Holding(s, c.ledgerPda(owner), m)
    ensures owner in st.signers
  {
    OwnLedgerOnly(c, s, st);
    assert st.op.ledger == c.ledgerPda(owner);
  }

  lemma SettleProgramDebits(c: Chain, s: State, st: Step, owner: Key, m: Key)
    requires Sound(c) && LedgersOk(c, s.ledgers) && st.op.Settle? && NextSettle(c, s, st).Success?
    requires Holding(NextSettle(c, s, st).value, c.ledgerPda(owner), m) < Holding(s, c.ledgerPda(owner), m)
    ensures owner in st.signers
  {
    var op := st.op;
    var a := c.ledgerPda(owner);
    SettleMoves(c, s, st);
    MoveShape(s.ledgers, op.src, op.dst, op.mint, op.amount);
    MoveEffect(s.ledgers, op.src, op.dst, op.mint, op.amount, a, m);
    assert LedgerOk(c, a, s.ledgers[a]);
  }

  lemma DepositDebitsNone(c: Chain, s: State, st: Step, a: Key, m: Key)
    requires Sound(c) && LedgersOk(c, s.ledgers) && st.op.Deposit? && Next(c, s, st).Success?
    ensures Holding(Next(c, s, st).value, a, m) >= Holding(s, a, m)
  {
    DepositAccounts(c, s, st, a, m);
    FlowsOfOne(Journal(c, s, st)[0], OfLedger(a), m);
  }

  lemma StepProgramDebits(c: Chain, s: State, st: Step, owner: Key, m: Key)
    requires Sound(c) && Inv(c, s) && c.isPda(owner) && Next(c, s, st).Success?
    requires Holding(Next(c, s, st).value, c.ledgerPda(owner), m) < Holding(s, c.ledgerPda(owner), m)
    ensures owner in st.signers || st.op.SettleBegin?
  {
    var op := st.op;
    var a := c.ledgerPda(owner);
    if op.Settle? {
      SettleProgramDebits(c, s, st, owner, m);
    } else if op.Deposit? {
      DepositDebitsNone(c, s, st, a, m);
    } else if op.Withdraw? || op.Close? {
      PlainProgramDebits(c, s, st, owner, m);
    } else if !op.SettleBegin? {
      OthersTouchNone(c, s, st, a, m);
    }
  }

  /** What it means for the settled receipt, in the words of the step that created it. */
  lemma ConsumesMeans(c: Chain, s: State, earlier: seq<Step>, settle: Step, before: State, j: nat)
    requires settle.op.SettleBegin? && Exec(c, s, earlier) == Success(before) && Consumes(c, s, earlier, settle, j)
    ensures j < |earlier| && earlier[j].op.CreateReceipt?
    ensures At(settle.venue, settle.op.receipt) in before.receipts
    ensures earlier[j].op.member == before.receipts[At(settle.venue, settle.op.receipt)].terms.member
    ensures earlier[j].op.authority in earlier[j].signers
    ensures BelongsTo(c, earlier[j].op.authority, earlier[j].op.member)
  {
  }

  /** The step that created the settled receipt, and what it and the settlement agree on. */
  lemma LatestCreate(c: Chain, s: State, earlier: seq<Step>, settle: Step, before: State) returns (j: nat)
    requires Sound(c) && Genesis(c, s) && Exec(c, s, earlier) == Success(before)
    requires settle.op.SettleBegin? && Next(c, before, settle).Success?
    ensures Consumes(c, s, earlier, settle, j)
    ensures j < |earlier| && earlier[j].op.CreateReceipt?
    ensures At(settle.venue, settle.op.receipt) in before.receipts
    ensures earlier[j].op.member == before.receipts[At(settle.venue, settle.op.receipt)].terms.member
    ensures earlier[j].op.authority in earlier[j].signers
    ensures BelongsTo(c, earlier[j].op.authority, earlier[j].op.member)
  {
    j := SettleConsumesLatestCreate(c, s, earlier, settle);
    ConsumesMeans(c, s, earlier, settle, before, j);
  }

  lemma ReceiptThatDebits(c: Chain, s: State, earlier: seq<Step>, settle: Step, before: State, after: State,
      owner: Key, m: Key)
    returns (j: nat)
    requires Sound(c) && Genesis(c, s) && Exec(c, s, earlier) == Success(before) && c.isPda(owner)
    requires settle.op.SettleBegin? && Next(c, before, settle) == Success(after)
    requires Holding(after, c.ledgerPda(owner), m) < Holding(before, c.ledgerPda(owner), m)
    ensures Consumes(c, s, earlier, settle, j)
    ensures j < |earlier| && earlier[j].op.CreateReceipt? && BelongsTo(c, owner, earlier[j].op.member)
    ensures earlier[j].op.authority in earlier[j].signers
    ensures BelongsTo(c, earlier[j].op.authority, earlier[j].op.member)
  {
    RunInvAt(c, s, earlier, before);
    j := LatestCreate(c, s, earlier, settle, before);
    AsBegin(c, before, settle, after);
    BeginProgram(c, before, settle, after, owner, m);
  }

  /** A program's ledger moves only under its own program. If the last step of a run takes from it,
      then its owner signed that step, or the step settles a receipt, and the very step that wrote
      that receipt, earlier in the run and in the same slot, names that program and was signed by an
      address of it. */
  lemma ProgramLedgersObeyTheirProgram(c: Chain, s: State, steps: seq<Step>, owner: Key, m: Key)
    requires Sound(c) && Genesis(c, s) && steps != [] && Exec(c, s, steps).Success? && c.isPda(owner)
    requires var before := Exec(c, s, steps[..|steps| - 1]).value;
             Holding(Exec(c, s, steps).value, c.ledgerPda(owner), m) < Holding(before, c.ledgerPda(owner), m)
    ensures var earlier, st := steps[..|steps| - 1], steps[|steps| - 1];
            || owner in st.signers
            || (st.op.SettleBegin? && exists j: nat ::
                  && j < |earlier| && Consumes(c, s, earlier, st, j)
                  && earlier[j].op.CreateReceipt? && BelongsTo(c, owner, earlier[j].op.member)
                  && earlier[j].op.authority in earlier[j].signers
                  && BelongsTo(c, earlier[j].op.authority, earlier[j].op.member))
  {
    var earlier, st := steps[..|steps| - 1], steps[|steps| - 1];
    RunInv(c, s, earlier);
    var before := Exec(c, s, earlier).value;
    StepProgramDebits(c, before, st, owner, m);
    if owner !in st.signers {
      var _ := ReceiptThatDebits(c, s, earlier, st, before, Exec(c, s, steps).value, owner, m);
    }
  }

  // ---- Who can open a slot on a program's ledger ----

  /** A program's ledger that a receipt opens a mint on is bound to the receipt's member. */
  lemma ReceiptOpens(c: Chain, s: State, v: Venue, r: Receipt, infos: seq<Key>, ls: map<Key, Acct<Book>>, a: Key,
      m: Key)
    requires LedgersOk(c, s.ledgers) && |infos| == |r.owners| && InRange(r.movements, |infos|)
    requires CheckLedgers(c, s, v, r, infos, 0).None? && MoveAll(s.ledgers, infos, r.movements) == Success(ls)
    requires a in s.ledgers && s.ledgers[a].live.pdaAuth && m !in s.ledgers[a].live.claims && m in ls[a].live.claims
    ensures BelongsTo(c, s.ledgers[a].live.owner, r.member)
  {
    NewMintsComeIn(s.ledgers, infos, r.movements, a, m);
    var i :| 0 <= i < |r.movements| && infos[r.movements[i].dst] == a && r.movements[i].mint == m;
    CheckedProgram(c, s, v, r, infos, r.movements[i].dst);
    assert LedgerOk(c, a, s.ledgers[a]);
  }

  lemma BeginOpens(c: Chain, s: State, st: Step, s': State, owner: Key, m: Key)
    requires Sound(c) && LedgersOk(c, s.ledgers) && c.isPda(owner)
    requires st.op.SettleBegin? && NextSettleBegin(c, s, st) == Success(s') && Opens(s, s', c.ledgerPda(owner), m)
    ensures At(st.venue, st.op.receipt) in s.receipts
    ensures BelongsTo(c, owner, s.receipts[At(st.venue, st.op.receipt)].terms.member)
  {
    var r := ReadReceipt(s, st.venue, st.op.receipt).value;
    BeginMoves(c, s, st, r, st.op.remaining[..|r.owners|]);
    LedgersAreOwn(c, s.ledgers);
    ReceiptOpens(c, s, st.venue, r, st.op.remaining[..|r.owners|], s'.ledgers, c.ledgerPda(owner), m);
  }

  lemma SettleOpens(c: Chain, s: State, st: Step, s': State, a: Key, m: Key)
    requires LedgersOk(c, s.ledgers) && st.op.Settle? && NextSettle(c, s, st) == Success(s') && Opens(s, s', a, m)
    ensures a == st.op.dst && m == st.op.mint && st.op.src in s.ledgers && s.ledgers[st.op.src].live.owner in st.signers
  {
    SettleMoves(c, s, st);
    MoveClaims(s.ledgers, st.op.src, st.op.dst, st.op.mint, st.op.amount, m);
  }

  lemma DepositOpens(c: Chain, s: State, st: Step, s': State, owner: Key, m: Key)
    requires Sound(c) && c.isPda(owner) && st.op.Deposit? && NextDeposit(c, s, st) == Success(s')
    ensures !Opens(s, s', c.ledgerPda(owner), m)
  {
    DepositResult(c, s, st);
  }

  lemma WithdrawOpensNone(c: Chain, s: State, st: Step, s': State, a: Key, m: Key)
    requires st.op.Withdraw? || st.op.Close?
    requires Next(c, s, st) == Success(s')
    ensures !Opens(s, s', a, m)
  {
  }

  /** Only two kinds of steps open a slot on a program's ledger: a settlement to it, for which the payer
      signed and nobody else was asked, and the settlement of a receipt of that very program. */
  lemma WhoOpensProgramSlots(c: Chain, s: State, st: Step, s': State, owner: Key, m: Key)
    requires Sound(c) && Inv(c, s) && c.isPda(owner) && Next(c, s, st) == Success(s')
    requires Opens(s, s', c.ledgerPda(owner), m)
    ensures || (st.op.Settle? && st.op.dst == c.ledgerPda(owner) && st.op.mint == m
                && st.op.src in s.ledgers && s.ledgers[st.op.src].live.owner in st.signers)
            || (st.op.SettleBegin? && At(st.venue, st.op.receipt) in s.receipts
                && BelongsTo(c, owner, s.receipts[At(st.venue, st.op.receipt)].terms.member))
  {
    var op := st.op;
    if op.Settle? {
      SettleOpens(c, s, st, s', c.ledgerPda(owner), m);
    } else if op.SettleBegin? {
      BeginOpens(c, s, st, s', owner, m);
    } else if op.Deposit? {
      DepositOpens(c, s, st, s', owner, m);
    } else if op.Withdraw? || op.Close? {
      WithdrawOpensNone(c, s, st, s', c.ledgerPda(owner), m);
    } else {
      OthersTouchNone(c, s, st, c.ledgerPda(owner), m);
    }
  }
}
