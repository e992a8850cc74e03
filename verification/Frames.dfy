/** Which parts of the state each instruction can write. */
module Frames {
  import opened Base
  import opened Books
  import opened Chains
  import opened Machine
  import opened Receipts
  import opened Sessions

  /** From `s` to `s'`, `op` writes only these parts. */
  ghost predicate Frame(op: Op, s: State, s': State) {
    if op.OpenPda? || op.GrowPda? || op.Settle? || op.Delegate? || op.Undelegate? || op.FinishUndelegation? then
      s' == s.(ledgers := s'.ledgers)
    else if op.OpenWallet? then
      s' == s.(ledgers := s'.ledgers, sessions := s'.sessions)
    else if op.Deposit? || op.Close? then
      s' == s.(ledgers := s'.ledgers, sessions := s'.sessions, pools := s'.pools, lamports := s'.lamports)
    else if op.Withdraw? then
      s' == s.(ledgers := s'.ledgers, pools := s'.pools, lamports := s'.lamports)
    else if op.Authorize? || op.Revoke? then
      s' == s.(sessions := s'.sessions)
    else if op.SettleBegin? then
      s' == s.(ledgers := s'.ledgers, receipts := s'.receipts, settling := s'.settling)
    else if op.CreateReceipt? || op.SettleEnd? || op.Reap? then
      s' == s.(receipts := s'.receipts, settling := s'.settling)
    else if op.Tick? then
      s' == s.(clocks := s'.clocks)
    else
      s' == s.(pools := s'.pools, lamports := s'.lamports)
  }

  lemma WithSessionFrame(c: Chain, s: State, owner: Key, session: Key, prefunded: nat, funded: bool)
    requires WithSession(c, s, owner, session, prefunded, funded).Success?
    ensures var s' := WithSession(c, s, owner, session, prefunded, funded).value; s' == s.(sessions := s'.sessions)
  {
  }

  lemma OpenWalletFrame(c: Chain, s: State, st: Step)
    requires st.op.OpenWallet? && NextOpenWallet(c, s, st).Success?
    ensures Frame(st.op, s, NextOpenWallet(c, s, st).value)
  {
    var op := st.op;
    var book := NewBook(op.owner, false, op.owner, ZERO_KEY, op.slots);
    WithSessionFrame(c, s.(ledgers := s.ledgers[op.ledger := Acct(book, Home)]), op.owner, op.session, op.prefunded,
        op.funded);
  }

  lemma OpenPdaFrame(c: Chain, s: State, st: Step)
    requires st.op.OpenPda? && NextOpenPda(c, s, st).Success?
    ensures Frame(st.op, s, NextOpenPda(c, s, st).value)
  {
  }

  lemma GrowPdaFrame(c: Chain, s: State, st: Step)
    requires st.op.GrowPda? && NextGrowPda(c, s, st).Success?
    ensures Frame(st.op, s, NextGrowPda(c, s, st).value)
  {
  }

  lemma TakeInFrame(c: Chain, s: State, op: Op)
    requires op.Deposit? && TakeIn(c, s, op).Success?
    ensures var s' := TakeIn(c, s, op).value; s' == s.(pools := s'.pools, lamports := s'.lamports)
  {
  }

  lemma DepositFrame(c: Chain, s: State, st: Step)
    requires st.op.Deposit? && NextDeposit(c, s, st).Success?
    ensures Frame(st.op, s, NextDeposit(c, s, st).value)
  {
    var op := st.op;
    WithSessionFrame(c, s, op.owner, op.session, op.prefunded, op.funded);
    TakeInFrame(c, WithSession(c, s, op.owner, op.session, op.prefunded, op.funded).value, op);
  }

  lemma WithdrawFrame(c: Chain, s: State, st: Step)
    requires st.op.Withdraw? && NextWithdraw(c, s, st).Success?
    ensures Frame(st.op, s, NextWithdraw(c, s, st).value)
  {
  }

  lemma CloseFrame(c: Chain, s: State, st: Step)
    requires st.op.Close? && NextClose(c, s, st).Success?
    ensures Frame(st.op, s, NextClose(c, s, st).value)
  {
  }

  lemma SettleFrame(c: Chain, s: State, st: Step)
    requires st.op.Settle? && NextSettle(c, s, st).Success?
    ensures Frame(st.op, s, NextSettle(c, s, st).value)
  {
  }

  lemma ReceiptFrame(c: Chain, s: State, st: Step)
    requires st.op.CreateReceipt? || st.op.SettleBegin? || st.op.SettleEnd? || st.op.Reap?
    requires Next(c, s, st).Success?
    ensures Frame(st.op, s, Next(c, s, st).value)
  {
  }

  lemma AuthorizeFrame(c: Chain, s: State, st: Step)
    requires st.op.Authorize? && NextAuthorize(c, s, st).Success?
    ensures Frame(st.op, s, NextAuthorize(c, s, st).value)
  {
    var op := st.op;
    if op.session !in s.sessions {
      WithSessionFrame(c, s, op.owner, op.session, op.prefunded, op.funded);
    }
  }

  lemma RevokeFrame(c: Chain, s: State, st: Step)
    requires st.op.Revoke? && NextRevoke(c, s, st).Success?
    ensures Frame(st.op, s, NextRevoke(c, s, st).value)
  {
  }

  lemma OtherFrame(c: Chain, s: State, st: Step)
    requires st.op.Delegate? || st.op.Undelegate? || st.op.FinishUndelegation? || st.op.InitializeVault?
          || st.op.Tick? || st.op.Donate? || st.op.CreateReserve?
    requires Next(c, s, st).Success?
    ensures Frame(st.op, s, Next(c, s, st).value)
  {
  }

  /** No instruction writes outside its frame. */
  lemma StepFrame(c: Chain, s: State, st: Step)
    requires Next(c, s, st).Success?
    ensures Frame(st.op, s, Next(c, s, st).value)
  {
    match st.op
    case OpenWallet(_, _, _, _, _, _) => OpenWalletFrame(c, s, st);
    case OpenPda(_, _, _, _, _, _, _) => OpenPdaFrame(c, s, st);
    case GrowPda(_, _, _, _, _, _) => GrowPdaFrame(c, s, st);
    case Deposit(_, _, _, _, _, _, _, _, _, _, _, _, _, _) => DepositFrame(c, s, st);
    case Withdraw(_, _, _, _, _, _, _, _, _, _) => WithdrawFrame(c, s, st);
    case Close(_, _, _, _, _, _, _, _) => CloseFrame(c, s, st);
    case Settle(_, _, _, _, _, _, _) => SettleFrame(c, s, st);
    case Authorize(_, _, _, _, _, _, _) => AuthorizeFrame(c, s, st);
    case Revoke(_, _, _, _) => RevokeFrame(c, s, st);
    case CreateReceipt(_, _, _, _, _, _, _, _, _, _, _) => ReceiptFrame(c, s, st);
    case SettleBegin(_, _, _, _, _, _, _) => ReceiptFrame(c, s, st);
    case SettleEnd => ReceiptFrame(c, s, st);
    case Reap(_, _, _) => ReceiptFrame(c, s, st);
    case _ => OtherFrame(c, s, st);
  }
}
