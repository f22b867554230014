/**
 Billing over whole runs: what each transmitter has earned, been paid and is still owed; and
 what each step does to the contract's balance and its debts.
 */
module AggregatorAccounting {
  import opened Wrappers
  import opened Bytes
  import opened Seqs
  import opened Runs
  import opened Reimbursement
  import opened AggregatorSpec
  import opened AggregatorPayouts
  import opened AggregatorInvariant
  import opened AggregatorRuns
  import Report

  // ---------- the ledger ----------

  function ReportReimbursement(b: Billing, report: seq<byte>, signatureCount: nat): nat {
    match Report.DecodeReport(report)
    case Failure(_) => 0
    case Success(d) => CalculateReimbursement(b, d.juelsPerFeeCoin, signatureCount).UnwrapOr(0)
  }

  /**
   An accepted transmission earns every current transmitter one observation payment, and its
   sender the transmission payment and the gas reimbursement.
   */
  function MessageCredit(s: State, sender: Addr, msg: Msg, t: Addr): nat {
    match msg
    case Transmit(_, report, signatures) =>
      (if t in s.transmitters then PerRound(s.config.billing) else 0)
      + (if sender == t then
           s.config.billing.transmissionPaymentGjuels * GIGA
             + ReportReimbursement(s.config.billing, report, |signatures|)
         else 0)
    case _ => 0
  }

  ghost function Credit(lib: Lib, self: Addr, t: Addr): (World, Act) -> nat {
    (w: World, act: Act) =>
      if Transmits(lib, self, w, act) then MessageCredit(w.state, act.sender, act.msg, t) else 0
  }

  /** Tokens that go out on behalf of t, to the payee of t at that time. */
  ghost function Payment(lib: Lib, self: Addr, t: Addr): (World, Act) -> nat {
    (w: World, act: Act) =>
      match Committed(lib, self, w, act)
      case None => 0
      case Some(c) => PaidToPayee(c.outcome.response.transfers, w.state.payees, t)
  }

  function Pending(config: Config, t: Transmitter): nat {
    if t.fromRoundId <= config.latestAggregatorRoundId then config.latestAggregatorRoundId - t.fromRoundId else 0
  }

  predicate OwedNothing(config: Config, t: Transmitter) {
    PerRound(config.billing) * Pending(config, t) + t.payment == 0
  }

  ghost predicate SetsBilling(lib: Lib, self: Addr, w: World, act: Act) {
    act.Call? && act.msg.SetBilling? && Committed(lib, self, w, act).Some?
  }

  /**
   A transmitter that is owed nothing is skipped by the payout before a billing change, and
   keeps its pending rounds, which the new billing then prices.
   */
  function MessageWindfall(s: State, msg: Msg, t: Addr): nat {
    match msg
    case SetBilling(billing) =>
      if t in s.transmitters && OwedNothing(s.config, s.transmitters[t]) then
        NonNegative(PerRound(billing), Pending(s.config, s.transmitters[t]));
        PerRound(billing) * Pending(s.config, s.transmitters[t])
      else 0
    case _ => 0
  }

  ghost function Windfall(lib: Lib, self: Addr, t: Addr): (World, Act) -> nat {
    (w: World, act: Act) => if SetsBilling(lib, self, w, act) then MessageWindfall(w.state, act.msg, t) else 0
  }

  ghost function OwedNow(t: Addr): World -> nat {
    (w: World) =>
      if t in w.state.transmitters then
        PerRound(w.state.config.billing) * Pending(w.state.config, w.state.transmitters[t])
          + w.state.transmitters[t].payment
      else 0
  }

  lemma OwedNowIsOwed(w: World, t: Addr)
    requires RoundsInPast(w.state.config, w.state.transmitters)
    ensures OwedNow(t)(w) == OwedTo(w.state.config, w.state.transmitters, t)
  {
  }

  // ---------- one step of the ledger ----------

  lemma OneMoreRound(perRound: nat, rounds: nat)
    ensures perRound * (rounds + 1) == perRound * rounds + perRound
  {
  }

  lemma OneMoreRoundOwed(config: Config, config': Config, t: Transmitter, t': Transmitter)
    requires config'.billing == config.billing && config'.latestAggregatorRoundId == config.latestAggregatorRoundId + 1
    requires t'.fromRoundId == t.fromRoundId <= config.latestAggregatorRoundId && t'.payment >= t.payment
    ensures Owed(config', t') == Owed(config, t) + PerRound(config.billing) + (t'.payment - t.payment)
  {
    OneMoreRound(PerRound(config.billing), config.latestAggregatorRoundId - t.fromRoundId);
  }

  lemma TransmitShape(lib: Lib, env: Env, s: State, sender: Addr, reportContext: seq<byte>, report: seq<byte>,
                      signatures: seq<seq<byte>>)
    requires Inv(s) && StepTransmit(lib, env, s, sender, reportContext, report, signatures).Success?
    ensures var s' := StepTransmit(lib, env, s, sender, reportContext, report, signatures).value.state;
            && RoundsInPast(s.config, s.transmitters)
            && sender in s.transmitters && s'.transmitters.Keys == s.transmitters.Keys
            && s'.config.billing == s.config.billing
            && s'.config.latestAggregatorRoundId == s.config.latestAggregatorRoundId + 1
            && (forall k :: k in s.transmitters ==> s'.transmitters[k].fromRoundId == s.transmitters[k].fromRoundId)
            && (forall k :: k in s.transmitters && k != sender ==> s'.transmitters[k] == s.transmitters[k])
            && s'.transmitters[sender].payment
               == s.transmitters[sender].payment + s.config.billing.transmissionPaymentGjuels * GIGA
                  + ReportReimbursement(s.config.billing, report, |signatures|)
  {
    assert sender in s.transmitters;
    hide CheckTransmit, CalculateReimbursement;
  }

  lemma TransmitLedger(lib: Lib, env: Env, s: State, sender: Addr, reportContext: seq<byte>, report: seq<byte>,
                       signatures: seq<seq<byte>>, t: Addr)
    requires Inv(s) && StepTransmit(lib, env, s, sender, reportContext, report, signatures).Success?
    ensures var s' := StepTransmit(lib, env, s, sender, reportContext, report, signatures).value.state;
            && RoundsInPast(s'.config, s'.transmitters)
            && OwedTo(s'.config, s'.transmitters, t)
               == OwedTo(s.config, s.transmitters, t)
                  + (if t in s.transmitters then PerRound(s.config.billing) else 0)
                  + (if sender == t then
                       s.config.billing.transmissionPaymentGjuels * GIGA
                       + ReportReimbursement(s.config.billing, report, |signatures|)
                     else 0)
  {
    TransmitShape(lib, env, s, sender, reportContext, report, signatures);
    hide Inv, StepTransmit, PerRound, ReportReimbursement, Owed;
    if t in s.transmitters {
      var s' := StepTransmit(lib, env, s, sender, reportContext, report, signatures).value.state;
      OneMoreRoundOwed(s.config, s'.config, s.transmitters[t], s'.transmitters[t]);
    }
  }

  lemma AcceptShape(lib: Lib, env: Env, s: State, sender: Addr, id: uint128, digest: seq<byte>)
    requires Inv(s) && StepAcceptProposal(lib, env, s, sender, id, digest).Success?
    ensures var o := StepAcceptProposal(lib, env, s, sender, id, digest).value;
            && PayAll(s).Success? && o.response.transfers == PayAll(s).value.transfers
            && o.state.config.latestAggregatorRoundId == s.config.latestAggregatorRoundId
            && o.state.config.billing == s.config.billing && o.state.config.linkToken == s.config.linkToken
            && (forall k :: k in o.state.transmitters ==>
                  o.state.transmitters[k] == Transmitter(0, s.config.latestAggregatorRoundId))
  {
    InstallMembers(s.proposals[id].oracles, s.config.latestAggregatorRoundId, s.payees);
  }

  lemma NewcomersAreOwedNothing(config: Config, ts: map<Addr, Transmitter>, t: Addr)
    requires forall k :: k in ts ==> ts[k] == Transmitter(0, config.latestAggregatorRoundId)
    ensures RoundsInPast(config, ts) && OwedTo(config, ts, t) == 0
  {
  }

  lemma AcceptLedger(lib: Lib, env: Env, s: State, sender: Addr, id: uint128, digest: seq<byte>, t: Addr)
    requires Inv(s) && StepAcceptProposal(lib, env, s, sender, id, digest).Success?
    ensures var o := StepAcceptProposal(lib, env, s, sender, id, digest).value;
            && RoundsInPast(o.state.config, o.state.transmitters)
            && OwedTo(o.state.config, o.state.transmitters, t) == 0
            && PaidFor(o.response.transfers, t) == OwedTo(s.config, s.transmitters, t)
  {
    AcceptShape(lib, env, s, sender, id, digest);
    PayAllFor(s, t);
    var o := StepAcceptProposal(lib, env, s, sender, id, digest).value;
    NewcomersAreOwedNothing(o.state.config, o.state.transmitters, t);
  }

  /** A settled record under another billing is worth its pending rounds, if it was skipped. */
  lemma SettledUnderNewBilling(config: Config, billing: Billing, t: Transmitter)
    requires t.fromRoundId <= config.latestAggregatorRoundId
    ensures Settled(config, t).fromRoundId <= config.latestAggregatorRoundId
    ensures Owed(config.(billing := billing), Settled(config, t))
         == if OwedNothing(config, t) then PerRound(billing) * Pending(config, t) else 0
  {
    NonNegative(PerRound(config.billing), Pending(config, t));
  }

  lemma SetBillingLedger(env: Env, s: State, sender: Addr, billing: Billing, t: Addr)
    requires Inv(s) && StepSetBilling(env, s, sender, billing).Success?
    ensures var o := StepSetBilling(env, s, sender, billing).value;
            && RoundsInPast(o.state.config, o.state.transmitters)
            && PaidFor(o.response.transfers, t) == OwedTo(s.config, s.transmitters, t)
            && OwedTo(o.state.config, o.state.transmitters, t)
               == if t in s.transmitters && OwedNothing(s.config, s.transmitters[t])
                  then PerRound(billing) * Pending(s.config, s.transmitters[t]) else 0
  {
    var o := StepSetBilling(env, s, sender, billing).value;
    assert o.state.transmitters == PayAll(s).value.transmitters && o.state.config == s.config.(billing := billing);
    PayoutKeeps(s, s.config.(billing := billing));
    PayAllFor(s, t);
    if t in s.transmitters {
      SettledUnderNewBilling(s.config, billing, s.transmitters[t]);
    }
  }

  lemma SetLinkTokenShape(env: Env, s: State, sender: Addr, linkToken: Addr, recipient: Addr)
    requires StepSetLinkToken(env, s, sender, linkToken, recipient).Success? && linkToken != s.config.linkToken
    ensures var o := StepSetLinkToken(env, s, sender, linkToken, recipient).value;
            && PayAll(s).Success?
            && o.state == s.(config := s.config.(linkToken := linkToken), transmitters := PayAll(s).value.transmitters)
            && o.response.transfers == PayAll(s).value.transfers
                 + [Transfer(s.config.linkToken, recipient,
                             if env.balance > PayAll(s).value.total then env.balance - PayAll(s).value.total
                               else 0, None)]
  {
  }

  lemma SetLinkTokenLedger(env: Env, s: State, sender: Addr, linkToken: Addr, recipient: Addr, t: Addr)
    requires Inv(s) && StepSetLinkToken(env, s, sender, linkToken, recipient).Success?
    ensures var o := StepSetLinkToken(env, s, sender, linkToken, recipient).value;
            && RoundsInPast(o.state.config, o.state.transmitters)
            && PaidFor(o.response.transfers, t) + OwedTo(o.state.config, o.state.transmitters, t)
               == OwedTo(s.config, s.transmitters, t)
  {
    if linkToken != s.config.linkToken {
      SetLinkTokenShape(env, s, sender, linkToken, recipient);
      SetLinkTokenKeeps(env, s, sender, linkToken, recipient);
      var o := StepSetLinkToken(env, s, sender, linkToken, recipient).value;
      var transfers := PayAll(s).value.transfers;
      PaidForAppend(transfers, o.response.transfers[|transfers|], t);
      PayAllFor(s, t);
      if t in s.transmitters {
        SettledIsZero(s.config, s.transmitters[t]);
        assert Owed(o.state.config, o.state.transmitters[t]) == Owed(s.config, Settled(s.config, s.transmitters[t]));
      }
    }
  }

  lemma WithdrawPaymentShape(s: State, sender: Addr, transmitter: Addr)
    requires Inv(s) && StepWithdrawPayment(s, sender, transmitter).Success?
    ensures transmitter in s.transmitters && Owed(s.config, s.transmitters[transmitter]) < TWO_128
    ensures transmitter in s.payees && s.payees[transmitter] == sender
    ensures var o := StepWithdrawPayment(s, sender, transmitter).value;
            var owed := Owed(s.config, s.transmitters[transmitter]);
            && o.state.config == s.config
            && o.state.transmitters == s.transmitters[transmitter := Settled(s.config, s.transmitters[transmitter])]
            && o.response.transfers == if owed == 0 then []
               else [Transfer(s.config.linkToken, sender, owed, Some(transmitter))]
  {
  }

  lemma SettleOne(config: Config, ts: map<Addr, Transmitter>, key: Addr, t: Addr)
    requires RoundsInPast(config, ts) && key in ts
    ensures RoundsInPast(config, ts[key := Settled(config, ts[key])])
    ensures OwedTo(config, ts[key := Settled(config, ts[key])], t) == if t == key then 0 else OwedTo(config, ts, t)
  {
    SettledIsZero(config, ts[key]);
  }

  lemma SinglePayout(token: Addr, recipient: Addr, amount: uint128, k: Addr, t: Addr)
    ensures PaidFor(if amount == 0 then [] else [Transfer(token, recipient, amount, Some(k))], t)
         == if k == t then amount else 0
  {
    if amount > 0 {
      PaidForAppend([], Transfer(token, recipient, amount, Some(k)), t);
      assert [] + [Transfer(token, recipient, amount, Some(k))] == [Transfer(token, recipient, amount, Some(k))];
    }
  }

  lemma WithdrawPaymentLedger(s: State, sender: Addr, transmitter: Addr, t: Addr)
    requires Inv(s) && StepWithdrawPayment(s, sender, transmitter).Success?
    ensures var o := StepWithdrawPayment(s, sender, transmitter).value;
            && RoundsInPast(o.state.config, o.state.transmitters)
            && PaidFor(o.response.transfers, t) + OwedTo(o.state.config, o.state.transmitters, t)
               == OwedTo(s.config, s.transmitters, t)
  {
    assert RoundsInPast(s.config, s.transmitters);
    WithdrawPaymentShape(s, sender, transmitter);
    hide Inv, RoundsInPast, StepWithdrawPayment, Owed, Settled, PaidFor;
    SettleOne(s.config, s.transmitters, transmitter, t);
    SinglePayout(s.config.linkToken, sender, Owed(s.config, s.transmitters[transmitter]), transmitter, t);
  }

  lemma WithdrawFundsTransfer(env: Env, s: State, sender: Addr, recipient: Addr, amount: uint128)
    requires StepWithdrawFunds(env, s, sender, recipient, amount).Success?
    ensures TotalLinkDue(s).Success?
    ensures var o := StepWithdrawFunds(env, s, sender, recipient, amount).value;
            var due := TotalLinkDue(s).value;
            var free := if env.balance > due then env.balance - due else 0;
            && o.state == s
            && o.response.transfers
               == [Transfer(s.config.linkToken, recipient, if amount < free then amount else free, None)]
  {
  }

  lemma WithdrawFundsLedger(env: Env, s: State, sender: Addr, recipient: Addr, amount: uint128, t: Addr)
    requires StepWithdrawFunds(env, s, sender, recipient, amount).Success?
    ensures var o := StepWithdrawFunds(env, s, sender, recipient, amount).value;
            o.state == s && PaidFor(o.response.transfers, t) == 0
  {
    WithdrawFundsTransfer(env, s, sender, recipient, amount);
    var transfers := StepWithdrawFunds(env, s, sender, recipient, amount).value.response.transfers;
    hide StepWithdrawFunds, TotalLinkDue, PaidFor;
    assert [] + [transfers[0]] == transfers;
    PaidForAppend([], transfers[0], t);
    assert PaidFor([], t) == 0 by {
      NothingPaid(t);
    }
  }

  lemma NothingPaid(t: Addr)
    ensures PaidFor([], t) == 0
  {
  }

  /** The messages that touch neither debts nor payouts. */
  lemma OtherLedger(lib: Lib, env: Env, s: State, sender: Addr, msg: Msg, t: Addr)
    requires Inv(s) && Step(lib, env, s, sender, msg).Success?
    requires !(msg.Transmit? || msg.AcceptProposal? || msg.SetBilling? || msg.SetLinkToken? || msg.WithdrawPayment?)
    ensures var o := Step(lib, env, s, sender, msg).value;
            o.state.config == s.config && o.state.transmitters == s.transmitters
              && PaidFor(o.response.transfers, t) == 0
  {
    hide Inv, CheckTransmit, Record, Install, PayOut, PayOne, TotalLinkDue;
    match msg {
      case WithdrawFunds(recipient, amount) => WithdrawFundsLedger(env, s, sender, recipient, amount, t);
      case _ =>
    }
  }

  lemma MessageEffect(lib: Lib, env: Env, s: State, sender: Addr, msg: Msg, t: Addr)
    requires Inv(s) && Step(lib, env, s, sender, msg).Success?
    ensures var o := Step(lib, env, s, sender, msg).value;
            && RoundsInPast(s.config, s.transmitters) && RoundsInPast(o.state.config, o.state.transmitters)
            && OwedTo(o.state.config, o.state.transmitters, t) + PaidFor(o.response.transfers, t)
               == OwedTo(s.config, s.transmitters, t) + MessageCredit(s, sender, msg, t) + MessageWindfall(s, msg, t)
  {
    assert RoundsInPast(s.config, s.transmitters);
    hide Inv, RoundsInPast, Owed, PerRound, Pending, OwedNothing, ReportReimbursement, PaidFor,
      StepTransmit, StepAcceptProposal, StepSetBilling, StepSetLinkToken, StepWithdrawPayment, StepWithdrawFunds;
    match msg {
      case Transmit(reportContext, report, signatures) =>
        TransmitLedger(lib, env, s, sender, reportContext, report, signatures, t);
      case AcceptProposal(id, digest) => AcceptLedger(lib, env, s, sender, id, digest, t);
      case SetBilling(billing) => SetBillingLedger(env, s, sender, billing, t);
      case SetLinkToken(linkToken, recipient) => SetLinkTokenLedger(env, s, sender, linkToken, recipient, t);
      case WithdrawPayment(transmitter) => WithdrawPaymentLedger(s, sender, transmitter, t);
      case _ => OtherLedger(lib, env, s, sender, msg, t);
    }
  }

  lemma CommittedOutcome(lib: Lib, self: Addr, w: World, act: Act)
    requires Committed(lib, self, w, act).Some?
    ensures act.Call?
    ensures Step(lib, EnvOf(self, w, act), w.state, act.sender, act.msg)
         == Success(Committed(lib, self, w, act).value.outcome)
  {
    hide Step, RunTransfers;
  }

  lemma MessageIncome(lib: Lib, self: Addr, w: World, act: Act, t: Addr)
    requires Committed(lib, self, w, act).Some?
    ensures act.Call?
    ensures Credit(lib, self, t)(w, act) == MessageCredit(w.state, act.sender, act.msg, t)
    ensures Windfall(lib, self, t)(w, act) == MessageWindfall(w.state, act.msg, t)
  {
    CommittedOutcome(lib, self, w, act);
    hide Committed, Step, PerRound, Pending, OwedNothing, ReportReimbursement;
  }

  lemma MessageLedger(lib: Lib, self: Addr, w: World, act: Act, t: Addr)
    requires Inv(w.state) && Committed(lib, self, w, act).Some?
    ensures var c := Committed(lib, self, w, act).value;
            && RoundsInPast(c.outcome.state.config, c.outcome.state.transmitters)
            && OwedTo(c.outcome.state.config, c.outcome.state.transmitters, t)
               + PaidFor(c.outcome.response.transfers, t)
               == OwedTo(w.state.config, w.state.transmitters, t) + Credit(lib, self, t)(w, act)
                  + Windfall(lib, self, t)(w, act)
  {
    CommittedOutcome(lib, self, w, act);
    MessageIncome(lib, self, w, act, t);
    hide Committed, Credit, Windfall, MessageCredit, MessageWindfall, Inv, Step, RoundsInPast, OwedTo, PaidFor;
    MessageEffect(lib, EnvOf(self, w, act), w.state, act.sender, act.msg, t);
  }

  lemma PayAllToPayees(s: State)
    requires RoundsInPast(s.config, s.transmitters) && PayAll(s).Success?
    ensures ToPayees(PayAll(s).value.transfers, s.payees)
  {
    PayAllEffect(s);
  }

  lemma SettingsPayPayees(env: Env, s: State, sender: Addr, linkToken: Addr, recipient: Addr, billing: Billing)
    requires RoundsInPast(s.config, s.transmitters)
    ensures var r := StepSetBilling(env, s, sender, billing);
            r.Success? ==> ToPayees(r.value.response.transfers, s.payees)
    ensures var r := StepSetLinkToken(env, s, sender, linkToken, recipient);
            r.Success? ==> ToPayees(r.value.response.transfers, s.payees)
  {
    if PayAll(s).Success? {
      PayAllToPayees(s);
    }
    hide PayAll, RoundsInPast;
  }

  lemma TransmitTransfersNothing(lib: Lib, env: Env, s: State, sender: Addr, reportContext: seq<byte>,
      report: seq<byte>, signatures: seq<seq<byte>>)
    requires StepTransmit(lib, env, s, sender, reportContext, report, signatures).Success?
    ensures StepTransmit(lib, env, s, sender, reportContext, report, signatures).value.response.transfers == []
  {
    hide CheckTransmit, Record;
  }

  /** Every message makes its payouts to the payees. */
  lemma MessagePayees(lib: Lib, env: Env, s: State, sender: Addr, msg: Msg)
    requires Inv(s) && Step(lib, env, s, sender, msg).Success?
    ensures ToPayees(Step(lib, env, s, sender, msg).value.response.transfers, s.payees)
  {
    assert RoundsInPast(s.config, s.transmitters);
    hide Inv, RoundsInPast, StepTransmit, StepAcceptProposal, StepSetBilling, StepSetLinkToken, StepWithdrawPayment,
      StepWithdrawFunds, PayAll, Owed, Settled;
    match msg {
      case AcceptProposal(id, digest) =>
        AcceptShape(lib, env, s, sender, id, digest);
        PayAllToPayees(s);
      case SetBilling(billing) => SettingsPayPayees(env, s, sender, s.config.linkToken, sender, billing);
      case SetLinkToken(linkToken, recipient) =>
        SettingsPayPayees(env, s, sender, linkToken, recipient, s.config.billing);
      case WithdrawPayment(transmitter) => WithdrawPaymentShape(s, sender, transmitter);
      case Transmit(reportContext, report, signatures) =>
        TransmitTransfersNothing(lib, env, s, sender, reportContext, report, signatures);
      case WithdrawFunds(recipient, amount) => WithdrawFundsTransfer(env, s, sender, recipient, amount);
      case _ =>
    }
  }

  lemma PaymentIsPaidFor(lib: Lib, self: Addr, w: World, act: Act, t: Addr)
    requires Inv(w.state) && Committed(lib, self, w, act).Some?
    ensures ToPayees(Committed(lib, self, w, act).value.outcome.response.transfers, w.state.payees)
    ensures Payment(lib, self, t)(w, act) == PaidFor(Committed(lib, self, w, act).value.outcome.response.transfers, t)
  {
    CommittedOutcome(lib, self, w, act);
    MessagePayees(lib, EnvOf(self, w, act), w.state, act.sender, act.msg);
    hide Step, Committed, Inv, ToPayees;
    AllGoesToPayees(Committed(lib, self, w, act).value.outcome.response.transfers, w.state.payees, t);
  }

  lemma StepLedger(lib: Lib, self: Addr, w: World, act: Act, t: Addr)
    requires Inv(w.state)
    ensures OwedNow(t)(Next(lib, self, w, act)) + Payment(lib, self, t)(w, act)
         == OwedNow(t)(w) + Plus(Credit(lib, self, t), Windfall(lib, self, t))(w, act)
  {
    OwedNowIsOwed(w, t);
    if Committed(lib, self, w, act).Some? {
      MessageLedger(lib, self, w, act, t);
      PaymentIsPaidFor(lib, self, w, act, t);
      OwedNowIsOwed(Next(lib, self, w, act), t);
    } else {
      assert Next(lib, self, w, act).state == w.state;
    }
  }

  // ---------- whole runs ----------

  ghost function Credited(lib: Lib, self: Addr, w: World, acts: seq<Act>, t: Addr): nat {
    Total(Machine(lib, self), Credit(lib, self, t), w, acts)
  }

  ghost function Paid(lib: Lib, self: Addr, w: World, acts: seq<Act>, t: Addr): nat {
    Total(Machine(lib, self), Payment(lib, self, t), w, acts)
  }

  ghost function Windfalls(lib: Lib, self: Addr, w: World, acts: seq<Act>, t: Addr): nat {
    Total(Machine(lib, self), Windfall(lib, self, t), w, acts)
  }

  ghost function Outstanding(lib: Lib, self: Addr, w: World, acts: seq<Act>, t: Addr): nat {
    OwedNow(t)(Run(Machine(lib, self), w, acts))
  }

  /** After any run: paid plus owed is what was credited, plus what billing changes gave for rounds already skipped. */
  lemma Accounting(lib: Lib, self: Addr, w: World, acts: seq<Act>, t: Addr)
    requires Fresh(w)
    ensures Paid(lib, self, w, acts, t) + Outstanding(lib, self, w, acts, t)
         == Credited(lib, self, w, acts, t) + Windfalls(lib, self, w, acts, t)
  {
    var income := Plus(Credit(lib, self, t), Windfall(lib, self, t));
    FreshIsGood(w);
    GoodIsInductive(lib, self);
    forall v: World, act: Act | Good()(v)
      ensures OwedNow(t)(Machine(lib, self)(v, act)) + Payment(lib, self, t)(v, act) == OwedNow(t)(v) + income(v, act)
    {
      StepLedger(lib, self, v, act, t);
    }
    BalanceAlong(Machine(lib, self), Good(), OwedNow(t), income, Payment(lib, self, t), w, acts);
    TotalPlus(Machine(lib, self), Credit(lib, self, t), Windfall(lib, self, t), w, acts);
    assert OwedNow(t)(w) == 0;
  }

  /** The billing change prices no round that the payout before it skipped. */
  ghost predicate SafeBilling(lib: Lib, self: Addr, w: World, act: Act) {
    SetsBilling(lib, self, w, act) ==>
      forall t :: t in w.state.transmitters && OwedNothing(w.state.config, w.state.transmitters[t]) ==>
        PerRound(act.msg.billing) == 0 || Pending(w.state.config, w.state.transmitters[t]) == 0
  }

  lemma ProductZero(a: nat, b: nat)
    ensures a * b == 0 <==> a == 0 || b == 0
  {
  }

  lemma SafeMeansNoWindfall(lib: Lib, self: Addr, w: World, act: Act)
    ensures SafeBilling(lib, self, w, act) <==> forall t :: Windfall(lib, self, t)(w, act) == 0
  {
    if SetsBilling(lib, self, w, act) {
      forall t | t in w.state.transmitters && OwedNothing(w.state.config, w.state.transmitters[t])
        ensures Windfall(lib, self, t)(w, act) == 0 <==>
                PerRound(act.msg.billing) == 0 || Pending(w.state.config, w.state.transmitters[t]) == 0
      {
        ProductZero(PerRound(act.msg.billing), Pending(w.state.config, w.state.transmitters[t]));
      }
    }
  }

  /**
   Paid plus owed equals credited for every transmitter exactly when no billing change of the
   run moved off a zero observation payment while a skipped transmitter had rounds pending.
   */
  lemma ExactAccountingIff(lib: Lib, self: Addr, w: World, acts: seq<Act>)
    requires Fresh(w)
    ensures (forall t ::
               Paid(lib, self, w, acts, t) + Outstanding(lib, self, w, acts, t) == Credited(lib, self, w, acts, t))
       <==> (forall i :: 0 <= i < |acts| ==> SafeBilling(lib, self, At(Machine(lib, self), w, acts, i), acts[i]))
  {
    forall t
      ensures Paid(lib, self, w, acts, t) + Outstanding(lib, self, w, acts, t) == Credited(lib, self, w, acts, t)
         <==> (forall i :: 0 <= i < |acts| ==> Windfall(lib, self, t)(At(Machine(lib, self), w, acts, i), acts[i]) == 0)
    {
      Accounting(lib, self, w, acts, t);
      TotalZeroIff(Machine(lib, self), Windfall(lib, self, t), w, acts);
    }
    forall i | 0 <= i < |acts|
      ensures SafeBilling(lib, self, At(Machine(lib, self), w, acts, i), acts[i])
         <==> (forall t :: Windfall(lib, self, t)(At(Machine(lib, self), w, acts, i), acts[i]) == 0)
    {
      SafeMeansNoWindfall(lib, self, At(Machine(lib, self), w, acts, i), acts[i]);
    }
  }

  // ---------- balance and debts ----------

  /** The contract's balance of its current LINK token. */
  ghost function Funds(self: Addr, w: World): nat {
    Balance(w.tokens, w.state.config.linkToken, self)
  }

  ghost function Debts(s: State): nat
    requires RoundsInPast(s.config, s.transmitters)
  {
    TotalOwed(s.config, s.transmitters)
  }

  /** No payout or withdrawal goes back to the contract itself. */
  ghost predicate PaysOthers(self: Addr, transfers: seq<Transfer>) {
    forall i :: 0 <= i < |transfers| ==> transfers[i].recipient != self
  }

  lemma CommittedDebits(lib: Lib, self: Addr, w: World, act: Act, token: Addr)
    requires Committed(lib, self, w, act).Some?
    requires var transfers := Committed(lib, self, w, act).value.outcome.response.transfers;
             PaysOthers(self, transfers) && forall i :: 0 <= i < |transfers| ==> transfers[i].token == token
    ensures var c := Committed(lib, self, w, act).value;
            Balance(c.tokens, token, self) + Amounts(c.outcome.response.transfers) == Balance(w.tokens, token, self)
  {
    RunTransfersDebits(w.tokens, self, token, Committed(lib, self, w, act).value.outcome.response.transfers);
  }

  ghost predicate Commits(lib: Lib, self: Addr, w: World, act: Act) {
    Committed(lib, self, w, act).Some?
      && PaysOthers(self, Committed(lib, self, w, act).value.outcome.response.transfers)
  }

  /** withdraw_payment moves balance and debts down together. */
  lemma WithdrawPaymentKeepsMargin(lib: Lib, self: Addr, w: World, act: Act)
    requires Inv(w.state) && Commits(lib, self, w, act) && act.msg.WithdrawPayment?
    ensures Inv(Next(lib, self, w, act).state)
    ensures Funds(self, Next(lib, self, w, act)) + Debts(w.state)
         == Funds(self, w) + Debts(Next(lib, self, w, act).state)
  {
    CommittedKeeps(lib, self, w, act);
    var s, key := w.state, act.msg.transmitter;
    WithdrawPaymentShape(s, act.sender, key);
    CommittedDebits(lib, self, w, act, s.config.linkToken);
    SettledIsZero(s.config, s.transmitters[key]);
    TotalOwedChange(s.config, s.transmitters, key, Settled(s.config, s.transmitters[key]));
    var transfers := Committed(lib, self, w, act).value.outcome.response.transfers;
    if |transfers| > 0 {
      assert [] + [transfers[0]] == transfers;
      PaidForAppend([], transfers[0], key);
    }
  }

  /** accept_proposal pays every debt out of the balance and leaves none. */
  lemma AcceptPaysAllDebts(lib: Lib, self: Addr, w: World, act: Act)
    requires Inv(w.state) && Commits(lib, self, w, act) && act.msg.AcceptProposal?
    ensures Inv(Next(lib, self, w, act).state)
    ensures Debts(Next(lib, self, w, act).state) == 0
    ensures Funds(self, Next(lib, self, w, act)) + Debts(w.state) == Funds(self, w)
  {
    CommittedKeeps(lib, self, w, act);
    var s := w.state;
    var o := Committed(lib, self, w, act).value.outcome;
    AcceptShape(lib, EnvOf(self, w, act), s, act.sender, act.msg.id, act.msg.digest);
    PayAllEffect(s);
    CommittedDebits(lib, self, w, act, s.config.linkToken);
    forall k ensures OwedTo(o.state.config, o.state.transmitters, k) == 0 {
      NewcomersAreOwedNothing(o.state.config, o.state.transmitters, k);
    }
    SumOwedZero(o.state.config, o.state.transmitters, SortedKeys(o.state.transmitters.Keys));
  }

  /** set_billing pays every debt; under the new billing nothing is owed exactly when the change was safe. */
  lemma SetBillingPaysAllDebts(lib: Lib, self: Addr, w: World, act: Act)
    requires Inv(w.state) && Commits(lib, self, w, act) && act.msg.SetBilling?
    ensures Inv(Next(lib, self, w, act).state)
    ensures Funds(self, Next(lib, self, w, act)) + Debts(w.state) == Funds(self, w)
    ensures Debts(Next(lib, self, w, act).state) == 0 <==> SafeBilling(lib, self, w, act)
  {
    CommittedKeeps(lib, self, w, act);
    var s := w.state;
    var s' := Next(lib, self, w, act).state;
    PayAllEffect(s);
    CommittedDebits(lib, self, w, act, s.config.linkToken);
    assert RoundsInPast(s'.config, s'.transmitters);
    hide Inv, Owed, StepTransmit, StepAcceptProposal, StepSetLinkToken, StepWithdrawPayment, StepWithdrawFunds, PayOut,
      RoundsInPast;
    forall t ensures OwedTo(s'.config, s'.transmitters, t) == Windfall(lib, self, t)(w, act) {
      SetBillingLedger(EnvOf(self, w, act), s, act.sender, act.msg.billing, t);
    }
    SafeMeansNoWindfall(lib, self, w, act);
    TotalOwedZeroIff(s'.config, s'.transmitters);
  }

  lemma {:induction false} SumOwedZeroIff(config: Config, ts: map<Addr, Transmitter>, keys: seq<Addr>)
    requires RoundsInPast(config, ts)
    ensures SumOwed(config, ts, keys) == 0 <==> forall k :: k in keys ==> OwedTo(config, ts, k) == 0
  {
    if |keys| > 0 {
      SumOwedZeroIff(config, ts, keys[..|keys| - 1]);
      assert keys == keys[..|keys| - 1] + [keys[|keys| - 1]];
    }
  }

  lemma TotalOwedZeroIff(config: Config, ts: map<Addr, Transmitter>)
    requires RoundsInPast(config, ts)
    ensures TotalOwed(config, ts) == 0 <==> forall k :: OwedTo(config, ts, k) == 0
  {
    var keys := SortedKeys(ts.Keys);
    SumOwedZeroIff(config, ts, keys);
    if forall k :: k in keys ==> OwedTo(config, ts, k) == 0 {
      forall k ensures OwedTo(config, ts, k) == 0 {
        assert k in ts <==> k in keys;
      }
    }
  }

  lemma SameDebtUnderNewToken(config: Config, linkToken: Addr, ts: map<Addr, Transmitter>)
    requires RoundsInPast(config, ts)
    ensures RoundsInPast(config.(linkToken := linkToken), ts)
    ensures TotalOwed(config.(linkToken := linkToken), ts) == TotalOwed(config, ts)
  {
    hide SortedKeys;
    SumOwedExtensional(config, ts, config.(linkToken := linkToken), ts, SortedKeys(ts.Keys));
  }

  lemma SetLinkTokenSettles(env: Env, s: State, sender: Addr, linkToken: Addr, recipient: Addr)
    requires Inv(s) && StepSetLinkToken(env, s, sender, linkToken, recipient).Success?
             && linkToken != s.config.linkToken
    ensures var o := StepSetLinkToken(env, s, sender, linkToken, recipient).value;
            && RoundsInPast(o.state.config, o.state.transmitters)
            && TotalOwed(o.state.config, o.state.transmitters) == 0
            && (forall i :: 0 <= i < |o.response.transfers| ==> o.response.transfers[i].token == s.config.linkToken)
            && Amounts(o.response.transfers) >= env.balance
  {
    SetLinkTokenShape(env, s, sender, linkToken, recipient);
    PayAllEffect(s);
    PayAllSettlesEverything(s);
    var o := StepSetLinkToken(env, s, sender, linkToken, recipient).value;
    var p := PayAll(s).value;
    hide StepSetLinkToken, Inv, PayAll, TotalOwed, Amounts, RoundsInPast;
    SameDebtUnderNewToken(s.config, linkToken, p.transmitters);
    PaidForAppend(p.transfers, o.response.transfers[|p.transfers|], recipient);
  }

  /** A token change leaves neither a balance of the old token nor a debt behind. */
  lemma SetLinkTokenLeavesNothing(lib: Lib, self: Addr, w: World, act: Act)
    requires Inv(w.state) && Commits(lib, self, w, act)
    requires act.msg.SetLinkToken? && act.msg.linkToken != w.state.config.linkToken
    ensures Inv(Next(lib, self, w, act).state)
    ensures Debts(Next(lib, self, w, act).state) == 0
    ensures Balance(Next(lib, self, w, act).tokens, w.state.config.linkToken, self) == 0
  {
    CommittedKeeps(lib, self, w, act);
    SetLinkTokenSettles(EnvOf(self, w, act), w.state, act.sender, act.msg.linkToken, act.msg.recipient);
    CommittedDebits(lib, self, w, act, w.state.config.linkToken);
  }

  lemma TransmittersAreFew(s: State)
    requires OracleSetSized(s)
    ensures |s.transmitters| <= MAX_ORACLES
  {
  }

  lemma OneTransfer(t: Transfer)
    ensures Amounts([t]) == t.amount
  {
    assert [] + [t] == [t];
    PaidForAppend([], t, t.recipient);
  }

  lemma WithdrawFundsShape(env: Env, s: State, sender: Addr, recipient: Addr, amount: uint128)
    requires Inv(s) && StepWithdrawFunds(env, s, sender, recipient, amount).Success?
    ensures var o := StepWithdrawFunds(env, s, sender, recipient, amount).value;
            var due := TotalOwed(s.config, s.transmitters);
            var free := if env.balance > due then env.balance - due else 0;
            && o.state == s
            && o.response.transfers
               == [Transfer(s.config.linkToken, recipient, if amount < free then amount else free, None)]
            && Amounts(o.response.transfers) == if amount < free then amount else free
  {
    TransmittersAreFew(s);
    TotalLinkDueIsTotalOwed(s);
    WithdrawFundsTransfer(env, s, sender, recipient, amount);
    var transfers := StepWithdrawFunds(env, s, sender, recipient, amount).value.response.transfers;
    hide StepWithdrawFunds, TotalLinkDue, TotalOwed, Inv, Amounts;
    OneTransfer(transfers[0]);
    assert transfers == [transfers[0]];
  }

  /** withdraw_funds takes at most what exceeds the debts. */
  lemma WithdrawFundsStaysSolvent(lib: Lib, self: Addr, w: World, act: Act)
    requires Inv(w.state) && Commits(lib, self, w, act) && act.msg.WithdrawFunds?
    ensures Next(lib, self, w, act).state == w.state
    ensures var free := if Funds(self, w) > Debts(w.state) then Funds(self, w) - Debts(w.state) else 0;
            Funds(self, Next(lib, self, w, act))
            == Funds(self, w) - if act.msg.amount < free then act.msg.amount else free
    ensures Funds(self, w) >= Debts(w.state) ==> Funds(self, Next(lib, self, w, act)) >= Debts(w.state)
  {
    WithdrawFundsShape(EnvOf(self, w, act), w.state, act.sender, act.msg.recipient, act.msg.amount);
    CommittedDebits(lib, self, w, act, w.state.config.linkToken);
  }
}
