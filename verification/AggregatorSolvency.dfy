/**
 Tokens over whole runs: every token the contract holds came in or goes out by a transfer, and
 its LINK balance covers its debts exactly as long as each new debt is covered when it arises.
 */
module AggregatorSolvency {
  import opened Bytes
  import opened Seqs
  import opened Runs
  import opened Reimbursement
  import opened AggregatorSpec
  import opened AggregatorPayouts
  import opened AggregatorInvariant
  import opened AggregatorRuns
  import opened AggregatorAccounting

  // ---------- sums over transfers ----------

  function SumWhere(transfers: seq<Transfer>, p: Transfer -> bool): nat {
    if |transfers| == 0 then 0
    else
      SumWhere(transfers[..|transfers| - 1], p)
      + if p(transfers[|transfers| - 1]) then transfers[|transfers| - 1].amount else 0
  }

  function LeavesFor(token: Addr, self: Addr): Transfer -> bool {
    (t: Transfer) => t.token == token && t.recipient != self
  }

  function Leaves(self: Addr): Transfer -> bool {
    (t: Transfer) => t.recipient != self
  }

  /** Payouts are made on behalf of an oracle, all other transfers are withdrawals. */
  function IsPayout(): Transfer -> bool {
    (t: Transfer) => t.forOracle.Some?
  }

  function IsReturn(self: Addr): Transfer -> bool {
    (t: Transfer) => t.forOracle.Some? && t.recipient == self
  }

  function IsWithdrawal(self: Addr): Transfer -> bool {
    (t: Transfer) => t.forOracle.None? && t.recipient != self
  }

  lemma {:induction false} SumWhereAgree(transfers: seq<Transfer>, p: Transfer -> bool, q: Transfer -> bool)
    requires forall i :: 0 <= i < |transfers| ==> p(transfers[i]) == q(transfers[i])
    ensures SumWhere(transfers, p) == SumWhere(transfers, q)
  {
    if |transfers| > 0 {
      SumWhereAgree(transfers[..|transfers| - 1], p, q);
    }
  }

  lemma {:induction false} SumWhereNone(transfers: seq<Transfer>, p: Transfer -> bool)
    requires forall i :: 0 <= i < |transfers| ==> !p(transfers[i])
    ensures SumWhere(transfers, p) == 0
  {
    if |transfers| > 0 {
      SumWhereNone(transfers[..|transfers| - 1], p);
    }
  }

  /** What leaves is payouts and withdrawals, less the payouts that come straight back. */
  lemma {:induction false} LeavingParts(transfers: seq<Transfer>, self: Addr)
    ensures SumWhere(transfers, Leaves(self)) + SumWhere(transfers, IsReturn(self))
         == SumWhere(transfers, IsPayout()) + SumWhere(transfers, IsWithdrawal(self))
  {
    if |transfers| > 0 {
      LeavingParts(transfers[..|transfers| - 1], self);
    }
  }

  // ---------- conservation of any token ----------

  lemma MoveFlow(tokens: Tokens, token: Addr, source: Addr, target: Addr, amount: uint128, other: Addr, who: Addr)
    requires MoveTokens(tokens, token, source, target, amount).Some?
    ensures Balance(MoveTokens(tokens, token, source, target, amount).value, other, who)
              + (if other == token && who == source then amount else 0)
         == Balance(tokens, other, who) + (if other == token && who == target then amount else 0)
  {
  }

  lemma {:induction false} RunTransfersFlow(tokens: Tokens, self: Addr, token: Addr, transfers: seq<Transfer>)
    requires RunTransfers(tokens, self, transfers).Some?
    ensures Balance(RunTransfers(tokens, self, transfers).value, token, self)
            + SumWhere(transfers, LeavesFor(token, self))
         == Balance(tokens, token, self)
  {
    if |transfers| > 0 {
      var front, t := transfers[..|transfers| - 1], transfers[|transfers| - 1];
      RunTransfersFlow(tokens, self, token, front);
      var before := RunTransfers(tokens, self, front).value;
      MoveFlow(before, t.token, self, t.recipient, t.amount, token, self);
      hide MoveTokens, Balance;
    }
  }

  function ArrivesAt(token: Addr, who: Addr): Transfer -> bool {
    (t: Transfer) => t.token == token && t.recipient == who
  }

  /** Everyone else receives just what the transfers name them as recipient for. */
  lemma {:induction false} RunTransfersCredits(
      tokens: Tokens, self: Addr, token: Addr, who: Addr, transfers: seq<Transfer>)
    requires RunTransfers(tokens, self, transfers).Some? && who != self
    ensures Balance(RunTransfers(tokens, self, transfers).value, token, who)
         == Balance(tokens, token, who) + SumWhere(transfers, ArrivesAt(token, who))
  {
    if |transfers| > 0 {
      var front, t := transfers[..|transfers| - 1], transfers[|transfers| - 1];
      RunTransfersCredits(tokens, self, token, who, front);
      var before := RunTransfers(tokens, self, front).value;
      MoveFlow(before, t.token, self, t.recipient, t.amount, token, who);
      hide MoveTokens, Balance;
    }
  }

  /** What others transfer to the contract. */
  ghost function Incoming(self: Addr, token: Addr): (World, Act) -> nat {
    (w: World, act: Act) =>
      if act.Move? && act.source != self && act.target == self && act.token == token
         && MoveTokens(w.tokens, act.token, act.source, act.target, act.amount).Some? then act.amount
      else 0
  }

  ghost function TransfersOf(lib: Lib, self: Addr, w: World, act: Act): seq<Transfer> {
    match Committed(lib, self, w, act)
    case None => []
    case Some(c) => c.outcome.response.transfers
  }

  /** What the contract transfers to others. */
  ghost function Outgoing(lib: Lib, self: Addr, token: Addr): (World, Act) -> nat {
    (w: World, act: Act) => SumWhere(TransfersOf(lib, self, w, act), LeavesFor(token, self))
  }

  ghost function BalanceOf(self: Addr, token: Addr): World -> nat {
    (w: World) => Balance(w.tokens, token, self) as nat
  }

  lemma StepConserves(lib: Lib, self: Addr, token: Addr, w: World, act: Act)
    ensures Balance(Next(lib, self, w, act).tokens, token, self) + Outgoing(lib, self, token)(w, act)
         == Balance(w.tokens, token, self) + Incoming(self, token)(w, act)
  {
    if act.Call? {
      if Committed(lib, self, w, act).Some? {
        RunTransfersFlow(w.tokens, self, token, TransfersOf(lib, self, w, act));
      }
      hide Step, Balance, RunTransfers;
    } else if act.source != self && MoveTokens(w.tokens, act.token, act.source, act.target, act.amount).Some? {
      MoveFlow(w.tokens, act.token, act.source, act.target, act.amount, token, self);
      hide MoveTokens, Balance;
    }
  }

  /** Over any run, and for any token: the balance is what there was and came in, less what went out. */
  lemma TokenConservation(lib: Lib, self: Addr, w: World, acts: seq<Act>, token: Addr)
    ensures Balance(Run(Machine(lib, self), w, acts).tokens, token, self)
              + Total(Machine(lib, self), Outgoing(lib, self, token), w, acts)
         == Balance(w.tokens, token, self) + Total(Machine(lib, self), Incoming(self, token), w, acts)
  {
    hide Next, Balance, Outgoing, Incoming;
    var any := (_: World) => true;
    forall v: World, act: Act
      ensures BalanceOf(self, token)(Machine(lib, self)(v, act)) + Outgoing(lib, self, token)(v, act)
           == BalanceOf(self, token)(v) + Incoming(self, token)(v, act)
    {
      StepConserves(lib, self, token, v, act);
    }
    BalanceAlong(Machine(lib, self), any, BalanceOf(self, token), Incoming(self, token), Outgoing(lib, self, token),
                 w, acts);
  }

  // ---------- sums over transmitters ----------

  ghost function SumOver(keys: seq<Addr>, f: Addr -> nat): nat {
    if |keys| == 0 then 0 else SumOver(keys[..|keys| - 1], f) + f(keys[|keys| - 1])
  }

  lemma {:induction false} SumOverZero(keys: seq<Addr>, f: Addr -> nat)
    requires forall k :: k in keys ==> f(k) == 0
    ensures SumOver(keys, f) == 0
  {
    if |keys| > 0 {
      SumOverZero(keys[..|keys| - 1], f);
    }
  }

  lemma {:induction false} SumOverBalance(keys: seq<Addr>, a: Addr -> nat, b: Addr -> nat, c: Addr -> nat,
      d: Addr -> nat, e: Addr -> nat)
    requires forall k :: k in keys ==> a(k) + b(k) == c(k) + d(k) + e(k)
    ensures SumOver(keys, a) + SumOver(keys, b) == SumOver(keys, c) + SumOver(keys, d) + SumOver(keys, e)
  {
    if |keys| > 0 {
      SumOverBalance(keys[..|keys| - 1], a, b, c, d, e);
    }
  }

  lemma {:induction false} SumOverBump(keys: seq<Addr>, f: Addr -> nat, g: Addr -> nat, key: Addr, amount: nat)
    requires Distinct(keys)
    requires forall k :: k in keys ==> g(k) == f(k) + if k == key then amount else 0
    ensures SumOver(keys, g) == SumOver(keys, f) + if key in keys then amount else 0
  {
    if |keys| > 0 {
      var front, last := keys[..|keys| - 1], keys[|keys| - 1];
      SumOverBump(front, f, g, key, amount);
      assert keys == front + [last] && last !in front;
    }
  }

  ghost function Keys(w: World): seq<Addr> {
    SortedKeys(w.state.transmitters.Keys)
  }

  function PaidTo(transfers: seq<Transfer>): Addr -> nat {
    (t: Addr) => PaidFor(transfers, t)
  }

  /** Payouts made for the given oracles add up to what each of them is paid. */
  lemma {:induction false} PayoutsByOracle(transfers: seq<Transfer>, keys: seq<Addr>)
    requires Distinct(keys)
    requires forall i :: 0 <= i < |transfers| && transfers[i].forOracle.Some? ==> transfers[i].forOracle.value in keys
    ensures SumWhere(transfers, IsPayout()) == SumOver(keys, PaidTo(transfers))
  {
    if |transfers| == 0 {
      SumOverZero(keys, PaidTo(transfers));
    } else {
      var front, last := transfers[..|transfers| - 1], transfers[|transfers| - 1];
      PayoutsByOracle(front, keys);
      match last.forOracle {
        case None => SumOverBump(keys, PaidTo(front), PaidTo(transfers), [], 0);
        case Some(k) => SumOverBump(keys, PaidTo(front), PaidTo(transfers), k, last.amount);
      }
    }
  }

  // ---------- what a message transfers ----------

  /** All transfers are in the given token, and payouts are for the given oracles. */
  ghost predicate LinkPayouts(transfers: seq<Transfer>, linkToken: Addr, oracles: set<Addr>) {
    forall i :: 0 <= i < |transfers| ==>
      transfers[i].token == linkToken && (transfers[i].forOracle.Some? ==> transfers[i].forOracle.value in oracles)
  }

  lemma {:induction false} PayOutLabels(config: Config, ts: map<Addr, Transmitter>, payees: map<Addr, Addr>,
      keys: seq<Addr>)
    requires (forall k :: k in keys ==> k in ts) && PayOut(config, ts, payees, keys).Success?
    ensures LinkPayouts(PayOut(config, ts, payees, keys).value.transfers, config.linkToken, ts.Keys)
    ensures forall i :: 0 <= i < |PayOut(config, ts, payees, keys).value.transfers| ==>
              PayOut(config, ts, payees, keys).value.transfers[i].forOracle.Some?
  {
    if |keys| > 0 {
      PayOutLabels(config, ts, payees, keys[..|keys| - 1]);
    }
  }

  lemma MessageTransfers(lib: Lib, env: Env, s: State, sender: Addr, msg: Msg)
    requires Inv(s) && Step(lib, env, s, sender, msg).Success?
    ensures LinkPayouts(Step(lib, env, s, sender, msg).value.response.transfers, s.config.linkToken,
                        s.transmitters.Keys)
  {
    hide Inv, CheckTransmit, Record, Install, PayOut, PayOne, TotalLinkDue;
    if PayAll(s).Success? {
      PayOutLabels(s.config, s.transmitters, s.payees, SortedKeys(s.transmitters.Keys));
    }
  }

  // ---------- debts over whole runs ----------

  ghost function OwedIn(w: World): Addr -> nat {
    (t: Addr) => OwedNow(t)(w)
  }

  ghost function TotalDebt(): World -> nat {
    (w: World) => SumOver(Keys(w), OwedIn(w))
  }

  lemma {:induction false} SumOwedIsSumOver(w: World, keys: seq<Addr>)
    requires RoundsInPast(w.state.config, w.state.transmitters)
    ensures SumOwed(w.state.config, w.state.transmitters, keys) == SumOver(keys, OwedIn(w))
  {
    if |keys| > 0 {
      SumOwedIsSumOver(w, keys[..|keys| - 1]);
      OwedNowIsOwed(w, keys[|keys| - 1]);
    }
  }

  lemma TotalDebtIsDebts(w: World)
    requires Inv(w.state)
    ensures TotalDebt()(w) == Debts(w.state)
  {
    SumOwedIsSumOver(w, Keys(w));
  }

  ghost function CreditIn(lib: Lib, self: Addr, w: World, act: Act): Addr -> nat {
    (t: Addr) => Credit(lib, self, t)(w, act)
  }

  ghost function WindfallIn(lib: Lib, self: Addr, w: World, act: Act): Addr -> nat {
    (t: Addr) => Windfall(lib, self, t)(w, act)
  }

  /** What the step credits to all transmitters together. */
  ghost function Earned(lib: Lib, self: Addr): (World, Act) -> nat {
    (w: World, act: Act) => SumOver(Keys(w), CreditIn(lib, self, w, act))
  }

  /** What a billing change makes of rounds that the payout before it skipped. */
  ghost function Repriced(lib: Lib, self: Addr): (World, Act) -> nat {
    (w: World, act: Act) => SumOver(Keys(w), WindfallIn(lib, self, w, act))
  }

  /** What the step pays out on behalf of oracles. */
  ghost function PaidOut(lib: Lib, self: Addr): (World, Act) -> nat {
    (w: World, act: Act) => SumWhere(TransfersOf(lib, self, w, act), IsPayout())
  }

  lemma StepLedgerIn(lib: Lib, self: Addr, w: World, act: Act, t: Addr)
    requires Inv(w.state)
    ensures OwedIn(Next(lib, self, w, act))(t) + PaidTo(TransfersOf(lib, self, w, act))(t)
         == CreditIn(lib, self, w, act)(t) + WindfallIn(lib, self, w, act)(t) + OwedIn(w)(t)
  {
    StepLedger(lib, self, w, act, t);
    if Committed(lib, self, w, act).Some? {
      PaymentIsPaidFor(lib, self, w, act, t);
    }
    hide Next, Committed, Credit, Windfall, OwedNow, Inv;
  }

  lemma SettingsKeepTransmitters(env: Env, s: State, sender: Addr, linkToken: Addr, recipient: Addr, billing: Billing)
    requires Inv(s)
    ensures var r := StepSetLinkToken(env, s, sender, linkToken, recipient);
            r.Success? ==> r.value.state.transmitters.Keys == s.transmitters.Keys
    ensures var r := StepSetBilling(env, s, sender, billing);
            r.Success? ==> r.value.state.transmitters.Keys == s.transmitters.Keys
  {
    if PayAll(s).Success? {
      PayAllEffect(s);
    }
    hide PayAll, SumOwed, TotalOwed, HistoryComplete, OracleSetSized, ProposalsNumbered;
  }

  lemma OtherMessagesKeepTransmitters(lib: Lib, env: Env, s: State, sender: Addr, msg: Msg)
    requires Inv(s) && Step(lib, env, s, sender, msg).Success? && !msg.AcceptProposal?
    ensures Step(lib, env, s, sender, msg).value.state.transmitters.Keys == s.transmitters.Keys
  {
    var o := Step(lib, env, s, sender, msg).value;
    match msg {
      case Transmit(reportContext, report, signatures) =>
        hide StepTransmit, Inv;
        TransmitShape(lib, env, s, sender, reportContext, report, signatures);
      case SetLinkToken(linkToken, recipient) =>
        hide StepSetLinkToken, Inv;
        SettingsKeepTransmitters(env, s, sender, linkToken, recipient, s.config.billing);
      case SetBilling(billing) =>
        hide StepSetBilling, Inv;
        SettingsKeepTransmitters(env, s, sender, s.config.linkToken, sender, billing);
      case WithdrawPayment(transmitter) =>
        hide StepWithdrawPayment, Inv, Owed, Settled;
        WithdrawPaymentShape(s, sender, transmitter);
        assert o.state.transmitters.Keys == s.transmitters.Keys;
      case _ =>
        hide Inv, PayAll, TotalLinkDue, StepTransmit, StepAcceptProposal, StepSetLinkToken, StepSetBilling,
          StepWithdrawPayment;
    }
  }

  /** A message either keeps the set of transmitters or leaves nobody with a debt. */
  lemma SameTransmittersOrNoDebt(lib: Lib, self: Addr, w: World, act: Act)
    requires Inv(w.state) && Committed(lib, self, w, act).Some?
    ensures var w' := Next(lib, self, w, act);
            w'.state.transmitters.Keys == w.state.transmitters.Keys || forall t :: OwedNow(t)(w') == 0
  {
    var env := EnvOf(self, w, act);
    var w' := Next(lib, self, w, act);
    if act.msg.AcceptProposal? {
      AcceptShape(lib, env, w.state, act.sender, act.msg.id, act.msg.digest);
      hide StepAcceptProposal, Inv, RunTransfers, PayAll;
      forall t ensures OwedNow(t)(w') == 0 {
        NewcomersAreOwedNothing(w'.state.config, w'.state.transmitters, t);
      }
    } else {
      OtherMessagesKeepTransmitters(lib, env, w.state, act.sender, act.msg);
    }
  }

  lemma DebtOverOldTransmitters(lib: Lib, self: Addr, w: World, act: Act)
    requires Inv(w.state)
    ensures TotalDebt()(Next(lib, self, w, act)) == SumOver(Keys(w), OwedIn(Next(lib, self, w, act)))
  {
    var w' := Next(lib, self, w, act);
    if Committed(lib, self, w, act).Some? {
      SameTransmittersOrNoDebt(lib, self, w, act);
      hide Next, Committed, OwedNow, Inv;
      if forall t :: OwedNow(t)(w') == 0 {
        SumOverZero(Keys(w'), OwedIn(w'));
        SumOverZero(Keys(w), OwedIn(w'));
      }
    } else {
      assert w'.state == w.state;
    }
  }

  lemma StepPayouts(lib: Lib, self: Addr, w: World, act: Act)
    requires Inv(w.state)
    ensures LinkPayouts(TransfersOf(lib, self, w, act), w.state.config.linkToken, w.state.transmitters.Keys)
    ensures PaidOut(lib, self)(w, act) == SumOver(Keys(w), PaidTo(TransfersOf(lib, self, w, act)))
  {
    if Committed(lib, self, w, act).Some? {
      MessageTransfers(lib, EnvOf(self, w, act), w.state, act.sender, act.msg);
    }
    hide Step, Committed, Inv;
    SortedKeysAscend(w.state.transmitters.Keys);
    SortedIsDistinct(Keys(w));
    PayoutsByOracle(TransfersOf(lib, self, w, act), Keys(w));
  }

  /** One step of the total debt: it grows by what is earned and repriced, and shrinks by what is paid out. */
  lemma StepDebt(lib: Lib, self: Addr, w: World, act: Act)
    requires Inv(w.state)
    ensures TotalDebt()(Next(lib, self, w, act)) + PaidOut(lib, self)(w, act)
         == TotalDebt()(w) + Plus(Earned(lib, self), Repriced(lib, self))(w, act)
  {
    var w' := Next(lib, self, w, act);
    var transfers := TransfersOf(lib, self, w, act);
    DebtOverOldTransmitters(lib, self, w, act);
    StepPayouts(lib, self, w, act);
    forall t
      ensures OwedIn(w')(t) + PaidTo(transfers)(t)
           == CreditIn(lib, self, w, act)(t) + WindfallIn(lib, self, w, act)(t) + OwedIn(w)(t)
    {
      StepLedgerIn(lib, self, w, act, t);
    }
    hide Next, Inv, TransfersOf, OwedNow, Credit, Windfall, PaidFor;
    hide CreditIn, WindfallIn, OwedIn, PaidTo, Keys, SumOver;
    SumOverBalance(Keys(w), OwedIn(w'), PaidTo(transfers), CreditIn(lib, self, w, act), WindfallIn(lib, self, w, act),
                   OwedIn(w));
  }

  /**
   After any run, what is owed to everyone and what was paid out for anyone add up to what
   transmissions earned and billing changes repriced.
   */
  lemma DebtConservation(lib: Lib, self: Addr, w: World, acts: seq<Act>)
    requires Fresh(w)
    ensures Inv(Run(Machine(lib, self), w, acts).state)
    ensures Debts(Run(Machine(lib, self), w, acts).state) + Total(Machine(lib, self), PaidOut(lib, self), w, acts)
         == Total(Machine(lib, self), Earned(lib, self), w, acts)
            + Total(Machine(lib, self), Repriced(lib, self), w, acts)
  {
    ReachableInv(lib, self, w, acts);
    TotalDebtIsDebts(Run(Machine(lib, self), w, acts));
    FreshIsGood(w);
    GoodIsInductive(lib, self);
    SumOverZero(Keys(w), OwedIn(w));
    var income := Plus(Earned(lib, self), Repriced(lib, self));
    hide Next, Earned, Repriced, PaidOut, Plus, Inv, Debts;
    forall v: World, act: Act | Good()(v)
      ensures TotalDebt()(Machine(lib, self)(v, act)) + PaidOut(lib, self)(v, act) == TotalDebt()(v) + income(v, act)
    {
      StepDebt(lib, self, v, act);
    }
    BalanceAlong(Machine(lib, self), Good(), TotalDebt(), income, PaidOut(lib, self), w, acts);
    TotalPlus(Machine(lib, self), Earned(lib, self), Repriced(lib, self), w, acts);
  }

  lemma CommittedCredits(lib: Lib, self: Addr, w: World, act: Act, token: Addr, who: Addr)
    requires Inv(w.state) && act.Call? && who != self
    ensures Balance(Next(lib, self, w, act).tokens, token, who)
         == Balance(w.tokens, token, who) + SumWhere(TransfersOf(lib, self, w, act), ArrivesAt(token, who))
    ensures ToPayees(TransfersOf(lib, self, w, act), w.state.payees)
  {
    if Committed(lib, self, w, act).Some? {
      RunTransfersCredits(w.tokens, self, token, who, TransfersOf(lib, self, w, act));
      PaymentIsPaidFor(lib, self, w, act, who);
    }
    hide Step, Balance, RunTransfers;
  }

  /**
   At any point of a run of a fresh contract, what a message pays on behalf of an oracle goes to
   the payee that oracle has at that point, whose balance rises by the transfers naming it.
   */
  lemma PayeesAreCredited(lib: Lib, self: Addr, w: World, acts: seq<Act>, i: nat, token: Addr, who: Addr)
    requires Fresh(w) && i < |acts| && acts[i].Call? && who != self
    ensures var before, after := At(Machine(lib, self), w, acts, i), At(Machine(lib, self), w, acts, i + 1);
            var transfers := TransfersOf(lib, self, before, acts[i]);
            && ToPayees(transfers, before.state.payees)
            && Balance(after.tokens, token, who)
               == Balance(before.tokens, token, who) + SumWhere(transfers, ArrivesAt(token, who))
  {
    ReachableInv(lib, self, w, acts[..i]);
    AtNext(Machine(lib, self), w, acts, i);
    CommittedCredits(lib, self, At(Machine(lib, self), w, acts, i), acts[i], token, who);
  }

  // ---------- the balance over whole runs ----------

  ghost predicate ChangesToken(lib: Lib, self: Addr, w: World, act: Act) {
    Next(lib, self, w, act).state.config.linkToken != w.state.config.linkToken
  }

  /** The contract's balance of a token it changes to, before the change. */
  ghost function BroughtIn(lib: Lib, self: Addr, w: World, act: Act): nat {
    if ChangesToken(lib, self, w, act) then BalanceOf(self, Next(lib, self, w, act).state.config.linkToken)(w) else 0
  }

  /** The contract's balance of a token it changes from, after the change. */
  ghost function LeftBehind(lib: Lib, self: Addr, w: World, act: Act): nat {
    if ChangesToken(lib, self, w, act) then BalanceOf(self, w.state.config.linkToken)(Next(lib, self, w, act)) else 0
  }

  ghost function IncomingNow(self: Addr, w: World, act: Act): nat {
    Incoming(self, w.state.config.linkToken)(w, act)
  }

  /** What others transfer to the contract, and what it holds of a token it changes to. */
  ghost function Deposited(lib: Lib, self: Addr): (World, Act) -> nat {
    (w: World, act: Act) => IncomingNow(self, w, act) + BroughtIn(lib, self, w, act)
  }

  /** Payouts whose payee is the contract itself. */
  ghost function Returned(lib: Lib, self: Addr): (World, Act) -> nat {
    (w: World, act: Act) => SumWhere(TransfersOf(lib, self, w, act), IsReturn(self))
  }

  /** What leaves without being a payout, and what is left behind of a token it changes from. */
  ghost function Withdrawn(lib: Lib, self: Addr): (World, Act) -> nat {
    (w: World, act: Act) => SumWhere(TransfersOf(lib, self, w, act), IsWithdrawal(self)) + LeftBehind(lib, self, w, act)
  }

  ghost function FundsOf(self: Addr): World -> nat {
    (w: World) => Funds(self, w)
  }

  /** All that leaves a step is in the token that was current before it. */
  lemma OutgoingParts(lib: Lib, self: Addr, w: World, act: Act, token: Addr)
    requires Inv(w.state)
    ensures Outgoing(lib, self, token)(w, act)
            + (if token == w.state.config.linkToken then Returned(lib, self)(w, act) else 0)
         == if token == w.state.config.linkToken then
              PaidOut(lib, self)(w, act) + SumWhere(TransfersOf(lib, self, w, act), IsWithdrawal(self))
            else 0
  {
    StepPayouts(lib, self, w, act);
    var transfers := TransfersOf(lib, self, w, act);
    hide TransfersOf, Inv;
    if token == w.state.config.linkToken {
      SumWhereAgree(transfers, LeavesFor(token, self), Leaves(self));
      LeavingParts(transfers, self);
    } else {
      SumWhereNone(transfers, LeavesFor(token, self));
    }
  }

  lemma ChangingTokenTakesACall(lib: Lib, self: Addr, w: World, act: Act)
    requires ChangesToken(lib, self, w, act)
    ensures act.Call? && forall token :: Incoming(self, token)(w, act) == 0
  {
    hide Committed;
  }

  /** One step of the balance of the current token. */
  lemma StepFunds(lib: Lib, self: Addr, w: World, act: Act)
    requires Inv(w.state)
    ensures FundsOf(self)(Next(lib, self, w, act)) + Plus(PaidOut(lib, self), Withdrawn(lib, self))(w, act)
         == FundsOf(self)(w) + Plus(Deposited(lib, self), Returned(lib, self))(w, act)
  {
    var before, after := w.state.config.linkToken, Next(lib, self, w, act).state.config.linkToken;
    hide Next, Inv, Outgoing, PaidOut, Returned, Incoming, Balance, TransfersOf, SumWhere;
    if before != after {
      ChangingTokenTakesACall(lib, self, w, act);
    }
    StepConserves(lib, self, before, w, act);
    OutgoingParts(lib, self, w, act, before);
    StepConserves(lib, self, after, w, act);
    OutgoingParts(lib, self, w, act, after);
  }

  /** After any run, the balance and all payouts and withdrawals add up to what there was and came in. */
  lemma FundsConservation(lib: Lib, self: Addr, w: World, acts: seq<Act>)
    requires Fresh(w)
    ensures Funds(self, Run(Machine(lib, self), w, acts))
              + Total(Machine(lib, self), PaidOut(lib, self), w, acts)
                + Total(Machine(lib, self), Withdrawn(lib, self), w, acts)
         == Funds(self, w)
              + Total(Machine(lib, self), Deposited(lib, self), w, acts)
                + Total(Machine(lib, self), Returned(lib, self), w, acts)
  {
    FreshIsGood(w);
    GoodIsInductive(lib, self);
    var income := Plus(Deposited(lib, self), Returned(lib, self));
    var outgo := Plus(PaidOut(lib, self), Withdrawn(lib, self));
    hide Next, Deposited, Returned, PaidOut, Withdrawn, Plus, Inv, Funds;
    forall v: World, act: Act | Good()(v)
      ensures FundsOf(self)(Machine(lib, self)(v, act)) + outgo(v, act) == FundsOf(self)(v) + income(v, act)
    {
      StepFunds(lib, self, v, act);
    }
    BalanceAlong(Machine(lib, self), Good(), FundsOf(self), income, outgo, w, acts);
    TotalPlus(Machine(lib, self), Deposited(lib, self), Returned(lib, self), w, acts);
    TotalPlus(Machine(lib, self), PaidOut(lib, self), Withdrawn(lib, self), w, acts);
  }

  // ---------- solvency ----------

  /** The balance covers all debts. */
  ghost predicate Solvent(self: Addr, w: World) {
    Inv(w.state) && Funds(self, w) >= Debts(w.state)
  }

  /** What a transmission or a billing change adds to the debts is covered by the balance. */
  ghost predicate Covered(lib: Lib, self: Addr, w: World, act: Act) {
    && Inv(w.state)
    && (act.Call? && (act.msg.Transmit? || act.msg.SetBilling?) ==>
          Funds(self, w) + Returned(lib, self)(w, act)
          >= Debts(w.state) + Earned(lib, self)(w, act) + Repriced(lib, self)(w, act))
  }

  /** Only withdraw_funds and a change of token transfer anything but payouts. */
  lemma OnlyPayouts(lib: Lib, env: Env, s: State, sender: Addr, msg: Msg)
    requires Step(lib, env, s, sender, msg).Success?
    requires !msg.WithdrawFunds? && !(msg.SetLinkToken? && msg.linkToken != s.config.linkToken)
    ensures var transfers := Step(lib, env, s, sender, msg).value.response.transfers;
            forall i :: 0 <= i < |transfers| ==> transfers[i].forOracle.Some?
  {
    hide CheckTransmit, Record, Install, PayOut, PayOne, TotalLinkDue;
    if PayAll(s).Success? {
      PayOutLabels(s.config, s.transmitters, s.payees, SortedKeys(s.transmitters.Keys));
    }
  }

  lemma LinkTokenAfter(lib: Lib, env: Env, s: State, sender: Addr, msg: Msg)
    requires Step(lib, env, s, sender, msg).Success?
    ensures Step(lib, env, s, sender, msg).value.state.config.linkToken
         == if msg.SetLinkToken? then msg.linkToken else s.config.linkToken
  {
    match msg {
      case Transmit(reportContext, report, signatures) =>
        hide StepTransmit;
        TransmitOutcome(lib, env, s, sender, reportContext, report, signatures);
      case AcceptProposal(id, digest) =>
        hide StepAcceptProposal, Install, ConfigDigestOf;
        AcceptOutcome(lib, env, s, sender, id, digest);
      case _ =>
        hide StepTransmit, StepAcceptProposal, PayAll, TotalLinkDue, OwedPayment;
    }
  }

  lemma ChangesTokenIff(lib: Lib, self: Addr, w: World, act: Act)
    ensures ChangesToken(lib, self, w, act) <==>
            Committed(lib, self, w, act).Some? && act.msg.SetLinkToken? && act.msg.linkToken != w.state.config.linkToken
  {
    if Committed(lib, self, w, act).Some? {
      LinkTokenAfter(lib, EnvOf(self, w, act), w.state, act.sender, act.msg);
    }
    hide Step, RunTransfers, MoveTokens;
  }

  lemma NothingWithdrawn(lib: Lib, self: Addr, w: World, act: Act)
    requires !ChangesToken(lib, self, w, act) && !(act.Call? && act.msg.WithdrawFunds?)
    ensures Withdrawn(lib, self)(w, act) == 0
  {
    ChangesTokenIff(lib, self, w, act);
    if Committed(lib, self, w, act).Some? {
      OnlyPayouts(lib, EnvOf(self, w, act), w.state, act.sender, act.msg);
    }
    hide Step, Next, RunTransfers;
    SumWhereNone(TransfersOf(lib, self, w, act), IsWithdrawal(self));
  }

  /** Nothing is earned or repriced by a message that is neither transmit nor set_billing. */
  lemma NothingAdded(lib: Lib, self: Addr, w: World, act: Act)
    requires act.Call? ==> !act.msg.Transmit? && !act.msg.SetBilling?
    ensures Earned(lib, self)(w, act) == 0 && Repriced(lib, self)(w, act) == 0
  {
    hide Committed, PerRound, Pending, OwedNothing, ReportReimbursement;
    assert !Transmits(lib, self, w, act) && !SetsBilling(lib, self, w, act);
    forall t ensures CreditIn(lib, self, w, act)(t) == 0 && WindfallIn(lib, self, w, act)(t) == 0 {
      assert Credit(lib, self, t)(w, act) == 0 && Windfall(lib, self, t)(w, act) == 0;
    }
    SumOverZero(Keys(w), CreditIn(lib, self, w, act));
    SumOverZero(Keys(w), WindfallIn(lib, self, w, act));
  }

  lemma NothingReturned(lib: Lib, self: Addr, w: World, act: Act)
    requires act.Call? ==> act.msg.WithdrawFunds?
    ensures Returned(lib, self)(w, act) == 0 && PaidOut(lib, self)(w, act) == 0
    ensures Next(lib, self, w, act).state == w.state
    ensures forall i :: 0 <= i < |TransfersOf(lib, self, w, act)| ==> TransfersOf(lib, self, w, act)[i].forOracle.None?
  {
    hide TotalLinkDue, RunTransfers, MoveTokens;
    SumWhereNone(TransfersOf(lib, self, w, act), IsReturn(self));
    SumWhereNone(TransfersOf(lib, self, w, act), IsPayout());
  }

  lemma {:induction false} SumWhereAtMostAll(transfers: seq<Transfer>, p: Transfer -> bool)
    ensures SumWhere(transfers, p) <= Amounts(transfers)
  {
    if |transfers| > 0 {
      SumWhereAtMostAll(transfers[..|transfers| - 1], p);
    }
  }

  /** withdraw_funds never takes what the debts need. */
  lemma WithdrawFundsWithinMargin(lib: Lib, self: Addr, w: World, act: Act)
    requires Solvent(self, w) && act.Call? && act.msg.WithdrawFunds?
    ensures Withdrawn(lib, self)(w, act) <= Funds(self, w) - Debts(w.state)
  {
    NothingReturned(lib, self, w, act);
    if Committed(lib, self, w, act).Some? {
      WithdrawFundsShape(EnvOf(self, w, act), w.state, act.sender, act.msg.recipient, act.msg.amount);
      SumWhereAtMostAll(TransfersOf(lib, self, w, act), IsWithdrawal(self));
    }
    hide StepWithdrawFunds, RunTransfers, TotalOwed, Inv;
  }

  lemma ChangingTokenClearsDebts(lib: Lib, self: Addr, w: World, act: Act)
    requires Inv(w.state) && ChangesToken(lib, self, w, act)
    ensures Inv(Next(lib, self, w, act).state) && Debts(Next(lib, self, w, act).state) == 0
  {
    ChangesTokenIff(lib, self, w, act);
    NextKeeps(lib, self, w, act);
    hide Inv, RunTransfers, StepSetLinkToken, TotalOwed;
    SetLinkTokenSettles(EnvOf(self, w, act), w.state, act.sender, act.msg.linkToken, act.msg.recipient);
  }

  /** What a step does to the balance and the debts, with payouts cancelling out. */
  lemma StepMargin(lib: Lib, self: Addr, w: World, act: Act)
    requires Inv(w.state)
    ensures Inv(Next(lib, self, w, act).state)
    ensures Funds(self, Next(lib, self, w, act)) + Withdrawn(lib, self)(w, act)
              + Debts(w.state) + Earned(lib, self)(w, act) + Repriced(lib, self)(w, act)
         == Funds(self, w) + Deposited(lib, self)(w, act) + Returned(lib, self)(w, act)
              + Debts(Next(lib, self, w, act).state)
  {
    NextKeeps(lib, self, w, act);
    TotalDebtIsDebts(w);
    TotalDebtIsDebts(Next(lib, self, w, act));
    StepFunds(lib, self, w, act);
    StepDebt(lib, self, w, act);
    hide Next, Inv, Funds, Debts, Earned, Repriced, Returned, PaidOut, Withdrawn, Deposited, TotalDebt;
  }

  lemma NothingDeposited(lib: Lib, self: Addr, w: World, act: Act)
    requires act.Call? && !ChangesToken(lib, self, w, act)
    ensures Deposited(lib, self)(w, act) == 0
  {
    hide Next;
  }

  /** A solvent contract stays solvent over a step exactly when the step is covered. */
  lemma StepSolventIff(lib: Lib, self: Addr, w: World, act: Act)
    requires Solvent(self, w)
    ensures Solvent(self, Next(lib, self, w, act)) <==> Covered(lib, self, w, act)
  {
    StepMargin(lib, self, w, act);
    ChangesTokenIff(lib, self, w, act);
    hide Next, Inv, Funds, Debts, Earned, Repriced, Returned, Withdrawn, Deposited, ChangesToken, Committed;
    if ChangesToken(lib, self, w, act) {
      ChangingTokenClearsDebts(lib, self, w, act);
    } else if act.Call? && act.msg.WithdrawFunds? {
      NothingAdded(lib, self, w, act);
      WithdrawFundsWithinMargin(lib, self, w, act);
    } else {
      NothingWithdrawn(lib, self, w, act);
      if act.Call? && (act.msg.Transmit? || act.msg.SetBilling?) {
        NothingDeposited(lib, self, w, act);
      } else {
        NothingAdded(lib, self, w, act);
      }
    }
  }

  lemma FreshIsSolvent(self: Addr, w: World)
    requires Fresh(w)
    ensures Solvent(self, w)
  {
    FreshIsGood(w);
    SumOwedZero(w.state.config, w.state.transmitters, SortedKeys(w.state.transmitters.Keys));
  }

  lemma {:induction false} CoveredMeansSolvent(lib: Lib, self: Addr, w: World, acts: seq<Act>, i: nat)
    requires Fresh(w) && i <= |acts|
    requires forall j :: 0 <= j < i ==> Covered(lib, self, At(Machine(lib, self), w, acts, j), acts[j])
    ensures Solvent(self, At(Machine(lib, self), w, acts, i))
  {
    hide Solvent, Covered, Next;
    if i == 0 {
      FreshIsSolvent(self, w);
    } else {
      CoveredMeansSolvent(lib, self, w, acts, i - 1);
      StepSolventIff(lib, self, At(Machine(lib, self), w, acts, i - 1), acts[i - 1]);
      AtNext(Machine(lib, self), w, acts, i - 1);
    }
  }

  /**
   The balance covers the debts at every point of a run exactly when every transmission and every
   billing change of the run added no more to the debts than the balance exceeded them.
   */
  lemma SolventThroughoutIff(lib: Lib, self: Addr, w: World, acts: seq<Act>)
    requires Fresh(w)
    ensures (forall i :: 0 <= i <= |acts| ==> Solvent(self, At(Machine(lib, self), w, acts, i)))
       <==> (forall i :: 0 <= i < |acts| ==> Covered(lib, self, At(Machine(lib, self), w, acts, i), acts[i]))
  {
    hide Solvent, Covered, Next;
    if forall i :: 0 <= i <= |acts| ==> Solvent(self, At(Machine(lib, self), w, acts, i)) {
      forall i | 0 <= i < |acts| ensures Covered(lib, self, At(Machine(lib, self), w, acts, i), acts[i]) {
        StepSolventIff(lib, self, At(Machine(lib, self), w, acts, i), acts[i]);
        AtNext(Machine(lib, self), w, acts, i);
        assert Solvent(self, At(Machine(lib, self), w, acts, i + 1));
      }
    }
    if forall i :: 0 <= i < |acts| ==> Covered(lib, self, At(Machine(lib, self), w, acts, i), acts[i]) {
      forall i | 0 <= i <= |acts| ensures Solvent(self, At(Machine(lib, self), w, acts, i)) {
        CoveredMeansSolvent(lib, self, w, acts, i);
      }
    }
  }
}
