/**
 Multi-signature accounts and the transactions signed on them, held in two in-memory maps. Execution waits
 for the network, so its start and its end are separate steps.
 */
module MultiSig {
  import opened Options

  const MAX_SIGNERS: nat := 11

  datatype Config = Config(threshold: int, signers: seq<string>)

  datatype Status = Pending | Ready | Executed | Failed

  /** `flying` counts sends that were started and have no outcome yet, `sends` the confirmed ones: both are history. */
  datatype Tx = Tx(account: string, required: int, collected: seq<string>, status: Status, flying: nat, sends: nat)

  datatype State = State(accounts: map<string, Config>, txs: map<string, Tx>)

  /** A key that cannot be loaded or does not sign is None. */
  datatype Step =
    | CreateAccount(address: string, config: Config)
    | CreateTx(tx: string, account: string)
    | Sign(tx: string, key: Option<string>)
    | BeginExecute(tx: string)
    | EndExecute(tx: string, confirmed: bool)

  const INITIAL: State := State(map[], map[])

  predicate ConfigAccepted(c: Config) {
    1 <= c.threshold <= |c.signers| <= MAX_SIGNERS
  }

  predicate MaySign(s: State, tx: string, key: Option<string>) {
    && tx in s.txs && s.txs[tx].status == Pending && s.txs[tx].account in s.accounts
    && key.Some? && key.value in s.accounts[s.txs[tx].account].signers && key.value !in s.txs[tx].collected
  }

  function Signed(t: Tx, signer: string): Tx {
    var collected := t.collected + [signer];
    t.(collected := collected, status := if |collected| >= t.required then Ready else t.status)
  }

  /** A transaction that is not ready is failed by the attempt. */
  function Begun(t: Tx): Tx {
    if t.status == Ready then t.(flying := t.flying + 1) else t.(status := Failed)
  }

  function Ended(t: Tx, confirmed: bool): Tx
    requires t.flying > 0
  {
    if confirmed then t.(flying := t.flying - 1, sends := t.sends + 1, status := Executed)
    else t.(flying := t.flying - 1, status := Failed)
  }

  function SetTx(s: State, tx: string, t: Tx): State {
    s.(txs := s.txs[tx := t])
  }

  /** New accounts and transactions get new names; calls that throw leave the state alone, except a failed execution. */
  function Next(s: State, step: Step): State {
    match step
    case CreateAccount(address, config) =>
      if address !in s.accounts && ConfigAccepted(config) then s.(accounts := s.accounts[address := config]) else s
    case CreateTx(tx, account) =>
      if tx !in s.txs && account in s.accounts
        then SetTx(s, tx, Tx(account, s.accounts[account].threshold, [], Pending, 0, 0))
        else s
    case Sign(tx, key) => if MaySign(s, tx, key) then SetTx(s, tx, Signed(s.txs[tx], key.value)) else s
    case BeginExecute(tx) => if tx in s.txs then SetTx(s, tx, Begun(s.txs[tx])) else s
    case EndExecute(tx, confirmed) =>
      if tx in s.txs && s.txs[tx].flying > 0 then SetTx(s, tx, Ended(s.txs[tx], confirmed)) else s
  }

  function Run(s: State, steps: seq<Step>): State
    decreases steps
  {
    if steps == [] then s else Run(Next(s, steps[0]), steps[1..])
  }

  // ---------------------------------------------------------------- who signed

  predicate Distinct(xs: seq<string>) {
    forall i, j :: 0 <= i < j < |xs| ==> xs[i] != xs[j]
  }

  function Elements(xs: seq<string>): set<string> {
    set x | x in xs
  }

  lemma DistinctSnoc(xs: seq<string>, x: string)
    ensures Distinct(xs + [x]) <==> Distinct(xs) && x !in xs
  {
    var ys := xs + [x];
    assert ys[|xs|] == x && forall i :: 0 <= i < |xs| ==> ys[i] == xs[i];
    if x in xs {
      var i :| 0 <= i < |xs| && xs[i] == x;
      assert ys[i] == ys[|xs|];
    }
    if Distinct(ys) {
      forall i, j | 0 <= i < j < |xs| ensures xs[i] != xs[j] {
        assert ys[i] != ys[j];
      }
    }
  }

  lemma {:induction false} DistinctCount(xs: seq<string>)
    ensures |Elements(xs)| <= |xs|
    ensures Distinct(xs) <==> |Elements(xs)| == |xs|
  {
    if xs != [] {
      hide Distinct;
      var rest, x := xs[..|xs| - 1], xs[|xs| - 1];
      DistinctCount(rest);
      DistinctSnoc(rest, x);
      assert xs == rest + [x];
      assert Elements(xs) == Elements(rest) + {x};
    }
  }

  /** Signatures are by distinct authorised signers, at most as many as required, and exactly so once ready. */
  ghost predicate Honest(t: Tx, c: Config) {
    && 1 <= t.required == c.threshold
    && Distinct(t.collected)
    && (forall k :: k in t.collected ==> k in c.signers)
    && |t.collected| <= t.required
    && (t.status == Pending ==> |t.collected| < t.required)
    && (t.status == Ready || t.status == Executed || t.flying > 0 || t.sends > 0 ==> |t.collected| == t.required)
    && (t.status == Pending ==> t.flying == 0 && t.sends == 0)
    && (t.status == Ready ==> t.sends == 0)
  }

  ghost predicate Authorized(s: State) {
    && (forall a :: a in s.accounts ==> ConfigAccepted(s.accounts[a]))
    && (forall tx :: tx in s.txs ==> s.txs[tx].account in s.accounts && Honest(s.txs[tx], s.accounts[s.txs[tx].account]))
  }

  lemma SignedHonest(t: Tx, c: Config, signer: string)
    requires Honest(t, c) && t.status == Pending && signer in c.signers && signer !in t.collected
    ensures Honest(Signed(t, signer), c)
  {
  }

  lemma StepAuthorized(s: State, step: Step)
    requires Authorized(s)
    ensures Authorized(Next(s, step))
  {
    hide Signed, Distinct;
    assert Distinct([]) by { DistinctCount([]); }
    if step.Sign? && MaySign(s, step.tx, step.key) {
      SignedHonest(s.txs[step.tx], s.accounts[s.txs[step.tx].account], step.key.value);
      assert Signed(s.txs[step.tx], step.key.value).account == s.txs[step.tx].account by { SignedAccount(s.txs[step.tx], step.key.value); }
    }
  }

  lemma SignedAccount(t: Tx, signer: string)
    ensures Signed(t, signer).account == t.account
  {
  }

  lemma {:induction false} RunAuthorized(s: State, steps: seq<Step>)
    requires Authorized(s)
    ensures Authorized(Run(s, steps))
    decreases steps
  {
    hide Authorized, Next;
    if steps != [] {
      StepAuthorized(s, steps[0]);
      RunAuthorized(Next(s, steps[0]), steps[1..]);
    }
  }

  /**
   In every reachable state, executions overlapping or not: for whatever was sent, or is ready or being sent,
   exactly `threshold` different signers of its account have been collected.
   */
  lemma SentOnlyWithThresholdSigners(steps: seq<Step>, tx: string)
    requires tx in Run(INITIAL, steps).txs
    ensures var s := Run(INITIAL, steps); var t := s.txs[tx];
      && t.account in s.accounts
      && var c := s.accounts[t.account];
         && Elements(t.collected) <= Elements(c.signers)
         && |Elements(t.collected)| == |t.collected| <= c.threshold
         && (t.sends > 0 || t.flying > 0 || t.status == Ready || t.status == Executed ==> |Elements(t.collected)| == c.threshold)
  {
    RunAuthorized(INITIAL, steps);
    DistinctCount(Run(INITIAL, steps).txs[tx].collected);
  }

  // ---------------------------------------------------------------- at most one send

  /** No execution of a ready transaction starts while another one of it is on its way. */
  predicate Exclusive(s: State, step: Step, tx: string) {
    step == BeginExecute(tx) && tx in s.txs && s.txs[tx].status == Ready ==> s.txs[tx].flying == 0
  }

  predicate ExclusiveRun(s: State, steps: seq<Step>, tx: string)
    decreases steps
  {
    steps == [] || (Exclusive(s, steps[0], tx) && ExclusiveRun(Next(s, steps[0]), steps[1..], tx))
  }

  ghost predicate SentOnce(s: State, tx: string) {
    tx in s.txs ==>
      && s.txs[tx].sends + s.txs[tx].flying <= 1
      && (s.txs[tx].sends > 0 ==> s.txs[tx].status == Executed || s.txs[tx].status == Failed)
  }

  lemma StepSentOnce(s: State, step: Step, tx: string)
    requires Authorized(s) && SentOnce(s, tx) && Exclusive(s, step, tx)
    ensures SentOnce(Next(s, step), tx)
  {
  }

  lemma {:induction false} RunSentOnce(s: State, steps: seq<Step>, tx: string)
    requires Authorized(s) && SentOnce(s, tx) && ExclusiveRun(s, steps, tx)
    ensures Authorized(Run(s, steps)) && SentOnce(Run(s, steps), tx)
    decreases steps
  {
    hide Authorized, SentOnce, Next, Exclusive;
    if steps != [] {
      StepAuthorized(s, steps[0]);
      StepSentOnce(s, steps[0], tx);
      RunSentOnce(Next(s, steps[0]), steps[1..], tx);
    }
  }

  /** With executions of a transaction one after the other, at most one send of it is ever confirmed. */
  lemma AtMostOneSend(steps: seq<Step>, tx: string)
    requires ExclusiveRun(INITIAL, steps, tx) && tx in Run(INITIAL, steps).txs
    ensures var t := Run(INITIAL, steps).txs[tx];
      && t.sends <= 1
      && (t.sends == 1 ==> t.status == Executed || t.status == Failed)
      && (t.status == Executed ==> t.sends == 1)
  {
    RunSentOnce(INITIAL, steps, tx);
    RunExecuted(INITIAL, steps);
  }

  predicate OnlyEnds(steps: seq<Step>) {
    forall step :: step in steps ==> step.EndExecute?
  }

  /** Outcomes of what is already on its way can confirm two sends. */
  ghost predicate CanSendTwice(s: State, tx: string) {
    exists ends :: OnlyEnds(ends) && tx in Run(s, ends).txs && Run(s, ends).txs[tx].sends >= 2
  }

  lemma {:induction false} EndsAtMost(s: State, ends: seq<Step>, tx: string)
    requires OnlyEnds(ends) && tx in Run(s, ends).txs
    ensures tx in s.txs && Run(s, ends).txs[tx].sends <= s.txs[tx].sends + s.txs[tx].flying
    decreases ends
  {
    if ends != [] {
      assert ends[0] in ends;
      EndsAtMost(Next(s, ends[0]), ends[1..], tx);
    }
  }

  lemma {:induction false} EndsReach(s: State, tx: string) returns (ends: seq<Step>)
    requires tx in s.txs
    ensures OnlyEnds(ends) && tx in Run(s, ends).txs
    ensures Run(s, ends).txs[tx].sends == s.txs[tx].sends + s.txs[tx].flying
    decreases s.txs[tx].flying
  {
    if s.txs[tx].flying == 0 {
      ends := [];
    } else {
      var rest := EndsReach(Next(s, EndExecute(tx, true)), tx);
      ends := [EndExecute(tx, true)] + rest;
      assert ends[1..] == rest;
    }
  }

  lemma SendTwiceExactly(s: State, tx: string)
    ensures CanSendTwice(s, tx) <==> tx in s.txs && s.txs[tx].sends + s.txs[tx].flying >= 2
  {
    hide Next;
    if CanSendTwice(s, tx) {
      var ends :| OnlyEnds(ends) && tx in Run(s, ends).txs && Run(s, ends).txs[tx].sends >= 2;
      EndsAtMost(s, ends, tx);
    }
    if tx in s.txs && s.txs[tx].sends + s.txs[tx].flying >= 2 {
      var ends := EndsReach(s, tx);
      assert OnlyEnds(ends) && tx in Run(s, ends).txs;
    }
  }

  /**
   And exclusion is what it takes: in every state that exclusive executions lead to, a step of any kind makes a
   second confirmed send possible if and only if it starts an execution of the ready transaction beside another.
   */
  lemma TwoSendsExactly(before: seq<Step>, step: Step, tx: string)
    requires ExclusiveRun(INITIAL, before, tx)
    ensures CanSendTwice(Next(Run(INITIAL, before), step), tx) <==> !Exclusive(Run(INITIAL, before), step, tx)
  {
    hide Authorized, CanSendTwice;
    AuthorizedAtStart(tx);
    RunSentOnce(INITIAL, before, tx);
    var s := Run(INITIAL, before);
    SendTwiceExactly(Next(s, step), tx);
    if Exclusive(s, step, tx) { StepSentOnce(s, step, tx); }
  }

  lemma AuthorizedAtStart(tx: string)
    ensures Authorized(INITIAL) && SentOnce(INITIAL, tx)
  {
  }

  ghost predicate ExecutedWasSent(s: State) {
    forall tx :: tx in s.txs && s.txs[tx].status == Executed ==> s.txs[tx].sends > 0
  }

  lemma {:induction false} RunExecuted(s: State, steps: seq<Step>)
    requires ExecutedWasSent(s)
    ensures ExecutedWasSent(Run(s, steps))
    decreases steps
  {
    if steps != [] {
      RunExecuted(Next(s, steps[0]), steps[1..]);
    }
  }

  function Outline(account: string, tx: string, key: string): seq<Step> {
    [CreateAccount(account, Config(1, [key])), CreateTx(tx, account), Sign(tx, Some(key))]
  }

  /** Two executions side by side both find the transaction ready, and both sends can be confirmed. */
  lemma OverlapSendsTwice(account: string, tx: string, key: string)
    ensures var s := Run(INITIAL, Outline(account, tx, key) +
                                  [BeginExecute(tx), BeginExecute(tx), EndExecute(tx, true), EndExecute(tx, true)]);
      tx in s.txs && s.txs[tx].sends == 2
  {
    var c := Config(1, [key]);
    var s0 := Next(INITIAL, CreateAccount(account, c));
    assert s0 == State(map[account := c], map[]);
    var s1 := Next(s0, CreateTx(tx, account));
    var s2 := Next(s1, Sign(tx, Some(key)));
    var s3 := Next(s2, BeginExecute(tx));
    var s4 := Next(s3, BeginExecute(tx));
    var s5 := Next(s4, EndExecute(tx, true));
    var s6 := Next(s5, EndExecute(tx, true));
    assert s6.txs[tx].sends == 2;
    RunSeven(INITIAL, CreateAccount(account, c), CreateTx(tx, account), Sign(tx, Some(key)), BeginExecute(tx),
             BeginExecute(tx), EndExecute(tx, true), EndExecute(tx, true));
    assert Outline(account, tx, key) + [BeginExecute(tx), BeginExecute(tx), EndExecute(tx, true), EndExecute(tx, true)] ==
      [CreateAccount(account, c), CreateTx(tx, account), Sign(tx, Some(key)), BeginExecute(tx),
       BeginExecute(tx), EndExecute(tx, true), EndExecute(tx, true)];
  }

  lemma RunFour(s: State, a: Step, b: Step, c: Step, d: Step)
    ensures Run(s, [a, b, c, d]) == Next(Next(Next(Next(s, a), b), c), d)
  {
    hide Next;
    assert [a, b, c, d][1..] == [b, c, d] && [b, c, d][1..] == [c, d] && [c, d][1..] == [d] && [d][1..] == [];
    assert Run(s, [a, b, c, d]) == Run(Next(s, a), [b, c, d]);
    assert Run(Next(s, a), [b, c, d]) == Run(Next(Next(s, a), b), [c, d]);
    assert Run(Next(Next(s, a), b), [c, d]) == Run(Next(Next(Next(s, a), b), c), [d]);
  }

  lemma RunSeven(s: State, a: Step, b: Step, c: Step, d: Step, e: Step, f: Step, g: Step)
    ensures Run(s, [a, b, c, d, e, f, g]) == Next(Next(Next(Next(Next(Next(Next(s, a), b), c), d), e), f), g)
  {
    hide Next;
    assert [a, b, c, d, e, f, g][1..] == [b, c, d, e, f, g];
    assert [b, c, d, e, f, g][1..] == [c, d, e, f, g];
    assert [c, d, e, f, g][1..] == [d, e, f, g];
    assert Run(s, [a, b, c, d, e, f, g]) == Run(Next(s, a), [b, c, d, e, f, g]);
    assert Run(Next(s, a), [b, c, d, e, f, g]) == Run(Next(Next(s, a), b), [c, d, e, f, g]);
    RunFour(Next(Next(Next(s, a), b), c), d, e, f, g);
  }

  // ---------------------------------------------------------------- completion

  /** What is missing to ready; each new signature takes one away. */
  function Missing(t: Tx): int {
    t.required - |t.collected|
  }

  lemma SigningMakesProgress(s: State, tx: string, key: Option<string>)
    requires Authorized(s) && MaySign(s, tx, key)
    ensures var t, u := s.txs[tx], Next(s, Sign(tx, key)).txs[tx];
      0 <= Missing(u) == Missing(t) - 1 && (u.status == Ready <==> Missing(u) == 0) && (u.status == Pending <==> Missing(u) > 0)
  {
  }

  /** With distinct signers in the account, a pending transaction always has someone left who may sign it. */
  lemma SomeoneMaySign(s: State, tx: string) returns (key: string)
    requires Authorized(s) && tx in s.txs && s.txs[tx].status == Pending
    requires Distinct(s.accounts[s.txs[tx].account].signers)
    ensures MaySign(s, tx, Some(key))
  {
    hide Distinct;
    var t := s.txs[tx];
    var signers := s.accounts[t.account].signers;
    DistinctCount(signers);
    DistinctCount(t.collected);
    var left := Elements(signers) - Elements(t.collected);
    if left == {} {
      forall k | k in Elements(signers) ensures k in Elements(t.collected) {
        assert k !in left;
      }
      SubsetCount(Elements(signers), Elements(t.collected));
      assert false;
    }
    key :| key in left;
  }

  lemma {:induction false} SubsetCount(a: set<string>, b: set<string>)
    requires a <= b
    ensures |a| <= |b|
  {
    if a != {} {
      var x :| x in a;
      SubsetCount(a - {x}, b - {x});
    }
  }

  lemma {:induction false} Choose(from: set<string>, n: nat) returns (chosen: seq<string>)
    requires n <= |from|
    ensures |chosen| == n && Distinct(chosen) && forall k :: k in chosen ==> k in from
  {
    if n == 0 {
      chosen := [];
    } else {
      var x :| x in from;
      var rest := Choose(from - {x}, n - 1);
      chosen := rest + [x];
    }
  }

  function SignAll(tx: string, keys: seq<string>): seq<Step> {
    if keys == [] then [] else [Sign(tx, Some(keys[0]))] + SignAll(tx, keys[1..])
  }

  lemma {:induction false} SignAllCompletes(s: State, tx: string, keys: seq<string>)
    requires Authorized(s) && tx in s.txs && s.txs[tx].status == Pending
    requires Distinct(keys) && |keys| == Missing(s.txs[tx])
    requires forall k :: k in keys ==> k in s.accounts[s.txs[tx].account].signers && k !in s.txs[tx].collected
    ensures var t := Run(s, SignAll(tx, keys)); tx in t.txs && t.txs[tx].status == Ready
    decreases keys
  {
    hide Honest;
    SizeOfMissing(s, tx);
    var steps := SignAll(tx, keys);
    assert steps[0] == Sign(tx, Some(keys[0])) && steps[1..] == SignAll(tx, keys[1..]);
    var t := Next(s, steps[0]);
    assert MaySign(s, tx, Some(keys[0]));
    StepAuthorized(s, steps[0]);
    SigningMakesProgress(s, tx, Some(keys[0]));
    assert t.txs[tx].collected == s.txs[tx].collected + [keys[0]];
    if |keys| == 1 {
      assert SignAll(tx, keys[1..]) == [];
      assert Run(t, []) == t;
    } else {
      assert keys[0] !in keys[1..];
      SignAllCompletes(t, tx, keys[1..]);
    }
  }

  lemma SizeOfMissing(s: State, tx: string)
    requires Authorized(s) && tx in s.txs && s.txs[tx].status == Pending
    ensures Missing(s.txs[tx]) > 0
  {
  }

  lemma {:induction false} RunKeepsAccounts(s: State, steps: seq<Step>, tx: string)
    requires tx in s.txs && s.txs[tx].account in s.accounts
    ensures var t := Run(s, steps);
      && tx in t.txs && t.txs[tx].account == s.txs[tx].account && t.txs[tx].account in t.accounts
      && t.accounts[t.txs[tx].account] == s.accounts[s.txs[tx].account]
    decreases steps
  {
    if steps != [] {
      RunKeepsAccounts(Next(s, steps[0]), steps[1..], tx);
    }
  }

  ghost predicate CanBecomeReady(s: State, tx: string) {
    exists steps :: tx in Run(s, steps).txs && Run(s, steps).txs[tx].status == Ready
  }

  /**
   In every reachable state a pending transaction can still be brought to ready if and only if its account
   has at least `threshold` different signers. Creating an account counts repeated signers, so an account
   whose transactions can never be completed is accepted.
   */
  lemma CompletableExactly(before: seq<Step>, tx: string)
    requires var s := Run(INITIAL, before); tx in s.txs && s.txs[tx].status == Pending
    ensures var s := Run(INITIAL, before);
      && s.txs[tx].account in s.accounts
      && var c := s.accounts[s.txs[tx].account];
         CanBecomeReady(s, tx) <==> |Elements(c.signers)| >= c.threshold
  {
    RunAuthorized(INITIAL, before);
    var s := Run(INITIAL, before);
    if CanBecomeReady(s, tx) { ReadyNeedsSigners(s, tx); }
    if |Elements(s.accounts[s.txs[tx].account].signers)| >= s.accounts[s.txs[tx].account].threshold { SignersSuffice(s, tx); }
  }

  lemma ReadyNeedsSigners(s: State, tx: string)
    requires Authorized(s) && tx in s.txs && CanBecomeReady(s, tx)
    ensures var c := s.accounts[s.txs[tx].account]; |Elements(c.signers)| >= c.threshold
  {
    hide Distinct;
    var steps :| tx in Run(s, steps).txs && Run(s, steps).txs[tx].status == Ready;
    RunAuthorized(s, steps);
    RunKeepsAccounts(s, steps, tx);
    var collected := Run(s, steps).txs[tx].collected;
    DistinctCount(collected);
    SubsetCount(Elements(collected), Elements(s.accounts[s.txs[tx].account].signers));
  }

  lemma SignersSuffice(s: State, tx: string)
    requires Authorized(s) && tx in s.txs && s.txs[tx].status == Pending
    requires var c := s.accounts[s.txs[tx].account]; |Elements(c.signers)| >= c.threshold
    ensures CanBecomeReady(s, tx)
  {
    hide Distinct;
    var t := s.txs[tx];
    var signers := Elements(s.accounts[t.account].signers);
    DistinctCount(t.collected);
    assert Elements(t.collected) <= signers;
    assert |signers - Elements(t.collected)| == |signers| - |Elements(t.collected)| by {
      assert signers == (signers - Elements(t.collected)) + Elements(t.collected);
    }
    var keys := Choose(signers - Elements(t.collected), Missing(t));
    SignAllCompletes(s, tx, keys);
  }

  /** An attempt to execute a transaction that still collects signatures fails it for good. */
  lemma {:induction false} EarlyExecuteIsFinal(s: State, tx: string, steps: seq<Step>)
    requires tx in s.txs && s.txs[tx].status == Failed && s.txs[tx].flying == 0
    ensures var t := Run(s, steps); tx in t.txs && t.txs[tx] == s.txs[tx]
    decreases steps
  {
    if steps != [] {
      EarlyExecuteIsFinal(Next(s, steps[0]), tx, steps[1..]);
    }
  }

  /** So one premature call to execute keeps a transaction from ever being sent, whoever signs later. */
  lemma PrematureExecuteKills(before: seq<Step>, tx: string, after: seq<Step>)
    requires var s := Run(INITIAL, before); tx in s.txs && s.txs[tx].status == Pending
    ensures var t := Run(Next(Run(INITIAL, before), BeginExecute(tx)), after);
      tx in t.txs && t.txs[tx].status == Failed && t.txs[tx].sends == 0
  {
    RunAuthorized(INITIAL, before);
    EarlyExecuteIsFinal(Next(Run(INITIAL, before), BeginExecute(tx)), tx, after);
  }

  lemma FailedIsFinal(s: State, tx: string)
    requires tx in s.txs && s.txs[tx].status == Failed && s.txs[tx].flying == 0
    ensures !CanBecomeReady(s, tx)
  {
    forall steps ensures !(tx in Run(s, steps).txs && Run(s, steps).txs[tx].status == Ready) {
      EarlyExecuteIsFinal(s, tx, steps);
    }
  }

  lemma ReadyNow(s: State, tx: string)
    requires tx in s.txs && s.txs[tx].status == Ready
    ensures CanBecomeReady(s, tx)
  {
    assert Run(s, []) == s;
  }

  /**
   And it is the only way to spoil one: in every reachable state, a pending transaction that can be brought to ready
   can still be after a step of any kind, if and only if that step is not an attempt to execute it.
   */
  lemma StaysCompletableExactly(before: seq<Step>, step: Step, tx: string)
    requires var s := Run(INITIAL, before); tx in s.txs && s.txs[tx].status == Pending && CanBecomeReady(s, tx)
    ensures CanBecomeReady(Next(Run(INITIAL, before), step), tx) <==> step != BeginExecute(tx)
  {
    hide Run, CanBecomeReady;
    RunAuthorized(INITIAL, before);
    var s := Run(INITIAL, before);
    var t := Next(s, step);
    ReadyNeedsSigners(s, tx);
    StepAuthorized(s, step);
    if step == BeginExecute(tx) {
      FailedIsFinal(t, tx);
    } else if t.txs[tx].status == Ready {
      ReadyNow(t, tx);
    } else {
      SignersSuffice(t, tx);
    }
  }

  /**
   What an undisturbed execution decides: in every reachable state a ready transaction that is not on its way is executed
   and sent if the network confirms it, and otherwise failed and never sent, whatever follows.
   */
  lemma ExecutionDecides(before: seq<Step>, tx: string, confirmed: bool, after: seq<Step>)
    requires var s := Run(INITIAL, before); tx in s.txs && s.txs[tx].status == Ready && s.txs[tx].flying == 0
    ensures var t := Next(Next(Run(INITIAL, before), BeginExecute(tx)), EndExecute(tx, confirmed));
      && tx in t.txs
      && (if confirmed then t.txs[tx].status == Executed && t.txs[tx].sends == 1
          else t.txs[tx].status == Failed && tx in Run(t, after).txs && Run(t, after).txs[tx].status == Failed
               && Run(t, after).txs[tx].sends == 0)
  {
    RunAuthorized(INITIAL, before);
    var t := Next(Next(Run(INITIAL, before), BeginExecute(tx)), EndExecute(tx, confirmed));
    if !confirmed { EarlyExecuteIsFinal(t, tx, after); }
  }

  // ---------------------------------------------------------------- the service

  class SigningService {
    var multiSigAccounts: map<string, Config>
    var multiSigTransactions: map<string, Tx>

    ghost function Abs(): State
      reads this
    {
      State(multiSigAccounts, multiSigTransactions)
    }

    constructor ()
      ensures Abs() == INITIAL
    {
      multiSigAccounts, multiSigTransactions := map[], map[];
    }

    method CreateMultiSigAccount(address: string, config: Config) returns (ok: bool)
      requires address !in multiSigAccounts
      modifies this`multiSigAccounts
      ensures Abs() == Next(old(Abs()), CreateAccount(address, config))
      ensures ok <==> 1 <= config.threshold <= |config.signers| <= 11
      ensures multiSigAccounts == if ok then old(multiSigAccounts)[address := config] else old(multiSigAccounts)
    {
      if |config.signers| < config.threshold {
        return false;
      }
      if config.threshold < 1 {
        return false;
      }
      if |config.signers| > MAX_SIGNERS {
        return false;
      }
      multiSigAccounts := multiSigAccounts[address := config];
      return true;
    }

    method CreateMultiSigTransaction(txId: string, multiSigAddress: string) returns (ok: bool)
      requires txId !in multiSigTransactions
      modifies this`multiSigTransactions
      ensures Abs() == Next(old(Abs()), CreateTx(txId, multiSigAddress))
      ensures ok <==> multiSigAddress in multiSigAccounts
      ensures multiSigTransactions ==
        if ok then old(multiSigTransactions)[txId := Tx(multiSigAddress, multiSigAccounts[multiSigAddress].threshold, [], Pending, 0, 0)]
        else old(multiSigTransactions)
    {
      if multiSigAddress !in multiSigAccounts {
        return false;
      }
      var account := multiSigAccounts[multiSigAddress];
      multiSigTransactions := multiSigTransactions[txId := Tx(multiSigAddress, account.threshold, [], Pending, 0, 0)];
      return true;
    }

    method SignMultiSigTransaction(txId: string, signer: Option<string>) returns (ok: bool)
      modifies this`multiSigTransactions
      ensures Abs() == Next(old(Abs()), Sign(txId, signer))
      ensures ok <==>
        && txId in old(multiSigTransactions) && signer.Some?
        && var multiSigTx := old(multiSigTransactions)[txId];
           && multiSigTx.status == Pending && multiSigTx.account in multiSigAccounts
           && signer.value in multiSigAccounts[multiSigTx.account].signers && signer.value !in multiSigTx.collected
      ensures !ok ==> multiSigTransactions == old(multiSigTransactions)
      ensures ok ==>
        var multiSigTx := old(multiSigTransactions)[txId];
        multiSigTransactions == old(multiSigTransactions)[txId := multiSigTx.(
          collected := multiSigTx.collected + [signer.value],
          status := if |multiSigTx.collected| + 1 >= multiSigTx.required then Ready else Pending)]
    {
      if txId !in multiSigTransactions || multiSigTransactions[txId].status != Pending {
        return false;
      }
      var multiSigTx := multiSigTransactions[txId];
      if multiSigTx.account !in multiSigAccounts {
        return false;
      }
      var account := multiSigAccounts[multiSigTx.account];
      if signer.None? || signer.value !in account.signers {
        return false;
      }
      if signer.value in multiSigTx.collected {
        return false;
      }
      multiSigTx := multiSigTx.(collected := multiSigTx.collected + [signer.value]);
      if |multiSigTx.collected| >= multiSigTx.required {
        multiSigTx := multiSigTx.(status := Ready);
      }
      multiSigTransactions := multiSigTransactions[txId := multiSigTx];
      return true;
    }

    /** Up to the moment the transaction is on its way. */
    method StartExecution(txId: string) returns (sending: bool)
      modifies this`multiSigTransactions
      ensures Abs() == Next(old(Abs()), BeginExecute(txId))
      ensures sending <==> txId in old(multiSigTransactions) && old(multiSigTransactions)[txId].status == Ready
      ensures multiSigTransactions ==
        if txId !in old(multiSigTransactions) then old(multiSigTransactions)
        else
          var multiSigTx := old(multiSigTransactions)[txId];
          old(multiSigTransactions)[txId :=
            if sending then multiSigTx.(flying := multiSigTx.flying + 1) else multiSigTx.(status := Failed)]
    {
      if txId !in multiSigTransactions {
        return false;
      }
      var multiSigTx := multiSigTransactions[txId];
      if multiSigTx.status != Ready {
        multiSigTransactions := multiSigTransactions[txId := multiSigTx.(status := Failed)];
        return false;
      }
      multiSigTransactions := multiSigTransactions[txId := multiSigTx.(flying := multiSigTx.flying + 1)];
      return true;
    }

    method FinishExecution(txId: string, confirmed: bool)
      requires txId in multiSigTransactions && multiSigTransactions[txId].flying > 0
      modifies this`multiSigTransactions
      ensures Abs() == Next(old(Abs()), EndExecute(txId, confirmed))
      ensures var multiSigTx := old(multiSigTransactions)[txId];
        multiSigTransactions == old(multiSigTransactions)[txId := multiSigTx.(
          flying := multiSigTx.flying - 1, status := if confirmed then Executed else Failed,
          sends := multiSigTx.sends + if confirmed then 1 else 0)]
    {
      var multiSigTx := multiSigTransactions[txId];
      multiSigTx := multiSigTx.(flying := multiSigTx.flying - 1);
      if confirmed {
        multiSigTx := multiSigTx.(sends := multiSigTx.sends + 1, status := Executed);
      } else {
        multiSigTx := multiSigTx.(status := Failed);
      }
      multiSigTransactions := multiSigTransactions[txId := multiSigTx];
    }

    /** Nothing else touches the service while the network is awaited. */
    method ExecuteMultiSigTransaction(txId: string, confirmed: bool) returns (ok: bool)
      modifies this`multiSigTransactions
      ensures ok <==> confirmed && txId in old(multiSigTransactions) && old(multiSigTransactions)[txId].status == Ready
      ensures multiSigTransactions ==
        if txId !in old(multiSigTransactions) then old(multiSigTransactions)
        else
          var multiSigTx := old(multiSigTransactions)[txId];
          old(multiSigTransactions)[txId := multiSigTx.(
            status := if ok then Executed else Failed, sends := multiSigTx.sends + if ok then 1 else 0)]
      ensures var begun := Next(old(Abs()), BeginExecute(txId));
        Abs() == if txId in old(multiSigTransactions) && old(multiSigTransactions)[txId].status == Ready
                   then Next(begun, EndExecute(txId, confirmed)) else begun
    {
      var sending := StartExecution(txId);
      if !sending {
        return false;
      }
      FinishExecution(txId, confirmed);
      return confirmed;
    }
  }
}
