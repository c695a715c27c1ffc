/**
 Daily spending limits of smart accounts: the rules cache, the per-day Redis counter with its TTL, and
 the consumer that validates a request and then records it. Time is in milliseconds; Redis forgets a key
 at its expiry time. Midnight (UTC) may fall between validating and recording.
 */
module SpendLimit {
  import opened Options

  const DAY: nat := 86_400_000
  const SPENT_TTL: nat := 86_400_000
  const RULES_TTL: nat := 3_600_000

  datatype Rules = Rules(maxDailySpend: Option<int>, allowedPrograms: Option<set<string>>)

  /** inactiveSince is the time an account last stopped being ACTIVE; it matters only while it is not. */
  datatype Account = Account(rules: Rules, active: bool, inactiveSince: nat)

  datatype CachedRules = CachedRules(rules: Rules, expiresAt: nat)

  /** The name of a spend counter: account address and UTC date. */
  datatype Key = Key(address: string, day: nat)

  datatype Counter = Counter(value: int, expiresAt: nat)

  datatype Entry = Entry(key: Key, amount: int)

  /** A request that was found valid and is not recorded yet. */
  datatype Pending = Pending(address: string, amount: int, program: string)

  datatype Verdict = Valid | AccountNotFound | AccountNotActive | LimitExceeded | ProgramNotAllowed

  /** `records` is the history. */
  datatype State = State(
    now: nat,
    accounts: map<string, Account>,
    rulesCache: map<string, CachedRules>,
    counters: map<Key, Counter>,
    pending: seq<Pending>,
    records: seq<Entry>
  )

  datatype Step =
    | Wait(duration: nat)
    | Create(address: string, rules: Rules)
    | SetActive(address: string, active: bool)  // by an operator; the service itself never does this
    | Request(address: string, amount: int, program: string)
    | RecordPending(index: nat)

  const INITIAL: State := State(0, map[], map[], map[], [], [])

  function Today(s: State): nat {
    s.now / DAY
  }

  /** The limit that is checked: an absent or zero maxDailySpend is not. */
  function Limit(rules: Rules): Option<int> {
    if rules.maxDailySpend == Some(0) then None else rules.maxDailySpend
  }

  function Judge(rules: Rules, spent: int, amount: int, program: string): Verdict {
    if Limit(rules).Some? && spent + amount > Limit(rules).value then LimitExceeded
    else if rules.allowedPrograms.Some? && program !in rules.allowedPrograms.value then ProgramNotAllowed
    else Valid
  }

  predicate RulesLive(s: State, a: string) {
    a in s.rulesCache && s.now < s.rulesCache[a].expiresAt
  }

  predicate CounterLive(s: State, k: Key) {
    k in s.counters && s.now < s.counters[k].expiresAt
  }

  /** What GET on today's counter yields, an expired or missing key counting as 0. */
  function CurrentSpent(s: State, a: string): int {
    if CounterLive(s, Key(a, Today(s))) then s.counters[Key(a, Today(s))].value else 0
  }

  function VerdictFor(s: State, a: string, amount: int, program: string): Verdict {
    if RulesLive(s, a) then Judge(s.rulesCache[a].rules, CurrentSpent(s, a), amount, program)
    else if a !in s.accounts then AccountNotFound
    else if !s.accounts[a].active then AccountNotActive
    else Judge(s.accounts[a].rules, CurrentSpent(s, a), amount, program)
  }

  /** validateTransaction refills the rules cache from an active account. */
  function Refilled(s: State, a: string): State {
    if !RulesLive(s, a) && a in s.accounts && s.accounts[a].active
    then s.(rulesCache := s.rulesCache[a := CachedRules(s.accounts[a].rules, s.now + RULES_TTL)])
    else s
  }

  /** INCRBY and EXPIRE on today's counter. */
  function Recorded(s: State, a: string, amount: int): State {
    var k := Key(a, Today(s));
    s.(counters := s.counters[k := Counter(CurrentSpent(s, a) + amount, s.now + SPENT_TTL)],
       records := s.records + [Entry(k, amount)])
  }

  function Next(s: State, step: Step): State {
    match step
    case Wait(d) => s.(now := s.now + d)
    case Create(a, rules) =>
      if a in s.accounts then s
      else s.(accounts := s.accounts[a := Account(rules, true, 0)],
              rulesCache := s.rulesCache[a := CachedRules(rules, s.now + RULES_TTL)])
    case SetActive(a, active) =>
      if a in s.accounts && s.accounts[a].active != active
      then s.(accounts := s.accounts[a := Account(s.accounts[a].rules, active, s.now)])
      else s
    case Request(a, amount, program) =>
      var t := Refilled(s, a);
      if VerdictFor(s, a, amount, program) == Valid then t.(pending := s.pending + [Pending(a, amount, program)]) else t
    case RecordPending(i) =>
      if i < |s.pending|
        then Recorded(s, s.pending[i].address, s.pending[i].amount).(pending := s.pending[..i] + s.pending[i + 1..])
        else s
  }

  function Run(s: State, steps: seq<Step>): State
    decreases steps
  {
    if steps == [] then s else Run(Next(s, steps[0]), steps[1..])
  }

  // ---------------------------------------------------------------- safety

  /** The sum recorded under a key. */
  function Spent(records: seq<Entry>, k: Key): int {
    if records == [] then 0
    else
      var last := records[|records| - 1];
      Spent(records[..|records| - 1], k) + (if last.key == k then last.amount else 0)
  }

  lemma {:induction false} SpentNone(records: seq<Entry>, k: Key)
    requires forall r :: r in records ==> r.key != k
    ensures Spent(records, k) == 0
  {
    if records != [] { SpentNone(records[..|records| - 1], k); }
  }

  ghost predicate Within(limit: Option<int>, total: int) {
    limit.Some? ==> total <= limit.value || total == 0
  }

  /** Facts about all accounts, caches, counters and records. */
  ghost predicate Sound(s: State) {
    && (forall r :: r in s.records ==> r.key.day <= Today(s) && r.key.address in s.accounts)
    && (forall k :: k in s.counters ==> s.counters[k].expiresAt >= (k.day + 1) * DAY)
    && (forall a :: a in s.rulesCache ==>
          && a in s.accounts && s.rulesCache[a].rules == s.accounts[a].rules
          && (s.accounts[a].active || s.rulesCache[a].expiresAt <= s.accounts[a].inactiveSince + RULES_TTL))
    && (forall a :: a in s.accounts ==> s.accounts[a].inactiveSince <= s.now)
    && (forall a :: a in s.rulesCache ==> s.rulesCache[a].expiresAt <= s.now + RULES_TTL)
    && (forall i :: 0 <= i < |s.pending| ==> s.pending[i].address in s.accounts)
  }

  /** The counter named k mirrors the history. */
  ghost predicate Mirrors(s: State, k: Key) {
    if k in s.counters then s.counters[k].value == Spent(s.records, k) else Spent(s.records, k) == 0
  }

  predicate NonNegative(step: Step) {
    step.Request? ==> step.amount >= 0
  }

  /** At most one request is pending, nothing is negative, and the limit of the account of k holds. */
  ghost predicate Exact(s: State, k: Key) {
    && Mirrors(s, k) && |s.pending| <= 1 && (s.pending != [] ==> s.pending[0].amount >= 0)
    && (forall c :: c in s.counters ==> s.counters[c].value >= 0)
    && (k.address in s.accounts ==> Within(Limit(s.accounts[k.address].rules), Spent(s.records, k)))
    && (s.pending != [] && s.pending[0].address == k.address && k.address in s.accounts && k.day >= Today(s)
        && Limit(s.accounts[k.address].rules).Some?
        ==> Spent(s.records, k) + s.pending[0].amount <= Limit(s.accounts[k.address].rules).value)
  }

  lemma DayEnds(s: State)
    ensures Today(s) * DAY <= s.now < (Today(s) + 1) * DAY
  {
  }

  lemma StepSound(s: State, step: Step)
    requires Sound(s)
    ensures Sound(Next(s, step))
  {
    hide VerdictFor, Refilled, Recorded;
    match step
    case Wait(d) => WaitSound(s, d);
    case Create(a, rules) => DayEnds(s);
    case SetActive(a, active) => DayEnds(s);
    case Request(a, amount, program) => RequestSound(s, a, amount, program);
    case RecordPending(i) =>
      if i < |s.pending| { RecordedSound(s, s.pending[i].address, s.pending[i].amount); RecordedPending(s, i); }
  }

  lemma WaitSound(s: State, d: nat)
    requires Sound(s)
    ensures Sound(s.(now := s.now + d))
  {
    assert Today(s) <= Today(s.(now := s.now + d));
  }

  lemma RequestSound(s: State, a: string, amount: int, program: string)
    requires Sound(s)
    ensures Sound(Next(s, Request(a, amount, program)))
  {
    hide Refilled;
    RefilledSound(s, a);
    RefilledShape(s, a);
  }

  lemma RefilledShape(s: State, a: string)
    ensures Refilled(s, a) == s.(rulesCache := Refilled(s, a).rulesCache)
  {
  }

  /** Dropping a pending request keeps what is known about the others. */
  lemma RecordedPending(s: State, i: nat)
    requires i < |s.pending| && Sound(Recorded(s, s.pending[i].address, s.pending[i].amount))
    ensures Sound(Next(s, RecordPending(i)))
  {
    hide Spent;
  }

  lemma RefilledSound(s: State, a: string)
    requires Sound(s)
    ensures Sound(Refilled(s, a))
  {
  }

  lemma RecordedSound(s: State, a: string, amount: int)
    requires Sound(s) && a in s.accounts
    ensures Sound(Recorded(s, a, amount))
  {
  }

  lemma MirrorsAlike(s: State, t: State, k: Key)
    requires Mirrors(s, k) && t.counters == s.counters && t.records == s.records
    ensures Mirrors(t, k)
  {
    hide Spent;
  }

  lemma StepMirrors(s: State, step: Step, k: Key)
    requires Sound(s) && Mirrors(s, k)
    ensures Mirrors(Next(s, step), k)
  {
    hide Sound, Mirrors, VerdictFor, Recorded, Refilled;
    if step.RecordPending? && step.index < |s.pending| {
      var a, amount := s.pending[step.index].address, s.pending[step.index].amount;
      RecordedMirrors(s, a, amount, k);
      MirrorsAlike(Recorded(s, a, amount), Next(s, step), k);
    } else {
      if step.Request? { RefilledShape(s, step.address); }
      MirrorsAlike(s, Next(s, step), k);
    }
  }

  lemma RecordedMirrors(s: State, a: string, amount: int, k: Key)
    requires Sound(s) && Mirrors(s, k)
    ensures Mirrors(Recorded(s, a, amount), k)
    ensures Spent(Recorded(s, a, amount).records, k) == Spent(s.records, k) + if k == Key(a, Today(s)) then amount else 0
  {
    DayEnds(s);
    assert (s.records + [Entry(Key(a, Today(s)), amount)])[..|s.records|] == s.records;
  }

  /** Whatever overlaps, counters and history agree. */
  lemma {:induction false} RunMirrors(s: State, steps: seq<Step>, k: Key)
    requires Sound(s) && Mirrors(s, k)
    ensures Sound(Run(s, steps)) && Mirrors(Run(s, steps), k)
    decreases steps
  {
    hide Sound, Mirrors, Next;
    if steps != [] {
      StepSound(s, steps[0]);
      StepMirrors(s, steps[0], k);
      RunMirrors(Next(s, steps[0]), steps[1..], k);
    }
  }

  lemma RequestExact(s: State, a: string, amount: int, program: string, k: Key)
    requires Sound(s) && Exact(s, k) && amount >= 0 && s.pending == []
    ensures Exact(Next(s, Request(a, amount, program)), k)
  {
    DayEnds(s);
    if VerdictFor(s, a, amount, program) == Valid && k.address == a && k.day > Today(s) {
      SpentNone(s.records, k);
    }
  }

  lemma RecordedExact(s: State, k: Key)
    requires Sound(s) && Exact(s, k) && s.pending != []
    ensures Exact(Next(s, RecordPending(0)), k)
  {
    hide Sound, Mirrors, Spent, Recorded;
    RecordedMirrors(s, s.pending[0].address, s.pending[0].amount, k);
    RecordedKeeps(s, s.pending[0].address, s.pending[0].amount);
    StepMirrors(s, RecordPending(0), k);
  }

  lemma RecordedKeeps(s: State, a: string, amount: int)
    ensures Recorded(s, a, amount).accounts == s.accounts && Recorded(s, a, amount).now == s.now
    ensures amount >= 0 && (forall c :: c in s.counters ==> s.counters[c].value >= 0) ==>
              forall c :: c in Recorded(s, a, amount).counters ==> Recorded(s, a, amount).counters[c].value >= 0
  {
  }

  /** No request is validated while another one waits to be recorded. */
  predicate Serial(s: State, step: Step) {
    step.Request? ==> s.pending == []
  }

  predicate SerialRun(s: State, steps: seq<Step>)
    decreases steps
  {
    steps == [] || (Serial(s, steps[0]) && SerialRun(Next(s, steps[0]), steps[1..]))
  }

  lemma StepExact(s: State, step: Step, k: Key)
    requires Sound(s) && Exact(s, k) && NonNegative(step) && Serial(s, step)
    ensures Exact(Next(s, step), k)
  {
    hide VerdictFor, Recorded;
    match step
    case Wait(d) => assert Today(s) <= Today(Next(s, step));
    case Create(a, rules) => if k.address == a && a !in s.accounts { SpentNone(s.records, k); }
    case SetActive(a, active) =>
    case Request(a, amount, program) => RequestExact(s, a, amount, program, k);
    case RecordPending(i) => if i < |s.pending| { RecordedExact(s, k); }
  }

  lemma {:induction false} RunExact(s: State, steps: seq<Step>, k: Key)
    requires Sound(s) && Exact(s, k) && SerialRun(s, steps) && forall step :: step in steps ==> NonNegative(step)
    ensures Sound(Run(s, steps)) && Exact(Run(s, steps), k)
    decreases steps
  {
    hide Sound, Exact, Next;
    if steps != [] {
      StepSound(s, steps[0]);
      StepExact(s, steps[0], k);
      RunExact(Next(s, steps[0]), steps[1..], k);
    }
  }

  /**
   For every run, wherever midnight falls and whatever overlaps, today's counter shows exactly what was recorded today
   (its TTL outlives the day); and if amounts are not negative and requests are handled one at a time, what is recorded
   for an account on any day stays within its limit.
   */
  lemma DailySpendStaysWithinLimit(steps: seq<Step>, a: string, day: nat)
    ensures var s := Run(INITIAL, steps);
      && CurrentSpent(s, a) == Spent(s.records, Key(a, s.now / 86_400_000))
      && (SerialRun(INITIAL, steps) && (forall step :: step in steps ==> NonNegative(step)) && a in s.accounts ==>
            Within(Limit(s.accounts[a].rules), Spent(s.records, Key(a, day))))
  {
    var s := Run(INITIAL, steps);
    if SerialRun(INITIAL, steps) && (forall step :: step in steps ==> NonNegative(step)) { RunExact(INITIAL, steps, Key(a, day)); }
    RunMirrors(INITIAL, steps, Key(a, Today(s)));
    DayEnds(s);
  }

  // ---------------------------------------------------------------- requests side by side

  function Total(requests: seq<(int, string)>): int {
    if requests == [] then 0 else requests[0].0 + Total(requests[1..])
  }

  /** The requests are all validated before the first of them is recorded. */
  function Requests(a: string, requests: seq<(int, string)>): seq<Step> {
    if requests == [] then [] else [Request(a, requests[0].0, requests[0].1)] + Requests(a, requests[1..])
  }

  function Records(n: nat): seq<Step> {
    if n == 0 then [] else [RecordPending(0)] + Records(n - 1)
  }

  /** All of them are found valid. */
  predicate AllValid(s: State, a: string, requests: seq<(int, string)>) {
    forall i :: 0 <= i < |requests| ==> VerdictFor(s, a, requests[i].0, requests[i].1) == Valid
  }

  function Amounts(a: string, requests: seq<(int, string)>): (r: seq<Pending>)
    ensures |r| == |requests|
  {
    if requests == [] then [] else [Pending(a, requests[0].0, requests[0].1)] + Amounts(a, requests[1..])
  }

  lemma RequestLeaves(s: State, a: string, amount: int, program: string)
    requires VerdictFor(s, a, amount, program) == Valid
    ensures var t := Next(s, Request(a, amount, program));
      && t.pending == s.pending + [Pending(a, amount, program)]
      && t.records == s.records && t.now == s.now && t.accounts == s.accounts && t.counters == s.counters
  {
  }

  lemma SameVerdict(s: State, a: string, amount: int, program: string, x: int, p: string)
    requires VerdictFor(s, a, amount, program) == Valid
    ensures VerdictFor(Next(s, Request(a, amount, program)), a, x, p) == VerdictFor(s, a, x, p)
  {
  }

  lemma RestValid(s: State, a: string, requests: seq<(int, string)>)
    requires AllValid(s, a, requests) && requests != []
    ensures AllValid(Next(s, Request(a, requests[0].0, requests[0].1)), a, requests[1..])
  {
    hide VerdictFor, Next;
    forall i | 1 <= i < |requests|
      ensures VerdictFor(Next(s, Request(a, requests[0].0, requests[0].1)), a, requests[i].0, requests[i].1) == Valid
    {
      SameVerdict(s, a, requests[0].0, requests[0].1, requests[i].0, requests[i].1);
    }
  }

  lemma {:induction false} RequestsPend(s: State, a: string, requests: seq<(int, string)>)
    requires AllValid(s, a, requests)
    ensures var t := Run(s, Requests(a, requests));
      && t.pending == s.pending + Amounts(a, requests)
      && t.records == s.records && t.now == s.now && t.accounts == s.accounts
    decreases requests
  {
    hide Next, VerdictFor;
    if requests != [] {
      var step := Request(a, requests[0].0, requests[0].1);
      RequestLeaves(s, a, requests[0].0, requests[0].1);
      RestValid(s, a, requests);
      hide AllValid;
      var t := Next(s, step);
      assert Requests(a, requests)[1..] == Requests(a, requests[1..]);
      RequestsPend(t, a, requests[1..]);
      assert s.pending + ([Pending(a, requests[0].0, requests[0].1)] + Amounts(a, requests[1..])) == t.pending + Amounts(a, requests[1..]);
    }
  }

  lemma {:induction false} RecordsSpend(s: State, a: string, requests: seq<(int, string)>)
    requires s.pending == Amounts(a, requests)
    ensures var t := Run(s, Records(|requests|));
      && t.pending == [] && t.accounts == s.accounts && t.now == s.now
      && Spent(t.records, Key(a, Today(s))) == Spent(s.records, Key(a, Today(s))) + Total(requests)
    decreases requests
  {
    if requests != [] {
      var t := Next(s, RecordPending(0));
      assert t.pending == Amounts(a, requests[1..]);
      assert t.records[..|s.records|] == s.records;
      assert Records(|requests|)[1..] == Records(|requests| - 1);
      RecordsSpend(t, a, requests[1..]);
    }
  }

  /**
   Side by side, any number of requests can each be found valid. After they are recorded the account is within its
   limit if and only if what was spent before and all of them together are.
   */
  lemma {:induction false} OverlapWithinExactly(steps: seq<Step>, a: string, requests: seq<(int, string)>)
    requires a in Run(INITIAL, steps).accounts && Run(INITIAL, steps).pending == []
    requires AllValid(Run(INITIAL, steps), a, requests)
    ensures var s := Run(INITIAL, steps);
      var t := Run(Run(s, Requests(a, requests)), Records(|requests|));
      var spent := Spent(s.records, Key(a, Today(s)));
      && a in t.accounts && t.pending == []
      && (Within(Limit(t.accounts[a].rules), Spent(t.records, Key(a, Today(t)))) <==>
            Within(Limit(s.accounts[a].rules), spent + Total(requests)))
  {
    hide *;
    var s := Run(INITIAL, steps);
    RequestsPend(s, a, requests);
    assert s.pending + Amounts(a, requests) == Amounts(a, requests);
    SameDay(s, Run(s, Requests(a, requests)));
    SameDay(s, Run(Run(s, Requests(a, requests)), Records(|requests|)));
    RecordsSpend(Run(s, Requests(a, requests)), a, requests);
  }

  lemma SameDay(s: State, t: State)
    ensures s.now == t.now ==> Today(s) == Today(t)
  {
  }

  /** Two requests of 60 against a limit of 100. */
  lemma TwoRequestsExceed(a: string, program: string)
    ensures var s := Run(INITIAL, [Create(a, Rules(Some(100), None))]);
      var requests := [(60, program), (60, program)];
      var t := Run(Run(s, Requests(a, requests)), Records(2));
      AllValid(s, a, requests) && a in t.accounts && !Within(Limit(t.accounts[a].rules), Spent(t.records, Key(a, Today(t))))
  {
    hide Requests, Records, VerdictFor, AllValid, Next;
    var create := Create(a, Rules(Some(100), None));
    RunThree(INITIAL, create, create, create);
    TwoValid(a, program);
    OverlapWithinExactly([create], a, [(60, program), (60, program)]);
  }

  lemma TwoValid(a: string, program: string)
    ensures var s := Next(INITIAL, Create(a, Rules(Some(100), None)));
      var requests := [(60, program), (60, program)];
      && AllValid(s, a, requests) && Total(requests) == 120
      && s.accounts == map[a := Account(Rules(Some(100), None), true, 0)] && s.pending == [] && s.records == []
  {
    var requests := [(60, program), (60, program)];
    var last: seq<(int, string)> := [(60, program)];
    assert requests[1..] == last && last[1..] == [];
    assert Total(last) == 60;
  }

  // ---------------------------------------------------------------- what the limit and the cache let through

  /**
   What is authorised, in the terms of the account: in every reachable state a request is found valid if and only if the
   account exists and is active or its rules are cached, no limit other than zero is set or what was recorded today and
   the amount together are within it, and no list of programs is set or the program is on it. And why it is not: an
   account is unknown or not active only when its rules are not cached, and the limit is looked at before the list.
   */
  lemma VerdictExactly(steps: seq<Step>, a: string, amount: int, program: string)
    ensures var s := Run(INITIAL, steps);
      var verdict := VerdictFor(s, a, amount, program);
      var cached := a in s.rulesCache && s.now < s.rulesCache[a].expiresAt;
      && (verdict == AccountNotFound <==> !cached && a !in s.accounts)
      && (verdict == AccountNotActive <==> !cached && a in s.accounts && !s.accounts[a].active)
      && (a in s.accounts && (cached || s.accounts[a].active) ==>
            var rules := s.accounts[a].rules;
            var within := rules.maxDailySpend.None? || rules.maxDailySpend.value == 0
                          || Spent(s.records, Key(a, s.now / 86_400_000)) + amount <= rules.maxDailySpend.value;
            var listed := rules.allowedPrograms.None? || program in rules.allowedPrograms.value;
            && (verdict == Valid <==> within && listed)
            && (verdict == LimitExceeded <==> !within)
            && (verdict == ProgramNotAllowed <==> within && !listed))
  {
    DailySpendStaysWithinLimit(steps, a, 0);
    RunMirrors(INITIAL, steps, Key(a, 0));
  }

  /** What is waiting to be recorded was for a program its account allows. */
  ghost predicate PendingListed(s: State) {
    forall i :: 0 <= i < |s.pending| ==>
      && s.pending[i].address in s.accounts
      && var allowed := s.accounts[s.pending[i].address].rules.allowedPrograms;
         allowed.None? || s.pending[i].program in allowed.value
  }

  lemma StepListed(s: State, step: Step)
    requires Sound(s) && PendingListed(s)
    ensures PendingListed(Next(s, step))
  {
    hide Spent;
  }

  lemma {:induction false} RunListed(s: State, steps: seq<Step>)
    requires Sound(s) && PendingListed(s)
    ensures PendingListed(Run(s, steps))
    decreases steps
  {
    hide Sound, PendingListed, Next;
    if steps != [] {
      StepSound(s, steps[0]);
      StepListed(s, steps[0]);
      RunListed(Next(s, steps[0]), steps[1..]);
    }
  }

  /** After any run every authorised request that is not recorded yet names a program on the list of its account. */
  lemma OnlyListedPrograms(steps: seq<Step>)
    ensures PendingListed(Run(INITIAL, steps))
  {
    RunListed(INITIAL, steps);
  }

  /** Which rules impose a limit at all: a maxDailySpend of zero imposes none. */
  lemma LimitImposedExactly(rules: Rules)
    ensures (exists spent: int, amount: int, program: string :: Judge(rules, spent, amount, program) == LimitExceeded)
       <==> rules.maxDailySpend.Some? && rules.maxDailySpend.value != 0
  {
    if Limit(rules).Some? {
      assert Judge(rules, Limit(rules).value, 1, "") == LimitExceeded;
    }
  }

  /**
   Rules are cached: in every reachable state a request is found valid if and only if the account exists, its own
   rules and what was recorded today allow the request, and the account is active or its rules are still cached;
   and those of a frozen account are cached for less than an hour after it was.
   */
  lemma StalenessIsBounded(steps: seq<Step>, a: string, amount: int, program: string)
    ensures var s := Run(INITIAL, steps);
      && (VerdictFor(s, a, amount, program) == Valid <==>
            && a in s.accounts
            && Judge(s.accounts[a].rules, Spent(s.records, Key(a, Today(s))), amount, program) == Valid
            && (s.accounts[a].active || RulesLive(s, a)))
      && (a in s.accounts && !s.accounts[a].active && RulesLive(s, a) ==> s.now < s.accounts[a].inactiveSince + 3_600_000)
  {
    DailySpendStaysWithinLimit(steps, a, 0);
    RunMirrors(INITIAL, steps, Key(a, 0));
  }

  /** An account frozen right after its creation is authorised as if it were not, for exactly an hour. */
  lemma FrozenForExactly(a: string, rules: Rules, delay: nat, amount: int, program: string)
    ensures var s := Run(INITIAL, [Create(a, rules), SetActive(a, false), Wait(delay)]);
      && a in s.accounts && !s.accounts[a].active
      && VerdictFor(s, a, amount, program) == if delay < 3_600_000 then Judge(rules, 0, amount, program) else AccountNotActive
  {
    RunThree(INITIAL, Create(a, rules), SetActive(a, false), Wait(delay));
  }

  /** Whichever of the pending requests is recorded next, its amount and nothing else goes to its account on the day it is. */
  lemma PendingIsRecorded(s: State, i: nat, k: Key)
    requires i < |s.pending|
    ensures var t := Next(s, RecordPending(i));
      && t.pending == s.pending[..i] + s.pending[i + 1..] && t.accounts == s.accounts && t.now == s.now
      && Spent(t.records, k) == Spent(s.records, k)
                                + if k == Key(s.pending[i].address, s.now / 86_400_000) then s.pending[i].amount else 0
  {
    assert Next(s, RecordPending(i)).records[..|s.records|] == s.records;
  }

  // ---------------------------------------------------------------- the service and its consumer

  /** The steps of one handled authorisation message; `delay` passes between validating and recording. */
  function AuthorizationRun(s: State, a: string, amount: int, program: string, delay: nat): seq<Step> {
    if VerdictFor(s, a, amount, program) == Valid
    then [Request(a, amount, program), Wait(delay), RecordPending(0)]
    else [Request(a, amount, program)]
  }

  lemma RunThree(s: State, a: Step, b: Step, c: Step)
    ensures Run(s, [a]) == Next(s, a)
    ensures Run(s, [a, b, c]) == Next(Next(Next(s, a), b), c)
  {
    assert [a, b, c][1..] == [b, c] && [b, c][1..] == [c];
    assert Run(Next(Next(s, a), b), [c]) == Next(Next(Next(s, a), b), c);
    assert Run(Next(s, a), [b, c]) == Next(Next(Next(s, a), b), c);
  }

  lemma AuthorizationOutcome(s: State, a: string, amount: int, program: string, delay: nat)
    requires s.pending == []
    ensures Run(s, AuthorizationRun(s, a, amount, program, delay))
         == if VerdictFor(s, a, amount, program) == Valid
            then Recorded(Refilled(s, a).(now := s.now + delay), a, amount)
            else Refilled(s, a)
  {
    hide Run, Next, VerdictFor, Refilled, Recorded;
    RunThree(s, Request(a, amount, program), Wait(delay), RecordPending(0));
    RequestOutcome(s, a, amount, program);
    if VerdictFor(s, a, amount, program) == Valid {
      assert s.pending + [Pending(a, amount, program)] == [Pending(a, amount, program)];
      PendingOutcome(Refilled(s, a), a, amount, program, delay);
    }
  }

  lemma RequestOutcome(s: State, a: string, amount: int, program: string)
    ensures Next(s, Request(a, amount, program))
         == if VerdictFor(s, a, amount, program) == Valid
            then Refilled(s, a).(pending := s.pending + [Pending(a, amount, program)]) else Refilled(s, a)
    ensures Refilled(s, a).pending == s.pending && Refilled(s, a).now == s.now
  {
  }

  lemma PendingOutcome(s: State, a: string, amount: int, program: string, delay: nat)
    requires s.pending == []
    ensures Next(Next(s.(pending := [Pending(a, amount, program)]), Wait(delay)), RecordPending(0))
         == Recorded(s.(now := s.now + delay), a, amount)
  {
  }

  class SmartAccountsService {
    var now: nat
    var accounts: map<string, Account>
    var rulesCache: map<string, CachedRules>
    var counters: map<Key, Counter>
    var authorized: seq<string>
    var rejected: seq<string>
    ghost var records: seq<Entry>

    ghost function Abs(): State
      reads this
    {
      State(now, accounts, rulesCache, counters, [], records)
    }

    constructor ()
      ensures Abs() == INITIAL && authorized == rejected == []
    {
      now, accounts, rulesCache, counters := 0, map[], map[], map[];
      authorized, rejected, records := [], [], [];
    }

    /** The address column is unique: saving a second account with the address throws. */
    method CreateSmartAccount(smartAccountAddress: string, rules: Rules) returns (ok: bool)
      modifies this
      ensures Abs() == Next(old(Abs()), Create(smartAccountAddress, rules))
      ensures ok <==> smartAccountAddress !in old(accounts)
      ensures accounts == if ok then old(accounts)[smartAccountAddress := Account(rules, true, 0)] else old(accounts)
      ensures rulesCache == if ok then old(rulesCache)[smartAccountAddress := CachedRules(rules, now + 3_600_000)] else old(rulesCache)
      ensures now == old(now) && counters == old(counters) && authorized == old(authorized) && rejected == old(rejected)
    {
      if smartAccountAddress in accounts {
        return false;
      }
      accounts := accounts[smartAccountAddress := Account(rules, true, 0)];
      rulesCache := rulesCache[smartAccountAddress := CachedRules(rules, now + RULES_TTL)];
      return true;
    }

    method ValidateTransaction(smartAccountAddress: string, amount: int, programId: string) returns (verdict: Verdict)
      modifies this`rulesCache
      ensures verdict == VerdictFor(old(Abs()), smartAccountAddress, amount, programId)
      ensures Abs() == Refilled(old(Abs()), smartAccountAddress)
      ensures var known := smartAccountAddress in old(rulesCache) && now < old(rulesCache)[smartAccountAddress].expiresAt;
        rulesCache == if !known && smartAccountAddress in accounts && accounts[smartAccountAddress].active
                        then old(rulesCache)[smartAccountAddress := CachedRules(accounts[smartAccountAddress].rules, now + 3_600_000)]
                        else old(rulesCache)
    {
      var rules: Rules;
      if smartAccountAddress in rulesCache && now < rulesCache[smartAccountAddress].expiresAt {
        rules := rulesCache[smartAccountAddress].rules;
      } else {
        if smartAccountAddress !in accounts {
          return AccountNotFound;
        }
        if !accounts[smartAccountAddress].active {
          return AccountNotActive;
        }
        rules := accounts[smartAccountAddress].rules;
        rulesCache := rulesCache[smartAccountAddress := CachedRules(rules, now + RULES_TTL)];
      }
      if rules.maxDailySpend.Some? && rules.maxDailySpend.value != 0 {
        var spentKey := Key(smartAccountAddress, now / DAY);
        var currentSpent := if spentKey in counters && now < counters[spentKey].expiresAt then counters[spentKey].value else 0;
        var newTotal := currentSpent + amount;
        if newTotal > rules.maxDailySpend.value {
          return LimitExceeded;
        }
      }
      if rules.allowedPrograms.Some? && programId !in rules.allowedPrograms.value {
        return ProgramNotAllowed;
      }
      return Valid;
    }

    method RecordTransaction(smartAccountAddress: string, amount: int)
      modifies this`counters, this`records
      ensures Abs() == Recorded(old(Abs()), smartAccountAddress, amount)
      ensures var spentKey := Key(smartAccountAddress, now / 86_400_000);
        var before := if spentKey in old(counters) && now < old(counters)[spentKey].expiresAt then old(counters)[spentKey].value else 0;
        counters == old(counters)[spentKey := Counter(before + amount, now + 86_400_000)]
    {
      var spentKey := Key(smartAccountAddress, now / DAY);
      var value := if spentKey in counters && now < counters[spentKey].expiresAt then counters[spentKey].value else 0;
      counters := counters[spentKey := Counter(value + amount, now + SPENT_TTL)];
      records := records + [Entry(spentKey, amount)];
    }

    /** One message of `transaction.authorization.requested`. */
    method HandleAuthorizationRequest(transactionId: string, smartAccountAddress: string, amount: int,
                                      programId: string, delay: nat)
      modifies this
      ensures transactionId == "" || smartAccountAddress == "" ==>
                Abs() == old(Abs()) && authorized == old(authorized) && rejected == old(rejected)
      ensures transactionId != "" && smartAccountAddress != "" ==>
                && Abs() == Run(old(Abs()), AuthorizationRun(old(Abs()), smartAccountAddress, amount, programId, delay))
                && (if VerdictFor(old(Abs()), smartAccountAddress, amount, programId) == Valid
                    then authorized == old(authorized) + [transactionId] && rejected == old(rejected)
                    else rejected == old(rejected) + [transactionId] && authorized == old(authorized))
    {
      if transactionId == "" || smartAccountAddress == "" {
        return;
      }
      AuthorizationOutcome(Abs(), smartAccountAddress, amount, programId, delay);
      var verdict := ValidateTransaction(smartAccountAddress, amount, programId);
      if verdict == Valid {
        now := now + delay;
        RecordTransaction(smartAccountAddress, amount);
        authorized := authorized + [transactionId];
      } else {
        rejected := rejected + [transactionId];
      }
    }
  }
}
