/**
 Session keys of smart accounts: the table with its unique key address, and the Redis cache of permissions
 in front of it. Time is in milliseconds; TTLs are whole seconds.

 Both calls that fill the cache compute an expiry first, and are suspended until Redis has taken the entry; its
 TTL counts from then. Other calls run meanwhile. Redis may drop an entry at any time.
 */
module SessionKeys {
  import opened Options

  datatype Status = Active | Expired | Revoked

  datatype Permissions = Permissions(
    maxAmount: Option<int>,
    allowedPrograms: Option<set<string>>,
    allowedOperations: Option<set<string>>,
    timeLimit: Option<int>  // in seconds
  )

  datatype Row = Row(permissions: Permissions, status: Status, expiresAt: int)

  /** `lag` is how long it took from computing the TTL to the entry: history. */
  datatype CacheEntry = CacheEntry(permissions: Permissions, expiresAt: int, lag: int)

  /** A write to the cache that is on its way, with its TTL and the time it was computed. */
  datatype Write = Write(key: string, permissions: Permissions, ttl: int, since: int)

  /** The optional arguments of validateSessionKey. */
  datatype Use = Use(amount: Option<int>, program: Option<string>, operation: Option<string>)

  datatype Verdict =
    | Valid
    | NotFound
    | NotActive(status: Status)
    | JustExpired
    | AmountExceeded
    | ProgramDenied
    | OperationDenied

  datatype State = State(now: int, rows: map<string, Row>, cache: map<string, CacheEntry>, writes: seq<Write>)

  datatype Step =
    | Wait(duration: nat)
    | Create(key: string, permissions: Permissions, accountActive: bool)
    | Validate(key: string, use: Use)
    | Land(write: nat)
    | Fail(write: nat)
    | Revoke(key: string)
    | Evict(key: string)

  const INITIAL: State := State(0, map[], map[], [])

  /** An absent or zero time limit becomes an hour. */
  function TimeLimit(p: Permissions): int {
    if p.timeLimit.None? || p.timeLimit.value == 0 then 3600 else p.timeLimit.value
  }

  /** Absent, zero and empty limits and arguments are not compared. */
  function Check(p: Permissions, use: Use): Verdict {
    if p.maxAmount.Some? && p.maxAmount.value != 0 && use.amount.Some? && use.amount.value != 0
       && use.amount.value > p.maxAmount.value
    then AmountExceeded
    else if p.allowedPrograms.Some? && use.program.Some? && use.program.value != ""
            && use.program.value !in p.allowedPrograms.value
    then ProgramDenied
    else if p.allowedOperations.Some? && use.operation.Some? && use.operation.value != ""
            && use.operation.value !in p.allowedOperations.value
    then OperationDenied
    else Valid
  }

  predicate Cached(s: State, key: string) {
    key in s.cache && s.now < s.cache[key].expiresAt
  }

  /** The verdict of the table alone. */
  function TableVerdict(s: State, key: string, use: Use): Verdict {
    if key !in s.rows then NotFound
    else if s.rows[key].status != Active then NotActive(s.rows[key].status)
    else if s.now > s.rows[key].expiresAt then JustExpired
    else Check(s.rows[key].permissions, use)
  }

  /** The verdict of validateSessionKey. */
  function VerdictFor(s: State, key: string, use: Use): Verdict {
    if Cached(s, key) then Check(s.cache[key].permissions, use) else TableVerdict(s, key, use)
  }

  function Without<T>(xs: seq<T>, i: nat): seq<T>
    requires i < |xs|
  {
    xs[..i] + xs[i + 1..]
  }

  /** The row, and then the entry; Redis refuses a time to live that is not positive. */
  function AfterCreate(s: State, key: string, p: Permissions): State {
    var ttl := TimeLimit(p) * 1000;
    s.(rows := s.rows[key := Row(p, Active, s.now + ttl)],
       writes := if ttl > 0 then s.writes + [Write(key, p, ttl, s.now)] else s.writes)
  }

  predicate Refills(s: State, key: string) {
    && !Cached(s, key) && key in s.rows && s.rows[key].status == Active
    && s.now + 1000 <= s.rows[key].expiresAt
  }

  /** On a cache miss an expired row is marked, and a live one is to be cached for the whole seconds it has left. */
  function AfterValidate(s: State, key: string): State {
    if Refills(s, key) then
      s.(writes := s.writes + [Write(key, s.rows[key].permissions, (s.rows[key].expiresAt - s.now) / 1000 * 1000, s.now)])
    else if !Cached(s, key) && key in s.rows && s.rows[key].status == Active && s.now > s.rows[key].expiresAt then
      s.(rows := s.rows[key := s.rows[key].(status := Expired)])
    else s
  }

  function AfterLand(s: State, i: nat): State
    requires i < |s.writes|
  {
    var w := s.writes[i];
    s.(cache := s.cache[w.key := CacheEntry(w.permissions, s.now + w.ttl, s.now - w.since)], writes := Without(s.writes, i))
  }

  /** Calls that throw leave the state alone, but for what they did before they were suspended. */
  function Next(s: State, step: Step): State {
    match step
    case Wait(d) => s.(now := s.now + d)
    case Create(key, p, accountActive) => if !accountActive || key in s.rows then s else AfterCreate(s, key, p)
    case Validate(key, use) => AfterValidate(s, key)
    case Land(i) => if i < |s.writes| then AfterLand(s, i) else s
    case Fail(i) => if i < |s.writes| then s.(writes := Without(s.writes, i)) else s
    case Revoke(key) =>
      if key !in s.rows then s
      else s.(rows := s.rows[key := s.rows[key].(status := Revoked)], cache := s.cache - {key})
    case Evict(key) => s.(cache := s.cache - {key})
  }

  function Run(s: State, steps: seq<Step>): State
    decreases steps
  {
    if steps == [] then s else Run(Next(s, steps[0]), steps[1..])
  }

  // ---------------------------------------------------------------- coherence

  /** Entries and writes on their way repeat the row, and outlive it by no more than their lag. */
  ghost predicate Coherent(s: State) {
    && (forall key :: key in s.cache ==>
          && key in s.rows
          && s.cache[key].permissions == s.rows[key].permissions
          && s.cache[key].expiresAt <= s.rows[key].expiresAt + s.cache[key].lag)
    && (forall i :: 0 <= i < |s.writes| ==> WriteFits(s, s.writes[i]))
  }

  /** A refill has cut off less than a second of what the row has left, a creation nothing. */
  predicate WriteFits(s: State, w: Write) {
    && w.key in s.rows && w.permissions == s.rows[w.key].permissions
    && w.ttl > 0 && w.since <= s.now && 0 <= Slack(s, w) < 1000
  }

  function Slack(s: State, w: Write): int
    requires w.key in s.rows
  {
    s.rows[w.key].expiresAt - w.since - w.ttl
  }

  lemma LandCoherent(s: State, i: nat)
    requires Coherent(s) && i < |s.writes|
    ensures Coherent(AfterLand(s, i))
  {
    assert WriteFits(s, s.writes[i]);
  }

  lemma CreateCoherent(s: State, key: string, p: Permissions)
    requires Coherent(s) && key !in s.rows
    ensures Coherent(AfterCreate(s, key, p))
  {
  }

  lemma StepCoherent(s: State, step: Step)
    requires Coherent(s)
    ensures Coherent(Next(s, step))
  {
    hide AfterLand, AfterCreate;
    if step.Land? && step.write < |s.writes| { LandCoherent(s, step.write); }
    if step.Create? && step.key !in s.rows { CreateCoherent(s, step.key, step.permissions); }
  }

  lemma {:induction false} RunCoherent(s: State, steps: seq<Step>)
    requires Coherent(s)
    ensures Coherent(Run(s, steps))
    decreases steps
  {
    hide Coherent, Next;
    if steps != [] {
      StepCoherent(s, steps[0]);
      RunCoherent(Next(s, steps[0]), steps[1..]);
    }
  }

  /** The step writes the cache entry of `key`. */
  predicate Writes(s: State, step: Step, key: string) {
    step.Land? && step.write < |s.writes| && s.writes[step.write].key == key
  }

  /** The entry is gone before the row, by the strict comparisons of both, counts as expired; and the row is active. */
  predicate InTime(s: State, key: string) {
    key in s.cache ==>
      && key in s.rows && s.cache[key].expiresAt <= s.rows[key].expiresAt + 1
      && (s.rows[key].status == Active || s.cache[key].expiresAt <= s.now)
  }

  /** The row is still active, and the write took at most a millisecond more than what rounding had cut off. */
  predicate Punctual(s: State, step: Step, key: string)
    requires Writes(s, step, key)
  {
    && key in s.rows && s.rows[key].status == Active
    && s.now - s.writes[step.write].since <= Slack(s, s.writes[step.write]) + 1
  }

  predicate PunctualRun(s: State, steps: seq<Step>, key: string)
    decreases steps
  {
    steps == [] || ((Writes(s, steps[0], key) ==> Punctual(s, steps[0], key)) && PunctualRun(Next(s, steps[0]), steps[1..], key))
  }

  /** A write is punctual exactly when it leaves an entry that is in time; nothing else can make one late. */
  lemma InTimeExactly(s: State, step: Step, key: string)
    requires Coherent(s)
    ensures Writes(s, step, key) ==> (InTime(Next(s, step), key) <==> Punctual(s, step, key))
    ensures !Writes(s, step, key) && InTime(s, key) ==> InTime(Next(s, step), key)
  {
    if Writes(s, step, key) { assert WriteFits(s, s.writes[step.write]); }
  }

  lemma {:induction false} RunInTime(s: State, steps: seq<Step>, key: string)
    requires Coherent(s) && InTime(s, key) && PunctualRun(s, steps, key)
    ensures InTime(Run(s, steps), key)
    decreases steps
  {
    hide Coherent, Next, InTime, Writes, Punctual;
    if steps != [] {
      StepCoherent(s, steps[0]);
      InTimeExactly(s, steps[0], key);
      RunInTime(Next(s, steps[0]), steps[1..], key);
    }
  }

  /** Whenever an entry of `key` is written, its row is active. */
  predicate GrantedRun(s: State, steps: seq<Step>, key: string)
    decreases steps
  {
    steps == [] ||
    ((Writes(s, steps[0], key) ==> key in s.rows && s.rows[key].status == Active) && GrantedRun(Next(s, steps[0]), steps[1..], key))
  }

  predicate Granted(s: State, key: string) {
    key in s.cache ==> key in s.rows && (s.rows[key].status == Active || s.cache[key].expiresAt <= s.now)
  }

  lemma StepGranted(s: State, step: Step, key: string)
    requires Granted(s, key) && (Writes(s, step, key) ==> key in s.rows && s.rows[key].status == Active)
    ensures Granted(Next(s, step), key)
  {
  }

  lemma {:induction false} RunGranted(s: State, steps: seq<Step>, key: string)
    requires Granted(s, key) && GrantedRun(s, steps, key)
    ensures Granted(Run(s, steps), key)
    decreases steps
  {
    hide Granted, Next, Writes;
    if steps != [] {
      StepGranted(s, steps[0], key);
      RunGranted(Next(s, steps[0]), steps[1..], key);
    }
  }

  /**
   In every reachable state, with calls interleaved in any way, refills and evictions included: a live cache entry
   has a row with the same permissions, and a valid verdict is one the row's permissions give, no later after its
   expiry than the lag of the write. If no entry was written for a row that was no longer active, the row is active.
   */
  lemma ValidMeansGranted(steps: seq<Step>, key: string, use: Use)
    ensures var s := Run(INITIAL, steps);
      && (Cached(s, key) ==> key in s.rows && s.rows[key].permissions == s.cache[key].permissions)
      && (VerdictFor(s, key, use) == Valid ==>
            && key in s.rows
            && Check(s.rows[key].permissions, use) == Valid
            && s.now <= s.rows[key].expiresAt + if Cached(s, key) then s.cache[key].lag else 0)
      && (VerdictFor(s, key, use) == Valid && GrantedRun(INITIAL, steps, key) ==> s.rows[key].status == Active)
  {
    RunCoherent(INITIAL, steps);
    if GrantedRun(INITIAL, steps, key) { RunGranted(INITIAL, steps, key); }
  }

  /** In every run whose writes of this key's entry were punctual, the verdict is that of the table alone. */
  lemma CacheIsTransparent(steps: seq<Step>, key: string, use: Use)
    requires PunctualRun(INITIAL, steps, key)
    ensures var s := Run(INITIAL, steps); VerdictFor(s, key, use) == TableVerdict(s, key, use)
  {
    RunCoherent(INITIAL, steps);
    RunInTime(INITIAL, steps, key);
  }

  /** The row's permissions forbid the use: each restriction only where it is set and the use says something about it. */
  predicate TooMuch(p: Permissions, use: Use) {
    && p.maxAmount.Some? && p.maxAmount.value != 0 && use.amount.Some? && use.amount.value > p.maxAmount.value
    && use.amount.value != 0
  }

  predicate Unlisted(list: Option<set<string>>, name: Option<string>) {
    list.Some? && name.Some? && name.value != "" && name.value !in list.value
  }

  /**
   What a key may do: in every reachable state, for a key that is cached, or active and not expired, the verdict is that
   of the first restriction of its row the use breaks (amount, programs, operations), and valid exactly when it breaks
   none; for any other key it is that of its row.
   */
  lemma VerdictExactly(steps: seq<Step>, key: string, use: Use)
    ensures var s := Run(INITIAL, steps);
      var verdict := VerdictFor(s, key, use);
      var cached := key in s.cache && s.now < s.cache[key].expiresAt;
      && (verdict == NotFound <==> key !in s.rows)
      && (key in s.rows ==>
            var row := s.rows[key];
            && (!cached && row.status != Active ==> verdict == NotActive(row.status))
            && (!cached && row.status == Active && s.now > row.expiresAt ==> verdict == JustExpired)
            && (cached || (row.status == Active && s.now <= row.expiresAt) ==>
                  var p := row.permissions;
                  && (verdict == AmountExceeded <==> TooMuch(p, use))
                  && (verdict == ProgramDenied <==> !TooMuch(p, use) && Unlisted(p.allowedPrograms, use.program))
                  && (verdict == OperationDenied <==>
                        !TooMuch(p, use) && !Unlisted(p.allowedPrograms, use.program) && Unlisted(p.allowedOperations, use.operation))
                  && (verdict == Valid <==>
                        !TooMuch(p, use) && !Unlisted(p.allowedPrograms, use.program) && !Unlisted(p.allowedOperations, use.operation))))
  {
    RunCoherent(INITIAL, steps);
  }

  /** A new key lasts for its time limit, or an hour without one; its entry on the way to Redis for just as long. */
  lemma NewKeyExpiry(s: State, key: string, p: Permissions)
    requires key !in s.rows
    ensures var t := Next(s, Create(key, p, true));
      var seconds := if p.timeLimit.None? || p.timeLimit.value == 0 then 3600 else p.timeLimit.value;
      && key in t.rows && t.rows[key] == Row(p, Active, s.now + 1000 * seconds)
      && t.writes == s.writes + if seconds > 0 then [Write(key, p, 1000 * seconds, s.now)] else []
  {
  }

  /** Cache and table give the same verdict now and at all later times until something else happens. */
  ghost predicate AgreeFromNowOn(s: State, key: string) {
    forall d: nat, use :: VerdictFor(Next(s, Wait(d)), key, use) == TableVerdict(Next(s, Wait(d)), key, use)
  }

  /**
   And only then: in every reachable state, after a write of the entry, of a creation or a refill, cache and table
   agree at all later times if and only if the write was punctual.
   */
  lemma TransparentExactlyWhenPunctual(steps: seq<Step>, step: Step, key: string)
    requires Writes(Run(INITIAL, steps), step, key)
    ensures AgreeFromNowOn(Next(Run(INITIAL, steps), step), key) <==> Punctual(Run(INITIAL, steps), step, key)
  {
    hide AgreeFromNowOn, Punctual, InTime;
    var s := Run(INITIAL, steps);
    RunCoherent(INITIAL, steps);
    StepCoherent(s, step);
    InTimeExactly(s, step, key);
    assert WriteFits(s, s.writes[step.write]);
    AgreeExactly(Next(s, step), key);
  }

  lemma AgreeExactly(s: State, key: string)
    requires Coherent(s) && Cached(s, key)
    ensures AgreeFromNowOn(s, key) <==> InTime(s, key)
  {
    if !InTime(s, key) {
      var expiry := s.rows[key].expiresAt;
      var d: nat := if s.now > expiry || s.rows[key].status != Active then 0 else expiry + 1 - s.now;
      var use := Use(None, None, None);
      var u := Next(s, Wait(d));
      assert VerdictFor(u, key, use) == Valid && TableVerdict(u, key, use) != Valid;
    }
  }

  lemma RunFour(s: State, a: Step, b: Step, c: Step, d: Step)
    ensures Run(s, [a, b, c, d]) == Next(Next(Next(Next(s, a), b), c), d)
  {
    hide Next;
    assert [a, b, c, d][1..] == [b, c, d] && [b, c, d][1..] == [c, d] && [c, d][1..] == [d] && [d][1..] == [];
    assert Run(s, [a, b, c, d]) == Run(Next(s, a), [b, c, d]);
    assert Run(Next(s, a), [b, c, d]) == Run(Next(Next(s, a), b), [c, d]);
    assert Run(Next(Next(s, a), b), [c, d]) == Run(Next(Next(Next(s, a), b), c), [d]);
  }

  /** A refill can be late although the key was created in no time: 5 seconds left, and 50 milliseconds to reach Redis. */
  lemma LateRefillOutlivesRow(key: string)
    ensures var p := Permissions(None, None, None, Some(10));
      var use := Use(None, None, None);
      var s := Run(Run(INITIAL, [Create(key, p, true), Land(0), Evict(key), Wait(5000)]),
                   [Validate(key, use), Wait(50), Land(0), Wait(4970)]);
      VerdictFor(s, key, use) == Valid && TableVerdict(s, key, use) == JustExpired
  {
    hide Run;
    var p := Permissions(None, None, None, Some(10));
    var use := Use(None, None, None);
    RunFour(INITIAL, Create(key, p, true), Land(0), Evict(key), Wait(5000));
    var s1 := Next(INITIAL, Create(key, p, true));
    assert s1.writes == [Write(key, p, 10_000, 0)] && s1.rows[key].expiresAt == 10_000;
    var s4 := Next(Next(Next(s1, Land(0)), Evict(key)), Wait(5000));
    assert s4.now == 5000 && s4.writes == [] && Refills(s4, key);
    RunFour(s4, Validate(key, use), Wait(50), Land(0), Wait(4970));
    var s5 := Next(s4, Validate(key, use));
    assert s5.writes == [Write(key, p, 5000, 5000)];
    var s8 := Next(Next(Next(s5, Wait(50)), Land(0)), Wait(4970));
    assert s8.now == 10_020 && s8.cache[key].expiresAt == 10_050;
  }

  // ---------------------------------------------------------------- revocation

  /** No write of the key's entry is on its way. */
  predicate NoWrite(s: State, key: string) {
    forall i :: 0 <= i < |s.writes| ==> s.writes[i].key != key
  }

  predicate Gone(s: State, key: string) {
    key in s.rows && s.rows[key].status == Revoked && key !in s.cache && NoWrite(s, key)
  }

  lemma StepGone(s: State, step: Step, key: string)
    requires Gone(s, key)
    ensures Gone(Next(s, step), key)
  {
  }

  lemma {:induction false} RunGone(s: State, steps: seq<Step>, key: string)
    requires Gone(s, key)
    ensures Gone(Run(s, steps), key)
    decreases steps
  {
    hide Gone, Next;
    if steps != [] {
      StepGone(s, steps[0], key);
      RunGone(Next(s, steps[0]), steps[1..], key);
    }
  }

  /** Whatever happens from here, every use of the key is refused as revoked. */
  ghost predicate RevokedForGood(s: State, key: string) {
    forall after, use :: VerdictFor(Run(s, after), key, use) == NotActive(Revoked)
  }

  /**
   In every reachable state: after a revocation the key is never found valid again, whatever happens, if and only if
   no write of its entry was on its way. One that lands later brings back what the revocation deleted.
   */
  lemma NeverValidAfterRevoke(before: seq<Step>, key: string)
    requires key in Run(INITIAL, before).rows
    ensures RevokedForGood(Next(Run(INITIAL, before), Revoke(key)), key) <==> NoWrite(Run(INITIAL, before), key)
  {
    hide Run;
    RunCoherent(INITIAL, before);
    var s := Run(INITIAL, before);
    var t := Next(s, Revoke(key));
    if NoWrite(s, key) {
      forall after, use ensures VerdictFor(Run(t, after), key, use) == NotActive(Revoked) {
        RunGone(t, after, key);
      }
    } else {
      var i :| 0 <= i < |s.writes| && s.writes[i].key == key;
      LandingRevives(s, key, i);
    }
  }

  lemma LandingRevives(s: State, key: string, i: nat)
    requires Coherent(s) && i < |s.writes| && s.writes[i].key == key
    ensures !RevokedForGood(Next(s, Revoke(key)), key)
  {
    var t := Next(s, Revoke(key));
    assert WriteFits(s, s.writes[i]);
    var use := Use(None, None, None);
    assert [Land(i)][1..] == [];
    assert Run(t, [Land(i)]) == Run(Next(t, Land(i)), []) == Next(t, Land(i));
    assert VerdictFor(Run(t, [Land(i)]), key, use) == Valid;
  }

  /** A creation suspended across the revocation of its key: the revoked key is found valid. */
  lemma RevokedFoundValid(key: string, p: Permissions)
    requires TimeLimit(p) > 0
    ensures var s := Run(INITIAL, [Create(key, p, true), Revoke(key), Wait(0), Land(0)]);
      key in s.rows && s.rows[key].status == Revoked && VerdictFor(s, key, Use(None, None, None)) == Valid
  {
    hide Run;
    RunFour(INITIAL, Create(key, p, true), Revoke(key), Wait(0), Land(0));
    var s := Next(INITIAL, Create(key, p, true));
    assert s.writes == [Write(key, p, TimeLimit(p) * 1000, 0)];
    var t := Next(Next(Next(s, Revoke(key)), Wait(0)), Land(0));
    assert t.cache[key].expiresAt == TimeLimit(p) * 1000;
  }

  // ---------------------------------------------------------------- the service

  class SessionKeyService {
    var now: int
    var rows: map<string, Row>
    var cache: map<string, CacheEntry>
    /** What every suspended call has sent to Redis. */
    var writes: seq<Write>

    ghost function Abs(): State
      reads this
    {
      State(now, rows, cache, writes)
    }

    constructor ()
      ensures Abs() == INITIAL
    {
      now, rows, cache, writes := 0, map[], map[], [];
    }

    /** Up to the write of the entry; a limit that is not positive is refused there at once, and the call throws. */
    method CreateSessionKey(sessionKeyAddress: string, permissions: Permissions, accountActive: bool)
      returns (saved: bool, awaited: Option<nat>)
      modifies this`rows, this`writes
      ensures Abs() == Next(old(Abs()), Create(sessionKeyAddress, permissions, accountActive))
      ensures saved <==> accountActive && sessionKeyAddress !in old(rows)
      ensures awaited.Some? <==> saved && TimeLimit(permissions) > 0
      ensures awaited.Some? ==> awaited.value < |writes| && Writes(Abs(), Land(awaited.value), sessionKeyAddress)
      ensures var seconds := if permissions.timeLimit.None? || permissions.timeLimit.value == 0 then 3600 else permissions.timeLimit.value;
        && rows == (if saved then old(rows)[sessionKeyAddress := Row(permissions, Active, now + 1000 * seconds)] else old(rows))
        && writes == old(writes) + if saved && seconds > 0 then [Write(sessionKeyAddress, permissions, 1000 * seconds, now)] else []
    {
      if !accountActive {
        return false, None;
      }
      var limit := TimeLimit(permissions);
      var expiresAt := now + limit * 1000;
      if sessionKeyAddress in rows {
        return false, None;
      }
      rows := rows[sessionKeyAddress := Row(permissions, Active, expiresAt)];
      if limit <= 0 {
        return true, None;
      }
      writes := writes + [Write(sessionKeyAddress, permissions, limit * 1000, now)];
      return true, Some(|writes| - 1);
    }

    /** Up to the refill, if there is one; the verdict is returned after it. */
    method ValidateSessionKey(sessionKeyAddress: string, use: Use) returns (verdict: Verdict, awaited: Option<nat>)
      modifies this`rows, this`writes
      ensures verdict == VerdictFor(old(Abs()), sessionKeyAddress, use)
      ensures Abs() == Next(old(Abs()), Validate(sessionKeyAddress, use))
      ensures awaited.Some? <==> Refills(old(Abs()), sessionKeyAddress)
      ensures awaited.Some? ==> awaited.value < |writes| && Writes(Abs(), Land(awaited.value), sessionKeyAddress)
      ensures rows == if verdict == JustExpired && sessionKeyAddress in old(rows)
                        then old(rows)[sessionKeyAddress := old(rows)[sessionKeyAddress].(status := Expired)] else old(rows)
      ensures var cached := sessionKeyAddress in cache && now < cache[sessionKeyAddress].expiresAt;
        if !cached && sessionKeyAddress in rows && rows[sessionKeyAddress].status == Active && rows[sessionKeyAddress].expiresAt - now >= 1000
        then
          && |writes| == |old(writes)| + 1
          && var row, w := rows[sessionKeyAddress], writes[|old(writes)|];
             && writes == old(writes) + [w] && w.key == sessionKeyAddress && w.permissions == row.permissions && w.since == now
             && w.ttl % 1000 == 0 && w.ttl <= row.expiresAt - now < w.ttl + 1000
        else writes == old(writes)
    {
      var permissions: Permissions;
      awaited := None;
      if sessionKeyAddress in cache && now < cache[sessionKeyAddress].expiresAt {
        permissions := cache[sessionKeyAddress].permissions;
      } else {
        if sessionKeyAddress !in rows {
          return NotFound, None;
        }
        var sessionKey := rows[sessionKeyAddress];
        if sessionKey.status != Active {
          return NotActive(sessionKey.status), None;
        }
        if now > sessionKey.expiresAt {
          rows := rows[sessionKeyAddress := sessionKey.(status := Expired)];
          return JustExpired, None;
        }
        permissions := sessionKey.permissions;
        var ttl := (sessionKey.expiresAt - now) / 1000;
        if ttl != 0 {
          writes := writes + [Write(sessionKeyAddress, permissions, ttl * 1000, now)];
          awaited := Some(|writes| - 1);
        }
      }
      verdict := Check(permissions, use);
    }

    /** A suspended call resumes: Redis has taken its entry. */
    method OnWritten(i: nat)
      requires i < |writes|
      modifies this`cache, this`writes
      ensures Abs() == Next(old(Abs()), Land(i))
      ensures var w := old(writes)[i];
        && cache == old(cache)[w.key := CacheEntry(w.permissions, now + w.ttl, now - w.since)]
        && writes == old(writes)[..i] + old(writes)[i + 1..]
    {
      var w := writes[i];
      cache := cache[w.key := CacheEntry(w.permissions, now + w.ttl, now - w.since)];
      writes := writes[..i] + writes[i + 1..];
    }

    /** A suspended call resumes because Redis failed, and throws. */
    method OnWriteFailed(i: nat)
      requires i < |writes|
      modifies this`writes
      ensures Abs() == Next(old(Abs()), Fail(i)) && writes == old(writes)[..i] + old(writes)[i + 1..]
    {
      writes := writes[..i] + writes[i + 1..];
    }

    method RevokeSessionKey(sessionKeyAddress: string) returns (found: bool)
      modifies this
      ensures Abs() == Next(old(Abs()), Revoke(sessionKeyAddress))
      ensures found <==> sessionKeyAddress in old(rows)
      ensures rows == if found then old(rows)[sessionKeyAddress := old(rows)[sessionKeyAddress].(status := Revoked)] else old(rows)
      ensures cache == if found then old(cache) - {sessionKeyAddress} else old(cache)
      ensures now == old(now) && writes == old(writes)
    {
      if sessionKeyAddress !in rows {
        return false;
      }
      rows := rows[sessionKeyAddress := rows[sessionKeyAddress].(status := Revoked)];
      cache := cache - {sessionKeyAddress};
      return true;
    }
  }
}
