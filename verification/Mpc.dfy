/** Sorting strings, for the canonical order in which signature shares are joined. */
module Sorting {

  /** The order of character codes. */
  predicate AtMost(a: string, b: string) {
    a == [] || (b != [] && (a[0] < b[0] || (a[0] == b[0] && AtMost(a[1..], b[1..]))))
  }

  lemma {:induction false} Total(a: string, b: string)
    ensures AtMost(a, b) || AtMost(b, a)
  {
    if a != [] && b != [] && a[0] == b[0] { Total(a[1..], b[1..]); }
  }

  lemma {:induction false} Antisymmetric(a: string, b: string)
    requires AtMost(a, b) && AtMost(b, a)
    ensures a == b
  {
    if a != [] {
      Antisymmetric(a[1..], b[1..]);
      assert a == [a[0]] + a[1..] && b == [b[0]] + b[1..];
    }
  }

  lemma {:induction false} Transitive(a: string, b: string, c: string)
    requires AtMost(a, b) && AtMost(b, c)
    ensures AtMost(a, c)
  {
    if a != [] && a[0] == b[0] == c[0] { Transitive(a[1..], b[1..], c[1..]); }
  }

  predicate IsSorted(xs: seq<string>) {
    forall i, j :: 0 <= i < j < |xs| ==> AtMost(xs[i], xs[j])
  }

  function Insert(x: string, xs: seq<string>): (r: seq<string>)
    ensures multiset(r) == multiset(xs) + multiset{x}
  {
    if xs == [] || AtMost(x, xs[0]) then [x] + xs
    else
      assert xs == [xs[0]] + xs[1..];
      [xs[0]] + Insert(x, xs[1..])
  }

  function Sort(xs: seq<string>): (r: seq<string>)
    ensures multiset(r) == multiset(xs)
  {
    if xs == [] then []
    else
      assert xs == [xs[0]] + xs[1..];
      Insert(xs[0], Sort(xs[1..]))
  }

  lemma {:induction false} InsertSorted(x: string, xs: seq<string>)
    requires IsSorted(xs)
    ensures IsSorted(Insert(x, xs))
  {
    hide AtMost;
    if xs == [] {
    } else if AtMost(x, xs[0]) {
      forall j | 0 <= j < |xs| ensures AtMost(x, xs[j]) {
        if j > 0 { Transitive(x, xs[0], xs[j]); }
      }
    } else {
      Total(x, xs[0]);
      InsertSorted(x, xs[1..]);
      var rest := Insert(x, xs[1..]);
      forall j | 0 <= j < |rest| ensures AtMost(xs[0], rest[j]) {
        assert rest[j] in multiset(rest);
        if rest[j] != x {
          var k :| 0 <= k < |xs[1..]| && xs[1..][k] == rest[j];
          assert xs[k + 1] == rest[j];
        }
      }
    }
  }

  lemma {:induction false} SortSorts(xs: seq<string>)
    ensures IsSorted(Sort(xs))
  {
    if xs != [] {
      SortSorts(xs[1..]);
      InsertSorted(xs[0], Sort(xs[1..]));
    }
  }

  lemma MultisetAround<T>(front: seq<T>, x: T, back: seq<T>)
    ensures multiset(front + [x] + back) == multiset(front + back) + multiset{x}
  {
  }

  lemma TailMultiset(xs: seq<string>)
    requires xs != []
    ensures multiset(xs[1..]) == multiset(xs) - multiset{xs[0]}
  {
    assert xs == [xs[0]] + xs[1..];
  }

  /** There is only one way to sort. */
  lemma {:induction false} SortedUnique(xs: seq<string>, ys: seq<string>)
    requires IsSorted(xs) && IsSorted(ys) && multiset(xs) == multiset(ys)
    ensures xs == ys
    decreases xs
  {
    hide AtMost;
    assert |xs| == |multiset(xs)| == |multiset(ys)| == |ys|;
    if xs != [] {
      assert xs[0] in multiset(ys);
      assert ys[0] in multiset(xs) by { assert ys[0] in multiset(ys); }
      HeadIsLeast(xs, ys[0]);
      HeadIsLeast(ys, xs[0]);
      Antisymmetric(xs[0], ys[0]);
      TailMultiset(xs);
      TailMultiset(ys);
      SortedUnique(xs[1..], ys[1..]);
      assert xs == [xs[0]] + xs[1..] && ys == [ys[0]] + ys[1..];
    }
  }

  lemma HeadIsLeast(xs: seq<string>, x: string)
    requires IsSorted(xs) && x in multiset(xs)
    ensures AtMost(xs[0], x)
  {
    hide AtMost;
    var k :| 0 <= k < |xs| && xs[k] == x;
    if k == 0 { Total(x, x); }
  }

  /** Sorting forgets the order and nothing else. */
  lemma SortIsCanonical(xs: seq<string>, ys: seq<string>)
    ensures Sort(xs) == Sort(ys) <==> multiset(xs) == multiset(ys)
  {
    SortSorts(xs);
    SortSorts(ys);
    if multiset(xs) == multiset(ys) { SortedUnique(Sort(xs), Sort(ys)); }
  }
}

/**
 Threshold wallets: signing with the shares of enough participants, and revoking shares. The hash that makes
 the signature, and whether saving a wallet also writes back the shares it was loaded with, are parameters:
 the entity declares the latter with its cascade option.
 */
module Mpc {
  import opened Options
  import opened Sorting

  const MIN_SIGNATURE_SHARE: nat := 10

  datatype Env = Env(hash: string -> string, cascade: bool)

  datatype Scheme = TwoOfThree | ThreeOfFive | FourOfSeven

  datatype Share = Share(participant: string, active: bool, lastUsed: Option<int>)

  datatype WalletStatus = Active | Recovering

  /** Shares are in the order of their index. */
  datatype Wallet = Wallet(totalShares: nat, threshold: nat, status: WalletStatus, shares: seq<Share>)

  datatype Partial = Partial(participant: string, signature: string)

  /** A partial signature together with the index of the share it belongs to. */
  datatype Valid = Valid(partial: Partial, share: nat)

  datatype Outcome = Signed(signature: string, used: nat) | NotFound | NotActive | TooFewShares | TooFewValidShares

  /** A successful signing: history. */
  datatype Receipt = Receipt(wallet: string, used: nat)

  datatype State = State(wallets: map<string, Wallet>, receipts: seq<Receipt>)

  datatype Step =
    | CreateWallet(id: string, scheme: Scheme, participants: seq<string>)
    | SignTransaction(id: string, data: string, partials: seq<Partial>, now: int)
    | RevokeKeyShare(id: string, participant: string, index: nat)

  const INITIAL: State := State(map[], [])

  function TotalShares(scheme: Scheme): nat {
    match scheme
    case TwoOfThree => 3
    case ThreeOfFive => 5
    case FourOfSeven => 7
  }

  function Threshold(scheme: Scheme): nat {
    match scheme
    case TwoOfThree => 2
    case ThreeOfFive => 3
    case FourOfSeven => 4
  }

  predicate Distinct<T(==)>(xs: seq<T>) {
    forall i, j :: 0 <= i < j < |xs| ==> xs[i] != xs[j]
  }

  function NewShares(participants: seq<string>): (r: seq<Share>)
    ensures |r| == |participants|
    ensures forall i :: 0 <= i < |r| ==> r[i] == Share(participants[i], true, None)
  {
    seq(|participants|, i requires 0 <= i < |participants| => Share(participants[i], true, None))
  }

  /**
   The wallet is saved before its shares. Two shares of one participant violate the unique index on wallet and
   participant; then the call throws, but the wallet stays, active and without shares.
   */
  function NewWallet(scheme: Scheme, participants: seq<string>): Wallet {
    Wallet(TotalShares(scheme), Threshold(scheme), Active, if Distinct(participants) then NewShares(participants) else [])
  }

  function ActiveCount(shares: seq<Share>): nat {
    if shares == [] then 0
    else ActiveCount(shares[..|shares| - 1]) + if shares[|shares| - 1].active then 1 else 0
  }

  predicate CanSign(w: Wallet) {
    ActiveCount(w.shares) >= w.threshold
  }

  /** The first active share of a participant. */
  function FindActive(shares: seq<Share>, participant: string): (r: Option<nat>)
    ensures r.Some? ==> r.value < |shares| && shares[r.value].participant == participant && shares[r.value].active
    ensures r.None? ==> forall i :: 0 <= i < |shares| ==> !(shares[i].participant == participant && shares[i].active)
  {
    if shares == [] then None
    else
      var n := |shares| - 1;
      var earlier := FindActive(shares[..n], participant);
      if earlier.Some? then earlier
      else if shares[n].participant == participant && shares[n].active then Some(n)
      else
        assert forall i :: 0 <= i < n ==> shares[i] == shares[..n][i];
        None
  }

  predicate WellFormed(signature: string) {
    |signature| >= MIN_SIGNATURE_SHARE
  }

  function Usable(shares: seq<Share>, p: Partial): Option<nat> {
    if WellFormed(p.signature) then FindActive(shares, p.participant) else None
  }

  /** The partial signatures that count, in the order they were sent. */
  function ValidOf(shares: seq<Share>, partials: seq<Partial>): (r: seq<Valid>)
    ensures |r| <= |partials|
  {
    if partials == [] then []
    else
      var p := partials[|partials| - 1];
      var earlier := ValidOf(shares, partials[..|partials| - 1]);
      if Usable(shares, p).Some? then earlier + [Valid(p, Usable(shares, p).value)] else earlier
  }

  function Signatures(valid: seq<Valid>): (r: seq<string>)
    ensures |r| == |valid|
  {
    if valid == [] then [] else Signatures(valid[..|valid| - 1]) + [valid[|valid| - 1].partial.signature]
  }

  function Join(xs: seq<string>): string {
    if xs == [] then "" else xs[0] + Join(xs[1..])
  }

  function Combined(env: Env, data: string, valid: seq<Valid>): string {
    env.hash(Join(Sort(Signatures(valid))) + data)
  }

  function MarkUsed(shares: seq<Share>, valid: seq<Valid>, now: int): (r: seq<Share>)
    ensures |r| == |shares|
    ensures forall i :: 0 <= i < |shares| ==> r[i].participant == shares[i].participant && r[i].active == shares[i].active
  {
    if valid == [] then shares
    else
      var rest := MarkUsed(shares, valid[..|valid| - 1], now);
      var k := valid[|valid| - 1].share;
      if k < |rest| then rest[k := rest[k].(lastUsed := Some(now))] else rest
  }

  function OutcomeFor(env: Env, w: Wallet, data: string, partials: seq<Partial>): Outcome {
    if w.status != Active then NotActive
    else if |partials| < w.threshold then TooFewShares
    else
      var valid := ValidOf(w.shares, partials);
      if |valid| < w.threshold then TooFewValidShares
      else Signed(Combined(env, data, valid), |valid|)
  }

  function OutcomeOf(env: Env, s: State, id: string, data: string, partials: seq<Partial>): Outcome {
    if id in s.wallets then OutcomeFor(env, s.wallets[id], data, partials) else NotFound
  }

  function AfterSign(env: Env, s: State, id: string, data: string, partials: seq<Partial>, now: int): State {
    var o := OutcomeOf(env, s, id, data, partials);
    if o.Signed? then
      var w := s.wallets[id];
      State(s.wallets[id := w.(shares := MarkUsed(w.shares, ValidOf(w.shares, partials), now))], s.receipts + [Receipt(id, o.used)])
    else s
  }

  predicate Revocable(w: Wallet, participant: string, index: nat) {
    index < |w.shares| && w.shares[index].participant == participant && w.shares[index].active
  }

  function Revoked(shares: seq<Share>, i: nat): seq<Share>
    requires i < |shares|
  {
    shares[i := shares[i].(active := false)]
  }

  /** Saving the wallet with cascade writes the share back as it was when the wallet was loaded. */
  function AfterRevoke(env: Env, w: Wallet, index: nat): Wallet
    requires index < |w.shares|
  {
    if ActiveCount(w.shares) - 1 < w.threshold
      then w.(status := Recovering, shares := if env.cascade then w.shares else Revoked(w.shares, index))
      else w.(shares := Revoked(w.shares, index))
  }

  function Next(env: Env, s: State, step: Step): State {
    match step
    case CreateWallet(id, scheme, participants) =>
      if id !in s.wallets && |participants| == TotalShares(scheme)
        then s.(wallets := s.wallets[id := NewWallet(scheme, participants)])
        else s
    case SignTransaction(id, data, partials, now) => AfterSign(env, s, id, data, partials, now)
    case RevokeKeyShare(id, participant, index) =>
      if id in s.wallets && Revocable(s.wallets[id], participant, index)
        then s.(wallets := s.wallets[id := AfterRevoke(env, s.wallets[id], index)])
        else s
  }

  function Run(env: Env, s: State, steps: seq<Step>): State
    decreases steps
  {
    if steps == [] then s else Run(env, Next(env, s, steps[0]), steps[1..])
  }

  // ---------------------------------------------------------------- status and shares

  lemma {:induction false} RevokedCount(shares: seq<Share>, i: nat)
    requires i < |shares| && shares[i].active
    ensures ActiveCount(Revoked(shares, i)) == ActiveCount(shares) - 1
  {
    var n := |shares| - 1;
    if i == n {
      assert Revoked(shares, i)[..n] == shares[..n];
    } else {
      RevokedCount(shares[..n], i);
      assert Revoked(shares, i)[..n] == Revoked(shares[..n], i);
    }
  }

  lemma {:induction false} SameCount(a: seq<Share>, b: seq<Share>)
    requires |a| == |b| && forall i :: 0 <= i < |a| ==> a[i].active == b[i].active
    ensures ActiveCount(a) == ActiveCount(b)
  {
    if a != [] {
      SameCount(a[..|a| - 1], b[..|b| - 1]);
    }
  }

  lemma {:induction false} AllActive(shares: seq<Share>)
    requires forall i :: 0 <= i < |shares| ==> shares[i].active
    ensures ActiveCount(shares) == |shares|
  {
    if shares != [] {
      AllActive(shares[..|shares| - 1]);
    }
  }

  predicate DistinctOwners(shares: seq<Share>) {
    forall i, j :: 0 <= i < j < |shares| ==> shares[i].participant != shares[j].participant
  }

  /** How the status of a wallet with shares goes with the number of its active shares. */
  predicate StatusFits(env: Env, w: Wallet) {
    if w.status == Active then CanSign(w)
    else if env.cascade then ActiveCount(w.shares) == w.threshold
    else !CanSign(w)
  }

  predicate Sound(env: Env, w: Wallet) {
    && 2 <= w.threshold <= w.totalShares
    && DistinctOwners(w.shares)
    && (if w.shares == [] then w.status == Active else |w.shares| == w.totalShares && StatusFits(env, w))
  }

  ghost predicate AllSound(env: Env, s: State) {
    && (forall id :: id in s.wallets ==> Sound(env, s.wallets[id]))
    && (forall k :: 0 <= k < |s.receipts| ==>
          s.receipts[k].wallet in s.wallets && s.receipts[k].used >= s.wallets[s.receipts[k].wallet].threshold)
  }

  lemma NewWalletSound(env: Env, scheme: Scheme, participants: seq<string>)
    requires |participants| == TotalShares(scheme)
    ensures Sound(env, NewWallet(scheme, participants))
  {
    hide ActiveCount;
    AllActive(NewShares(participants));
  }

  lemma RevokeSound(env: Env, w: Wallet, index: nat)
    requires Sound(env, w) && index < |w.shares| && w.shares[index].active
    ensures Sound(env, AfterRevoke(env, w, index))
  {
    hide ActiveCount;
    RevokedCount(w.shares, index);
  }

  lemma MarkSound(env: Env, w: Wallet, valid: seq<Valid>, now: int)
    requires Sound(env, w)
    ensures Sound(env, w.(shares := MarkUsed(w.shares, valid, now)))
  {
    hide ActiveCount, MarkUsed;
    SameCount(w.shares, MarkUsed(w.shares, valid, now));
  }

  lemma StepSound(env: Env, s: State, step: Step)
    requires AllSound(env, s)
    ensures AllSound(env, Next(env, s, step))
  {
    hide Sound, MarkUsed, ValidOf, Combined, NewWallet;
    match step
    case CreateWallet(id, scheme, participants) =>
      if |participants| == TotalShares(scheme) { NewWalletSound(env, scheme, participants); }
    case SignTransaction(id, data, partials, now) =>
      if id in s.wallets { MarkSound(env, s.wallets[id], ValidOf(s.wallets[id].shares, partials), now); }
    case RevokeKeyShare(id, participant, index) =>
      if id in s.wallets && Revocable(s.wallets[id], participant, index) { RevokeSound(env, s.wallets[id], index); }
  }

  lemma {:induction false} RunSound(env: Env, s: State, steps: seq<Step>)
    requires AllSound(env, s)
    ensures AllSound(env, Run(env, s, steps))
    decreases steps
  {
    hide AllSound, Next;
    if steps != [] {
      StepSound(env, s, steps[0]);
      RunSound(env, Next(env, s, steps[0]), steps[1..]);
    }
  }

  /**
   In every reachable state, for a wallet that has its shares: without write-back it is active exactly when at
   least `threshold` shares are active; with write-back active still implies that, and a wallet that is not
   active has exactly `threshold` active shares. A wallet left without shares is always active and cannot sign.
   */
  lemma StatusTellsActiveShares(env: Env, steps: seq<Step>, id: string)
    requires id in Run(env, INITIAL, steps).wallets
    ensures var w := Run(env, INITIAL, steps).wallets[id];
      && (w.shares != [] && !env.cascade ==> (w.status == Active <==> CanSign(w)))
      && (w.shares != [] && env.cascade ==> CanSign(w) && (w.status != Active ==> ActiveCount(w.shares) == w.threshold))
      && (w.shares == [] ==> w.status == Active && !CanSign(w))
  {
    RunSound(env, INITIAL, steps);
  }

  ghost predicate StatusExact(env: Env) {
    forall steps, id :: id in Run(env, INITIAL, steps).wallets ==>
      var w := Run(env, INITIAL, steps).wallets[id];
      w.shares != [] ==> (w.status == Active <==> CanSign(w))
  }

  /** Active means able to sign, in every reachable state of every wallet with shares, exactly when saves do not cascade. */
  lemma StatusExactWithoutCascade(env: Env)
    ensures StatusExact(env) <==> !env.cascade
  {
    if !env.cascade {
      forall steps, id | id in Run(env, INITIAL, steps).wallets
        ensures var w := Run(env, INITIAL, steps).wallets[id]; w.shares != [] ==> (w.status == Active <==> CanSign(w))
      {
        StatusTellsActiveShares(env, steps, id);
      }
    } else {
      RecoveringThatCanSign(env, "w", "a", "b", "c");
      assert "w" in Run(env, INITIAL, TwoRevocations("w", "a", "b", "c")).wallets;
    }
  }

  function TwoRevocations(id: string, a: string, b: string, c: string): seq<Step> {
    [CreateWallet(id, TwoOfThree, [a, b, c]), RevokeKeyShare(id, a, 0), RevokeKeyShare(id, b, 1)]
  }

  /** With cascade, revoking two shares of a 2-of-3 wallet leaves it recovering with two active shares. */
  lemma RecoveringThatCanSign(env: Env, id: string, a: string, b: string, c: string)
    requires env.cascade && Distinct([a, b, c])
    ensures var s := Run(env, INITIAL, TwoRevocations(id, a, b, c));
      && id in s.wallets && s.wallets[id].status == Recovering && CanSign(s.wallets[id])
      && s.wallets[id].shares == [Share(a, false, None), Share(b, true, None), Share(c, true, None)]
  {
    hide ActiveCount;
    var steps := TwoRevocations(id, a, b, c);
    var s1 := Next(env, INITIAL, steps[0]);
    AllActive(NewShares([a, b, c]));
    assert s1.wallets[id].shares == [Share(a, true, None), Share(b, true, None), Share(c, true, None)];
    RevokedCount(s1.wallets[id].shares, 0);
    var s2 := Next(env, s1, steps[1]);
    assert s2.wallets[id].shares == [Share(a, false, None), Share(b, true, None), Share(c, true, None)];
    var s3 := Next(env, s2, steps[2]);
    RunThree(env, INITIAL, steps[0], steps[1], steps[2]);
  }

  lemma RunThree(env: Env, s: State, a: Step, b: Step, c: Step)
    ensures Run(env, s, [a, b, c]) == Next(env, Next(env, Next(env, s, a), b), c)
  {
    hide Next;
    assert [a, b, c][1..] == [b, c] && [b, c][1..] == [c] && [c][1..] == [];
    assert Run(env, Next(env, s, a), [b, c]) == Run(env, Next(env, Next(env, s, a), b), [c]);
    assert Run(env, Next(env, Next(env, s, a), b), [c]) == Run(env, Next(env, Next(env, Next(env, s, a), b), c), []);
  }

  /** A share stays revoked exactly when enough shares are left, or the wallet is saved without its shares. */
  lemma RevocationSticks(env: Env, w: Wallet, participant: string, index: nat)
    requires Sound(env, w) && Revocable(w, participant, index)
    ensures !AfterRevoke(env, w, index).shares[index].active <==> !env.cascade || ActiveCount(w.shares) > w.threshold
  {
  }

  // ---------------------------------------------------------------- after the threshold is lost

  lemma ClosedStep(env: Env, s: State, step: Step, id: string)
    requires id in s.wallets && s.wallets[id].status == Recovering
    ensures var t := Next(env, s, step);
      && id in t.wallets && t.wallets[id].status == Recovering
      && ReceiptsOf(t.receipts, id) == ReceiptsOf(s.receipts, id)
  {
  }

  function ReceiptsOf(receipts: seq<Receipt>, id: string): nat {
    if receipts == [] then 0
    else ReceiptsOf(receipts[..|receipts| - 1], id) + if receipts[|receipts| - 1].wallet == id then 1 else 0
  }

  /** Once a wallet has lost its quorum nothing is ever signed with it again, write-back or not. */
  lemma {:induction false} NeverSignsAgain(env: Env, s: State, steps: seq<Step>, id: string)
    requires id in s.wallets && s.wallets[id].status == Recovering
    ensures var t := Run(env, s, steps);
      && id in t.wallets && t.wallets[id].status == Recovering
      && ReceiptsOf(t.receipts, id) == ReceiptsOf(s.receipts, id)
    decreases steps
  {
    hide Next, ReceiptsOf;
    if steps != [] {
      ClosedStep(env, s, steps[0], id);
      NeverSignsAgain(env, Next(env, s, steps[0]), steps[1..], id);
    }
  }

  /**
   In every reachable state, whether saves cascade or not: after revoking an active share the wallet is active if and only
   if it had more than `threshold` active shares before; and if it is not, nothing is ever signed with it again.
   */
  lemma RevokingBelowThresholdCloses(env: Env, before: seq<Step>, id: string, participant: string, index: nat, after: seq<Step>)
    requires var s := Run(env, INITIAL, before); id in s.wallets && Revocable(s.wallets[id], participant, index)
    ensures var s := Run(env, INITIAL, before);
      var r := Next(env, s, RevokeKeyShare(id, participant, index));
      var t := Run(env, r, after);
      && id in r.wallets
      && (r.wallets[id].status == Active <==> ActiveCount(s.wallets[id].shares) > s.wallets[id].threshold)
      && (r.wallets[id].status != Active ==>
            id in t.wallets && t.wallets[id].status == Recovering && ReceiptsOf(t.receipts, id) == ReceiptsOf(s.receipts, id))
  {
    hide ActiveCount, ReceiptsOf;
    RunSound(env, INITIAL, before);
    var s := Run(env, INITIAL, before);
    assert Sound(env, s.wallets[id]);
    var r := Next(env, s, RevokeKeyShare(id, participant, index));
    if r.wallets[id].status != Active { NeverSignsAgain(env, r, after, id); }
  }

  // ---------------------------------------------------------------- who signed

  /** Counted partial signatures are well formed and from owners of active shares; none of those is left out. */
  lemma {:induction false} ValidMeans(shares: seq<Share>, partials: seq<Partial>)
    ensures forall v :: v in ValidOf(shares, partials) ==>
      v.partial in partials && WellFormed(v.partial.signature) && v.share < |shares|
      && shares[v.share].active && shares[v.share].participant == v.partial.participant
    ensures forall p :: p in partials && Usable(shares, p).Some? ==> Valid(p, Usable(shares, p).value) in ValidOf(shares, partials)
  {
    if partials != [] {
      var n := |partials| - 1;
      ValidMeans(shares, partials[..n]);
      assert forall p :: p in partials ==> p in partials[..n] || p == partials[n];
      assert forall p :: p in partials[..n] ==> p in partials;
    }
  }

  function ParticipantsOf(valid: seq<Valid>): set<string> {
    set v | v in valid :: v.partial.participant
  }

  predicate DistinctSenders(partials: seq<Partial>) {
    forall i, j :: 0 <= i < j < |partials| ==> partials[i].participant != partials[j].participant
  }

  lemma NoParticipants()
    ensures ParticipantsOf([]) == {}
  {
  }

  lemma LastSenderIsNew(shares: seq<Share>, partials: seq<Partial>)
    requires DistinctSenders(partials) && partials != []
    ensures partials[|partials| - 1].participant !in ParticipantsOf(ValidOf(shares, partials[..|partials| - 1]))
  {
    hide Usable, ValidOf, FindActive;
    var n := |partials| - 1;
    ValidMeans(shares, partials[..n]);
    forall u | u in ValidOf(shares, partials[..n]) ensures u.partial.participant != partials[n].participant {
      var k :| 0 <= k < n && partials[..n][k] == u.partial;
      assert partials[k].participant == u.partial.participant;
    }
  }

  lemma {:induction false} SendersCounted(shares: seq<Share>, partials: seq<Partial>)
    requires DistinctSenders(partials)
    ensures |ParticipantsOf(ValidOf(shares, partials))| == |ValidOf(shares, partials)|
  {
    hide Usable, WellFormed, ParticipantsOf;
    if partials == [] {
      NoParticipants();
    } else {
      var n := |partials| - 1;
      SendersCounted(shares, partials[..n]);
      var p := partials[n];
      var earlier := ValidOf(shares, partials[..n]);
      if Usable(shares, p).Some? {
        var v := Valid(p, Usable(shares, p).value);
        assert ValidOf(shares, partials) == earlier + [v];
        ParticipantsGrow(earlier, v);
        LastSenderIsNew(shares, partials);
      }
    }
  }

  lemma ParticipantsGrow(valid: seq<Valid>, v: Valid)
    ensures ParticipantsOf(valid + [v]) == ParticipantsOf(valid) + {v.partial.participant}
  {
  }

  /** The participant owns an active share and sent a well-formed partial signature. */
  predicate TakesPart(shares: seq<Share>, partials: seq<Partial>, participant: string) {
    && (exists i :: 0 <= i < |shares| && shares[i].participant == participant && shares[i].active)
    && (exists k :: 0 <= k < |partials| && partials[k].participant == participant && |partials[k].signature| >= 10)
  }

  lemma ParticipantsTakePart(shares: seq<Share>, partials: seq<Partial>, participant: string)
    ensures participant in ParticipantsOf(ValidOf(shares, partials)) <==> TakesPart(shares, partials, participant)
  {
    hide ValidOf, FindActive;
    ValidMeans(shares, partials);
    if participant in ParticipantsOf(ValidOf(shares, partials)) {
      var v :| v in ValidOf(shares, partials) && v.partial.participant == participant;
      assert shares[v.share].participant == participant && shares[v.share].active;
      var k :| 0 <= k < |partials| && partials[k] == v.partial;
    }
    if TakesPart(shares, partials, participant) {
      var k :| 0 <= k < |partials| && partials[k].participant == participant && WellFormed(partials[k].signature);
      assert partials[k] in partials && Usable(shares, partials[k]).Some?;
      assert Valid(partials[k], Usable(shares, partials[k]).value) in ValidOf(shares, partials);
    }
  }

  /**
   Partial signatures of different participants sign exactly when the wallet is active and at least `threshold`
   participants take part, and the reported number is the number of those.
   */
  lemma QuorumOfParticipants(env: Env, w: Wallet, data: string, partials: seq<Partial>, who: set<string>)
    requires DistinctSenders(partials)
    requires forall p :: p in who <==> TakesPart(w.shares, partials, p)
    ensures var o := OutcomeFor(env, w, data, partials);
      && (o.Signed? <==> w.status == Active && |who| >= w.threshold)
      && (o.Signed? ==> o.used == |who|)
  {
    hide Combined, ValidOf, TakesPart, ParticipantsOf;
    SendersCounted(w.shares, partials);
    forall p ensures p in who <==> p in ParticipantsOf(ValidOf(w.shares, partials)) {
      ParticipantsTakePart(w.shares, partials, p);
    }
    assert who == ParticipantsOf(ValidOf(w.shares, partials));
  }

  /** One participant of a 2-of-3 wallet, named twice. */
  lemma RepeatedParticipantCounts(env: Env, data: string, a: string, b: string, c: string)
    requires Distinct([a, b, c])
    ensures var w := NewWallet(TwoOfThree, [a, b, c]);
      var p := Partial(a, "0123456789");
      && OutcomeFor(env, w, data, [p, p]).Signed?
      && ParticipantsOf(ValidOf(w.shares, [p, p])) == {a}
  {
    hide Combined, FindActive;
    var w := NewWallet(TwoOfThree, [a, b, c]);
    var p := Partial(a, "0123456789");
    assert w.shares[0] == Share(a, true, None);
    assert Usable(w.shares, p).Some?;
    var v := Valid(p, Usable(w.shares, p).value);
    assert [p, p][..1] == [p] && [p][..0] == [];
    assert ValidOf(w.shares, []) == [];
    assert ValidOf(w.shares, [p]) == [] + [v];
    assert ValidOf(w.shares, [p, p]) == [v] + [v];
    ParticipantsGrow([], v);
    ParticipantsGrow([v], v);
  }

  lemma {:induction false} ParticipantsAtMost(valid: seq<Valid>)
    ensures |ParticipantsOf(valid)| <= |valid|
  {
    hide ParticipantsOf;
    if valid == [] {
      NoParticipants();
    } else {
      var n := |valid| - 1;
      ParticipantsAtMost(valid[..n]);
      ParticipantsGrow(valid[..n], valid[n]);
      assert valid == valid[..n] + [valid[n]];
    }
  }

  /**
   When the quorum of participants is not what decides: for every wallet and request, it is signed if and only if the
   wallet is active and at least `threshold` participants take part, except exactly when fewer take part and
   repetitions make up for them.
   */
  lemma ShortQuorumExactly(env: Env, w: Wallet, data: string, partials: seq<Partial>, who: set<string>)
    requires forall p :: p in who <==> TakesPart(w.shares, partials, p)
    ensures (OutcomeFor(env, w, data, partials).Signed? <==> w.status == Active && |who| >= w.threshold)
       <==> !(w.status == Active && |who| < w.threshold <= |ValidOf(w.shares, partials)|)
  {
    hide Combined, ValidOf, TakesPart, ParticipantsOf;
    var valid := ValidOf(w.shares, partials);
    forall p ensures p in who <==> p in ParticipantsOf(valid) {
      ParticipantsTakePart(w.shares, partials, p);
    }
    assert who == ParticipantsOf(valid);
    ParticipantsAtMost(valid);
  }

  predicate OnlyFrom(partials: seq<Partial>, participant: string) {
    forall p :: p in partials ==> p.participant == participant
  }

  predicate Owns(shares: seq<Share>, participant: string) {
    exists i :: 0 <= i < |shares| && shares[i].participant == participant && shares[i].active
  }

  ghost predicate SignsAlone(env: Env, w: Wallet, data: string, participant: string) {
    exists partials :: OnlyFrom(partials, participant) && OutcomeFor(env, w, data, partials).Signed?
  }

  lemma {:induction false} AllUsable(shares: seq<Share>, partials: seq<Partial>)
    requires forall p :: p in partials ==> Usable(shares, p).Some?
    ensures |ValidOf(shares, partials)| == |partials|
  {
    hide Usable;
    if partials != [] {
      AllUsable(shares, partials[..|partials| - 1]);
    }
  }

  /**
   Requests are not checked for repeated participants: in every wallet, whatever its threshold, a participant can sign
   alone if and only if the wallet is active and the participant owns an active share.
   */
  lemma AloneExactly(env: Env, w: Wallet, data: string, participant: string)
    requires w.threshold >= 1
    ensures SignsAlone(env, w, data, participant) <==> w.status == Active && Owns(w.shares, participant)
  {
    hide Combined, ValidOf, FindActive;
    if SignsAlone(env, w, data, participant) {
      var partials :| OnlyFrom(partials, participant) && OutcomeFor(env, w, data, partials).Signed?;
      ValidMeans(w.shares, partials);
      var v := ValidOf(w.shares, partials)[0];
      assert v in ValidOf(w.shares, partials) && v.partial.participant == participant;
      assert w.shares[v.share].participant == participant && w.shares[v.share].active;
    }
    if w.status == Active && Owns(w.shares, participant) {
      var p := Partial(participant, "0123456789");
      var partials := seq(w.threshold, _ => p);
      assert Usable(w.shares, p).Some?;
      assert forall q :: q in partials ==> q == p;
      AllUsable(w.shares, partials);
      assert OnlyFrom(partials, participant) && OutcomeFor(env, w, data, partials).Signed?;
    }
  }

  // ---------------------------------------------------------------- order does not matter

  lemma {:induction false} ValidCount(shares: seq<Share>, partials: seq<Partial>, v: Valid)
    ensures multiset(ValidOf(shares, partials))[v] == if Usable(shares, v.partial) == Some(v.share) then multiset(partials)[v.partial] else 0
  {
    hide Usable;
    if partials != [] {
      var n := |partials| - 1;
      ValidCount(shares, partials[..n], v);
      assert partials == partials[..n] + [partials[n]];
    }
  }

  lemma ValidForgetsOrder(shares: seq<Share>, a: seq<Partial>, b: seq<Partial>)
    requires multiset(a) == multiset(b)
    ensures multiset(ValidOf(shares, a)) == multiset(ValidOf(shares, b))
  {
    forall v: Valid ensures multiset(ValidOf(shares, a))[v] == multiset(ValidOf(shares, b))[v] {
      ValidCount(shares, a, v);
      ValidCount(shares, b, v);
    }
  }

  lemma {:induction false} SignaturesConcat(a: seq<Valid>, b: seq<Valid>)
    ensures Signatures(a + b) == Signatures(a) + Signatures(b)
    decreases b
  {
    if b == [] {
      assert a + b == a;
    } else {
      var n := |b| - 1;
      SignaturesConcat(a, b[..n]);
      assert (a + b)[..|a + b| - 1] == a + b[..n];
    }
  }

  lemma SignaturesAround(front: seq<Valid>, x: Valid, back: seq<Valid>)
    ensures Signatures(front + [x] + back) == Signatures(front) + [x.partial.signature] + Signatures(back)
  {
    hide Signatures;
    SignaturesConcat(front + [x], back);
    SignaturesConcat(front, [x]);
    SignatureOfOne(x);
  }

  lemma SignatureOfOne(v: Valid)
    ensures Signatures([v]) == [v.partial.signature]
  {
  }

  lemma SignaturesOfOneOut(front: seq<Valid>, x: Valid, back: seq<Valid>)
    ensures multiset(Signatures(front + [x] + back)) == multiset(Signatures(front + back)) + multiset{x.partial.signature}
  {
    hide Signatures;
    SignaturesAround(front, x, back);
    SignaturesConcat(front, back);
    MultisetAround(Signatures(front), x.partial.signature, Signatures(back));
  }

  lemma Locate(b: seq<Valid>, x: Valid) returns (front: seq<Valid>, back: seq<Valid>)
    requires x in b
    ensures b == front + [x] + back
  {
    var k :| 0 <= k < |b| && b[k] == x;
    front, back := b[..k], b[k + 1..];
  }

  lemma {:induction false} SignaturesForgetOrder(a: seq<Valid>, b: seq<Valid>)
    requires multiset(a) == multiset(b)
    ensures multiset(Signatures(a)) == multiset(Signatures(b))
    decreases a
  {
    hide Signatures;
    assert |a| == |multiset(a)| == |multiset(b)| == |b|;
    if a == [] {
      assert a == b;
    } else {
      var n := |a| - 1;
      var x := a[n];
      assert x in multiset(b);
      var front, back := Locate(b, x);
      assert a == a[..n] + [x] + [];
      MultisetAround(a[..n], x, []);
      MultisetAround(front, x, back);
      assert a[..n] + [] == a[..n];
      assert multiset(a[..n]) == multiset(a) - multiset{x};
      assert multiset(front + back) == multiset(b) - multiset{x};
      SignaturesForgetOrder(a[..n], front + back);
      SignaturesOfOneOut(front, x, back);
      SignaturesOfOneOut(a[..n], x, []);
    }
  }

  lemma SameSignaturesCombine(env: Env, data: string, a: seq<Valid>, b: seq<Valid>)
    requires multiset(Signatures(a)) == multiset(Signatures(b))
    ensures Combined(env, data, a) == Combined(env, data, b)
  {
    SortIsCanonical(Signatures(a), Signatures(b));
  }

  /**
   Whatever the hash: the signature of a request that is signed is a function of the multiset of its valid partial
   signatures, whoever sent them, in which order, and whatever else the request contains.
   */
  lemma SignatureOfValidShares(env: Env, v: Wallet, w: Wallet, data: string, a: seq<Partial>, b: seq<Partial>)
    ensures var x, y := OutcomeFor(env, v, data, a), OutcomeFor(env, w, data, b);
      x.Signed? && y.Signed? && multiset(Signatures(ValidOf(v.shares, a))) == multiset(Signatures(ValidOf(w.shares, b))) ==> x == y
  {
    hide ValidOf, Signatures, Combined;
    var va, vb := ValidOf(v.shares, a), ValidOf(w.shares, b);
    if multiset(Signatures(va)) == multiset(Signatures(vb)) {
      SameSignaturesCombine(env, data, va, vb);
      assert |Signatures(va)| == |multiset(Signatures(va))| == |multiset(Signatures(vb))| == |Signatures(vb)|;
    }
  }

  /** Nor does whether a request is signed depend on order, or on partial signatures that do not count. */
  lemma SigningIgnoresOrder(env: Env, w: Wallet, data: string, a: seq<Partial>, b: seq<Partial>)
    requires multiset(ValidOf(w.shares, a)) == multiset(ValidOf(w.shares, b))
    ensures OutcomeFor(env, w, data, a).Signed? <==> OutcomeFor(env, w, data, b).Signed?
    ensures OutcomeFor(env, w, data, a).Signed? ==> OutcomeFor(env, w, data, a) == OutcomeFor(env, w, data, b)
  {
    hide ValidOf, Signatures, Combined;
    var va, vb := ValidOf(w.shares, a), ValidOf(w.shares, b);
    SignaturesForgetOrder(va, vb);
    SameSignaturesCombine(env, data, va, vb);
    assert |va| == |multiset(va)| == |multiset(vb)| == |vb|;
  }

  lemma JoinedWithData(x: string, y: string, d: string, e: string)
    ensures x + d == x + e <==> d == e
    ensures x + d == y + d <==> x == y
  {
    if x + d == x + e {
      assert d == (x + d)[|x|..] && e == (x + e)[|x|..];
    }
    if x + d == y + d {
      assert |x| == |y|;
      assert x == (x + d)[..|x|] && y == (y + d)[..|y|];
    }
  }

  predicate Injective(hash: string -> string, x: string, y: string) {
    hash(x) == hash(y) ==> x == y
  }

  /**
   What is signed: the hash of the valid signature shares, sorted by their characters and joined, and then the data.
   */
  lemma SignatureIs(env: Env, w: Wallet, data: string, partials: seq<Partial>, sorted: seq<string>)
    requires IsSorted(sorted) && multiset(sorted) == multiset(Signatures(ValidOf(w.shares, partials)))
    ensures var o := OutcomeFor(env, w, data, partials); o.Signed? ==> o.signature == env.hash(Join(sorted) + data)
  {
    hide ValidOf, Signatures, Join, IsSorted;
    var signatures := Signatures(ValidOf(w.shares, partials));
    SortSorts(signatures);
    SortedUnique(Sort(signatures), sorted);
  }

  /**
   With a hash that tells the two messages apart: requests with the same valid shares have the same signature if and
   only if they are for the same data; and for the same data, if and only if their sorted shares join alike.
   */
  lemma SignatureTellsApart(env: Env, w: Wallet, d: string, e: string, a: seq<Partial>, b: seq<Partial>, xs: seq<string>, ys: seq<string>)
    requires IsSorted(xs) && multiset(xs) == multiset(Signatures(ValidOf(w.shares, a)))
    requires IsSorted(ys) && multiset(ys) == multiset(Signatures(ValidOf(w.shares, b)))
    requires Injective(env.hash, Join(xs) + d, Join(ys) + e)
    ensures var x, y := OutcomeFor(env, w, d, a), OutcomeFor(env, w, e, b);
      x.Signed? && y.Signed? ==>
        && (multiset(xs) == multiset(ys) ==> (x.signature == y.signature <==> d == e))
        && (d == e ==> (x.signature == y.signature <==> Join(xs) == Join(ys)))
  {
    hide ValidOf, Signatures, Join, IsSorted, OutcomeFor;
    SignatureIs(env, w, d, a, xs);
    SignatureIs(env, w, e, b, ys);
    if multiset(xs) == multiset(ys) { SortedUnique(xs, ys); }
    JoinedWithData(Join(xs), Join(ys), d, e);
  }

  /** A new wallet has as many active shares as participants, and outlives the loss of one, two or three of them. */
  lemma NewWalletNumbers(env: Env, s: State, id: string, scheme: Scheme, participants: seq<string>)
    requires id !in s.wallets
    ensures var t := Next(env, s, CreateWallet(id, scheme, participants));
      && (id in t.wallets <==> |participants| == match scheme case TwoOfThree => 3 case ThreeOfFive => 5 case FourOfSeven => 7)
      && (id in t.wallets ==>
            && t.wallets[id].status == Active
            && t.wallets[id].threshold == (match scheme case TwoOfThree => 2 case ThreeOfFive => 3 case FourOfSeven => 4)
            && (if Distinct(participants)
                then |t.wallets[id].shares| == |participants| == ActiveCount(t.wallets[id].shares)
                     && forall i :: 0 <= i < |participants| ==> t.wallets[id].shares[i].participant == participants[i]
                else t.wallets[id].shares == []))
  {
    hide ActiveCount;
    AllActive(NewShares(participants));
  }

  /** A request with its partial signatures in another order gets the same answer, whatever it is. */
  lemma ReorderedRequest(env: Env, w: Wallet, data: string, a: seq<Partial>, b: seq<Partial>)
    requires multiset(a) == multiset(b)
    ensures OutcomeFor(env, w, data, a) == OutcomeFor(env, w, data, b)
  {
    hide ValidOf, Combined;
    ValidForgetsOrder(w.shares, a, b);
    SigningIgnoresOrder(env, w, data, a, b);
    var va, vb := ValidOf(w.shares, a), ValidOf(w.shares, b);
    assert |a| == |multiset(a)| == |multiset(b)| == |b|;
    assert |va| == |multiset(va)| == |multiset(vb)| == |vb|;
  }

  /** A signing stamps exactly the shares that took part. */
  lemma {:induction false} MarkUsedMeans(shares: seq<Share>, valid: seq<Valid>, now: int, i: nat)
    requires i < |shares|
    ensures (exists k :: 0 <= k < |valid| && valid[k].share == i) ==> MarkUsed(shares, valid, now)[i].lastUsed == Some(now)
    ensures (forall k :: 0 <= k < |valid| ==> valid[k].share != i) ==> MarkUsed(shares, valid, now)[i] == shares[i]
  {
    if valid != [] {
      var n := |valid| - 1;
      MarkUsedMeans(shares, valid[..n], now, i);
      assert forall k :: 0 <= k < n ==> valid[..n][k] == valid[k];
    }
  }

  // ---------------------------------------------------------------- the service

  class MpcService {
    const env: Env
    var wallets: map<string, Wallet>
    ghost var receipts: seq<Receipt>

    ghost function Abs(): State
      reads this
    {
      State(wallets, receipts)
    }

    constructor (environment: Env)
      ensures Abs() == INITIAL && env == environment
    {
      env := environment;
      wallets, receipts := map[], [];
    }

    method CreateMpcWallet(walletId: string, scheme: Scheme, participants: seq<string>) returns (ok: bool)
      requires walletId !in wallets
      modifies this`wallets
      ensures Abs() == Next(env, old(Abs()), CreateWallet(walletId, scheme, participants))
      ensures var n, k := match scheme { case TwoOfThree => 3 case ThreeOfFive => 5 case FourOfSeven => 7 },
                         match scheme { case TwoOfThree => 2 case ThreeOfFive => 3 case FourOfSeven => 4 };
        && (ok <==> |participants| == n && Distinct(participants))
        && (|participants| != n ==> wallets == old(wallets))
        && (|participants| == n ==> wallets == old(wallets)[walletId := Wallet(n, k, Active, if ok then NewShares(participants) else [])])
    {
      if |participants| < 2 {
        return false;
      }
      if |participants| != TotalShares(scheme) {
        return false;
      }
      var wallet := Wallet(TotalShares(scheme), Threshold(scheme), Active, []);
      wallets := wallets[walletId := wallet];
      if !Distinct(participants) {
        return false;
      }
      wallets := wallets[walletId := wallet.(shares := NewShares(participants))];
      return true;
    }

    static method ValidateParticipantShares(shares: seq<Share>, participantShares: seq<Partial>) returns (validShares: seq<Valid>)
      ensures validShares == ValidOf(shares, participantShares)
    {
      hide FindActive;
      validShares := [];
      for k := 0 to |participantShares|
        invariant validShares == ValidOf(shares, participantShares[..k])
      {
        assert participantShares[..k + 1][..k] == participantShares[..k];
        var p := participantShares[k];
        var share := FindActive(shares, p.participant);
        if share.None? {
          continue;
        }
        if |p.signature| < MIN_SIGNATURE_SHARE {
          continue;
        }
        validShares := validShares + [Valid(p, share.value)];
      }
      assert participantShares[..|participantShares|] == participantShares;
    }

    method ReconstructSignature(transactionData: string, validShares: seq<Valid>) returns (signature: string)
      ensures signature == Combined(env, transactionData, validShares)
    {
      var signatureShares := [];
      for k := 0 to |validShares|
        invariant signatureShares == Signatures(validShares[..k])
      {
        assert validShares[..k + 1][..k] == validShares[..k];
        signatureShares := signatureShares + [validShares[k].partial.signature];
      }
      assert validShares[..|validShares|] == validShares;
      signature := env.hash(Join(Sort(signatureShares)) + transactionData);
    }

    method UpdateShareUsage(walletId: string, validShares: seq<Valid>, now: int)
      requires walletId in wallets
      requires forall v :: v in validShares ==> v.share < |wallets[walletId].shares|
      modifies this`wallets
      ensures wallets == old(wallets)[walletId := old(wallets)[walletId].(shares := MarkUsed(old(wallets)[walletId].shares, validShares, now))]
    {
      var shares := wallets[walletId].shares;
      for k := 0 to |validShares|
        invariant shares == MarkUsed(wallets[walletId].shares, validShares[..k], now)
      {
        assert validShares[..k + 1][..k] == validShares[..k];
        var share := validShares[k].share;
        assert validShares[k] in validShares;
        shares := shares[share := shares[share].(lastUsed := Some(now))];
      }
      assert validShares[..|validShares|] == validShares;
      wallets := wallets[walletId := wallets[walletId].(shares := shares)];
    }

    method SignTransaction(walletId: string, transactionData: string, participantShares: seq<Partial>, now: int)
      returns (outcome: Outcome)
      modifies this
      ensures outcome == OutcomeOf(env, old(Abs()), walletId, transactionData, participantShares)
      ensures Abs() == Next(env, old(Abs()), Step.SignTransaction(walletId, transactionData, participantShares, now))
      ensures outcome == NotFound <==> walletId !in old(wallets)
      ensures walletId in old(wallets) ==>
        var w := old(wallets)[walletId];
        && (outcome == NotActive <==> w.status != Active)
        && (outcome == TooFewShares <==> w.status == Active && |participantShares| < w.threshold)
        && (outcome == TooFewValidShares <==>
              w.status == Active && |participantShares| >= w.threshold && |ValidOf(w.shares, participantShares)| < w.threshold)
        && (outcome.Signed? ==>
              && wallets == old(wallets)[walletId := w.(shares := MarkUsed(w.shares, ValidOf(w.shares, participantShares), now))]
              && receipts == old(receipts) + [Receipt(walletId, outcome.used)])
      ensures !outcome.Signed? ==> wallets == old(wallets) && receipts == old(receipts)
    {
      hide ValidOf, Combined, MarkUsed;
      if walletId !in wallets {
        return NotFound;
      }
      var wallet := wallets[walletId];
      if wallet.status != Active {
        return NotActive;
      }
      if |participantShares| < wallet.threshold {
        return TooFewShares;
      }
      var validShares := ValidateParticipantShares(wallet.shares, participantShares);
      if |validShares| < wallet.threshold {
        return TooFewValidShares;
      }
      var signature := ReconstructSignature(transactionData, validShares);
      ValidMeans(wallet.shares, participantShares);
      UpdateShareUsage(walletId, validShares, now);
      receipts := receipts + [Receipt(walletId, |validShares|)];
      return Signed(signature, |validShares|);
    }

    static method GetActiveSharesCount(shares: seq<Share>) returns (count: nat)
      ensures count == ActiveCount(shares)
    {
      count := 0;
      for k := 0 to |shares|
        invariant count == ActiveCount(shares[..k])
      {
        assert shares[..k + 1][..k] == shares[..k];
        if shares[k].active { count := count + 1; }
      }
      assert shares[..|shares|] == shares;
    }

    method RevokeKeyShare(walletId: string, participantId: string, shareIndex: nat) returns (found: bool)
      modifies this`wallets
      ensures Abs() == Next(env, old(Abs()), Step.RevokeKeyShare(walletId, participantId, shareIndex))
      ensures found <==> walletId in old(wallets) && shareIndex < |old(wallets)[walletId].shares|
                         && old(wallets)[walletId].shares[shareIndex].participant == participantId
      ensures wallets ==
        if !found || !old(wallets)[walletId].shares[shareIndex].active then old(wallets)
        else
          var w := old(wallets)[walletId];
          var closes := ActiveCount(w.shares) <= w.threshold;
          old(wallets)[walletId := w.(
            status := if closes then Recovering else w.status,
            shares := if closes && env.cascade then w.shares
                      else w.shares[shareIndex := Share(participantId, false, w.shares[shareIndex].lastUsed)])]
    {
      hide ActiveCount;
      if walletId !in wallets {
        return false;
      }
      var wallet := wallets[walletId];
      if shareIndex >= |wallet.shares| || wallet.shares[shareIndex].participant != participantId {
        return false;
      }
      if !wallet.shares[shareIndex].active {
        return true;
      }
      wallets := wallets[walletId := wallet.(shares := Revoked(wallet.shares, shareIndex))];
      var count := GetActiveSharesCount(wallet.shares);
      if count - 1 < wallet.threshold {
        wallets := wallets[walletId := wallets[walletId].(status := Recovering)];
        if env.cascade {
          wallets := wallets[walletId := wallets[walletId].(shares := wallet.shares)];
        }
      }
      return true;
    }
  }
}
