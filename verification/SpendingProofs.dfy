// The rolled window counter against the log of spends it stands for.
module SpendingProofs {
  import opened Results
  import opened Sums
  import opened Erc20
  import opened SpendingModel

  // ── what the log says ──

  // Spends under policy `id` mined at or after `a` and before `b`.
  function SpentBetween(id: Id, a: int, b: int): SpendEvent -> int {
    (e: SpendEvent) => match e
      case Spent(i, at, _, _, amount, _) => if i == id && a <= at < b then amount else 0
      case _ => 0
  }

  function SpentIn(log: seq<SpendEvent>, id: Id, a: int, b: int): int {
    Total(log, SpentBetween(id, a, b))
  }

  // When policy `id` was first granted.
  function FirstGrant(log: seq<SpendEvent>, id: Id): Option<nat> {
    if log == [] then None else
      var before := FirstGrant(log[..|log| - 1], id);
      var e := log[|log| - 1];
      if before == None && e.Granted? && e.id == id then Some(e.at) else before
  }

  // The largest window cap ever granted for policy `id`.
  function LargestCap(log: seq<SpendEvent>, id: Id): nat {
    if log == [] then 0 else
      var before := LargestCap(log[..|log| - 1], id);
      var e := log[|log| - 1];
      if e.Granted? && e.id == id && e.windowCap > before then e.windowCap else before
  }

  lemma LogAppend(log: seq<SpendEvent>, e: SpendEvent, id: Id)
    ensures FirstGrant(log + [e], id) == if FirstGrant(log, id) == None && e.Granted? && e.id == id then Some(e.at)
            else FirstGrant(log, id)
    ensures LargestCap(log + [e], id) >= LargestCap(log, id)
    ensures e.Granted? && e.id == id ==> LargestCap(log + [e], id) >= e.windowCap
    ensures forall a, b :: SpentIn(log + [e], id, a, b) == SpentIn(log, id, a, b) + SpentBetween(id, a, b)(e)
  {
    assert (log + [e])[..|log|] == log;
    forall a, b ensures SpentIn(log + [e], id, a, b) == SpentIn(log, id, a, b) + SpentBetween(id, a, b)(e) {
      TotalAppend(log, e, SpentBetween(id, a, b));
    }
  }

  // ── aligned windows ──

  // Where window number `k` begins, and the start of the window that contains `t`.
  function Boundary(t0: nat, cycle: nat, k: nat): nat {
    t0 + k * cycle
  }

  function WindowOf(t0: nat, cycle: nat, t: nat): nat
    requires cycle > 0 && t0 <= t
  {
    (t - t0) / cycle
  }

  lemma WindowBounds(t0: nat, cycle: nat, t: nat)
    requires cycle > 0 && t0 <= t
    ensures Boundary(t0, cycle, WindowOf(t0, cycle, t)) <= t < Boundary(t0, cycle, WindowOf(t0, cycle, t)) + cycle
  {
    WholeCyclesFit(t - t0, cycle);
  }

  lemma WindowsInOrder(t0: nat, cycle: nat, j: nat, k: nat)
    requires j < k
    ensures Boundary(t0, cycle, j) + cycle <= Boundary(t0, cycle, k)
  {
    calc {
      Boundary(t0, cycle, k) - Boundary(t0, cycle, j);
      k * cycle - j * cycle;
      (k - j) * cycle;
    >= { assert k - j >= 1; }
      cycle;
    }
  }

  lemma OnlyOneWindow(t0: nat, cycle: nat, t: nat, k: nat)
    requires cycle > 0 && Boundary(t0, cycle, k) <= t < Boundary(t0, cycle, k) + cycle
    ensures t0 <= t && WindowOf(t0, cycle, t) == k
  {
    var w := WindowOf(t0, cycle, t);
    WindowBounds(t0, cycle, t);
    if w < k { WindowsInOrder(t0, cycle, w, k); }
    if k < w { WindowsInOrder(t0, cycle, k, w); }
  }

  // Rolling forward by whole cycles from any boundary lands on the boundary of the current window.
  lemma RollLandsOnWindow(t0: nat, cycle: nat, k: nat, t: nat)
    requires cycle > 0 && Boundary(t0, cycle, k) <= t
    ensures var start := Boundary(t0, cycle, k);
            t0 <= t && start + (t - start) / cycle * cycle == Boundary(t0, cycle, WindowOf(t0, cycle, t))
  {
    var start := Boundary(t0, cycle, k);
    var j := (t - start) / cycle;
    WholeCyclesFit(t - start, cycle);
    assert start + j * cycle == Boundary(t0, cycle, k + j) by {
      assert (k + j) * cycle == k * cycle + j * cycle;
    }
    OnlyOneWindow(t0, cycle, t, k + j);
  }

  // ── the invariant: one policy, one token, one cycle ──

  // The counter at time `last`, seen against the log. `k` numbers the window it is in.
  ghost predicate Counts(s: SpendState, id: Id, token: Address, cycle: cycle64, t0: nat, k: nat, last: nat) {
    && id in s.policies && CounterOk(s.policies[id], s.log, id, token, cycle, t0, k, last)
    && FirstGrant(s.log, id) == Some(t0)
    && (forall e {:trigger Timely(e, id, t0, cycle, k, last)} :: e in s.log ==> Timely(e, id, t0, cycle, k, last))
    && (forall w: nat {:trigger WindowCapped(s.log, id, t0, cycle, w)} :: WindowCapped(s.log, id, t0, cycle, w))
  }

  ghost predicate CounterOk(p: Policy, log: seq<SpendEvent>, id: Id, token: Address, cycle: cycle64, t0: nat, k: nat,
                            last: nat)
  {
    && p.token == token && p.cycleSecs == cycle
    && p.windowStart == Boundary(t0, cycle, k) <= last
    && p.used == SpentIn(log, id, p.windowStart, p.windowStart + cycle)
    && p.windowCap <= LargestCap(log, id)
  }

  ghost predicate WindowCapped(log: seq<SpendEvent>, id: Id, t0: nat, cycle: nat, w: nat) {
    SpentIn(log, id, Boundary(t0, cycle, w), Boundary(t0, cycle, w) + cycle) <= LargestCap(log, id)
  }

  // No logged spend is before the first grant, in a later window, or in the future.
  predicate Timely(e: SpendEvent, id: Id, t0: nat, cycle: nat, k: nat, last: nat) {
    e.Spent? && e.id == id ==> t0 <= e.at <= last && e.at < Boundary(t0, cycle, k) + cycle
  }

  ghost predicate NotYet(s: SpendState, id: Id) {
    && id !in s.policies
    && FirstGrant(s.log, id) == None
    && forall e {:trigger e in s.log} :: e in s.log ==> !(e.Spent? && e.id == id)
  }

  lemma {:induction false} NothingSpent(log: seq<SpendEvent>, id: Id, a: int, b: int)
    requires forall e :: e in log ==> SpentBetween(id, a, b)(e) == 0
    ensures SpentIn(log, id, a, b) == 0
  {
    if log != [] {
      NothingSpent(log[..|log| - 1], id, a, b);
    }
  }

  // ── every call keeps it ──

  predicate AboutSpending(e: SpendEvent, id: Id) {
    e.Spent? && e.id == id
  }

  lemma QuietLog(log: seq<SpendEvent>, e: SpendEvent, id: Id)
    requires !AboutSpending(e, id)
    ensures forall a, b {:trigger SpentIn(log + [e], id, a, b)}
            :: SpentIn(log + [e], id, a, b) == SpentIn(log, id, a, b)
    ensures LargestCap(log + [e], id) >= LargestCap(log, id)
  {
    LogAppend(log, e, id);
  }

  // An event that is not a spend under this policy leaves the counter right.
  lemma QuietEventKeeps(s: SpendState, s': SpendState, e: SpendEvent, id: Id, token: Address, cycle: cycle64,
                        t0: nat, k: nat, last: nat, now: nat)
    requires Counts(s, id, token, cycle, t0, k, last) && last <= now
    requires s'.log == s.log + [e] && !AboutSpending(e, id)
    requires id in s'.policies
    requires var p, q := s.policies[id], s'.policies[id];
             && q.token == token && q.cycleSecs == cycle && q.used == p.used && q.windowStart == p.windowStart
             && (q.windowCap == p.windowCap || (e.Granted? && e.id == id && e.windowCap == q.windowCap))
    ensures Counts(s', id, token, cycle, t0, k, now)
  {
    LogAppend(s.log, e, id);
    QuietLog(s.log, e, id);
    forall x | x in s'.log ensures Timely(x, id, t0, cycle, k, now) {
      if x in s.log { assert Timely(x, id, t0, cycle, k, last); }
    }
    forall w: nat ensures WindowCapped(s'.log, id, t0, cycle, w) {
      assert WindowCapped(s.log, id, t0, cycle, w);
    }
  }

  lemma FirstGrantStarts(s: SpendState, s': SpendState, id: Id, token: Address, cycle: cycle64, now: nat)
    requires NotYet(s, id) && id in s'.policies
    requires var q := s'.policies[id];
             && q.token == token && q.cycleSecs == cycle && q.used == 0 && q.windowStart == now
             && s'.log == s.log + [Granted(id, now, token, q.windowCap, cycle)]
    ensures Counts(s', id, token, cycle, now, 0, now)
  {
    var e := Granted(id, now, token, s'.policies[id].windowCap, cycle);
    LogAppend(s.log, e, id);
    QuietLog(s.log, e, id);
    forall x | x in s'.log ensures Timely(x, id, now, cycle, 0, now) {
      if x in s.log {}
    }
    forall a, b ensures SpentIn(s'.log, id, a, b) == 0 {
      NothingSpent(s.log, id, a, b);
    }
    forall w: nat ensures WindowCapped(s'.log, id, now, cycle, w) {}
  }

  // No spend has been logged in the window that a roll opens.
  lemma NewWindowIsEmpty(s: SpendState, id: Id, token: Address, cycle: cycle64, t0: nat, k: nat, last: nat, a: nat,
                         b: nat)
    requires Counts(s, id, token, cycle, t0, k, last) && Boundary(t0, cycle, k) + cycle <= a
    ensures SpentIn(s.log, id, a, b) == 0
  {
    forall e | e in s.log ensures SpentBetween(id, a, b)(e) == 0 {
      assert Timely(e, id, t0, cycle, k, last);
    }
    NothingSpent(s.log, id, a, b);
  }

  // The rolled counter is right for the window that `now` is in.
  lemma RollIsRight(s: SpendState, id: Id, token: Address, cycle: cycle64, t0: nat, k: nat, last: nat, now: uint64)
    requires Counts(s, id, token, cycle, t0, k, last) && last <= now
    ensures var q := Rolled(s.policies[id], now);
            && t0 <= now
            && k <= WindowOf(t0, cycle, now)
            && q.windowStart == Boundary(t0, cycle, WindowOf(t0, cycle, now))
            && q.used == SpentIn(s.log, id, q.windowStart, q.windowStart + cycle)
  {
    var p := s.policies[id];
    RollLandsOnWindow(t0, cycle, k, now);
    var w := WindowOf(t0, cycle, now);
    WindowBounds(t0, cycle, now);
    if now < p.windowStart + cycle {
      OnlyOneWindow(t0, cycle, now, k);
    } else {
      if w <= k {
        if w < k { WindowsInOrder(t0, cycle, w, k); }
        assert false;
      }
      WindowsInOrder(t0, cycle, k, w);
      NewWindowIsEmpty(s, id, token, cycle, t0, k, last, Boundary(t0, cycle, w), Boundary(t0, cycle, w) + cycle);
    }
  }

  lemma SpendKeeps(s: SpendState, s': SpendState, id: Id, token: Address, cycle: cycle64, t0: nat, k: nat, last: nat,
                   now: uint64, sender: Address, dst: Address, amount: uint256)
    requires Counts(s, id, token, cycle, t0, k, last) && last <= now
    requires var r := Rolled(s.policies[id], now);
             && r.used + amount <= r.windowCap && id in s'.policies
             && s'.policies[id] == r.(used := r.used + amount)
             && s'.log == s.log + [Spent(id, now, sender, dst, amount, r.used + amount)]
    ensures t0 <= now && Counts(s', id, token, cycle, t0, WindowOf(t0, cycle, now), now)
  {
    RollIsRight(s, id, token, cycle, t0, k, last, now);
    var w, q := WindowOf(t0, cycle, now), s'.policies[id];
    WindowBounds(t0, cycle, now);
    var e := Spent(id, now, sender, dst, amount, q.used);
    LogAppend(s.log, e, id);
    forall x | x in s'.log ensures Timely(x, id, t0, cycle, w, now) {
      if x in s.log {
        assert Timely(x, id, t0, cycle, k, last);
      }
    }
    forall v: nat ensures WindowCapped(s'.log, id, t0, cycle, v) {
      assert WindowCapped(s.log, id, t0, cycle, v);
      if Boundary(t0, cycle, v) <= now < Boundary(t0, cycle, v) + cycle {
        OnlyOneWindow(t0, cycle, now, v);
      }
    }
  }

  // ── runs ──

  predicate Timed(run: seq<(SpendTx, SpendCall)>) {
    forall i, j :: 0 <= i < j < |run| ==> run[i].0.now <= run[j].0.now
  }

  // Every grant of policy `id` names the same token and the same cycle.
  predicate Steady(run: seq<(SpendTx, SpendCall)>, id: Id, token: Address, cycle: cycle64) {
    forall i :: 0 <= i < |run| && run[i].1.GrantCall? && run[i].1.id == id ==>
      run[i].1.token == token && run[i].1.cycleSecs == cycle
  }

  function EndOf(run: seq<(SpendTx, SpendCall)>): nat {
    if run == [] then 0 else run[|run| - 1].0.now
  }

  function Fresh(T: map<Address, Ledger>): SpendState {
    SpendState(map[], T, [])
  }

  function After(self: Address, T: map<Address, Ledger>, run: seq<(SpendTx, SpendCall)>): SpendState {
    SpendExec(self, Fresh(T), run)
  }

  // Nothing but a grant can bring a policy into being.
  lemma StepKeepsNotYet(self: Address, s: SpendState, tx: SpendTx, call: SpendCall, id: Id, token: Address,
                        cycle: cycle64)
    requires NotYet(s, id) && SpendStep(self, s, tx, call).Success?
    requires call.GrantCall? && call.id == id ==> call.token == token && call.cycleSecs == cycle
    ensures var s' := SpendStep(self, s, tx, call).value;
            NotYet(s', id) || Counts(s', id, token, cycle, tx.now, 0, tx.now)
  {
    var s' := SpendStep(self, s, tx, call).value;
    if call.GrantCall? && call.id == id {
      FirstGrantStarts(s, s', id, token, cycle, tx.now);
    } else if !call.TokensChange? {
      QuietKeepsNotYet(s, s', s'.log[|s.log|], id);
    }
  }

  lemma QuietKeepsNotYet(s: SpendState, s': SpendState, e: SpendEvent, id: Id)
    requires NotYet(s, id) && id !in s'.policies
    requires s'.log == s.log + [e] && !AboutSpending(e, id) && !(e.Granted? && e.id == id)
    ensures NotYet(s', id)
  {
    LogAppend(s.log, e, id);
  }

  lemma StepKeepsCounts(self: Address, s: SpendState, tx: SpendTx, call: SpendCall, id: Id, token: Address,
                        cycle: cycle64, t0: nat, k: nat, last: nat) returns (k': nat)
    requires Counts(s, id, token, cycle, t0, k, last) && last <= tx.now
    requires call.GrantCall? && call.id == id ==> call.token == token && call.cycleSecs == cycle
    requires SpendStep(self, s, tx, call).Success?
    ensures Counts(SpendStep(self, s, tx, call).value, id, token, cycle, t0, k', tx.now)
  {
    k' := k;
    var s' := SpendStep(self, s, tx, call).value;
    match call
    case SpendCallOf(i, amount, dst) =>
      if i == id {
        SpendKeeps(s, s', id, token, cycle, t0, k, last, tx.now, tx.sender, dst, amount);
        k' := WindowOf(t0, cycle, tx.now);
      } else {
        QuietEventKeeps(s, s', s'.log[|s.log|], id, token, cycle, t0, k, last, tx.now);
      }
    case TokensChange(_) => LaterKeeps(s, s', id, token, cycle, t0, k, last, tx.now);
    case GrantCall(_, _, _, _, _, _, _) =>
      QuietEventKeeps(s, s', s'.log[|s.log|], id, token, cycle, t0, k, last, tx.now);
    case RevokeCall(_) => QuietEventKeeps(s, s', s'.log[|s.log|], id, token, cycle, t0, k, last, tx.now);
  }

  // Time passing changes nothing that is stored.
  lemma LaterKeeps(s: SpendState, s': SpendState, id: Id, token: Address, cycle: cycle64, t0: nat, k: nat, last: nat,
                   now: nat)
    requires Counts(s, id, token, cycle, t0, k, last) && last <= now
    requires s'.policies == s.policies && s'.log == s.log
    ensures Counts(s', id, token, cycle, t0, k, now)
  {
    forall e | e in s'.log ensures Timely(e, id, t0, cycle, k, now) {
      assert Timely(e, id, t0, cycle, k, last);
    }
    forall w: nat ensures WindowCapped(s'.log, id, t0, cycle, w) {
      assert WindowCapped(s.log, id, t0, cycle, w);
    }
  }

  lemma {:induction false} RunCounts(self: Address, T: map<Address, Ledger>, run: seq<(SpendTx, SpendCall)>,
                                     id: Id, token: Address, cycle: cycle64) returns (t0: nat, k: nat)
    requires Timed(run) && Steady(run, id, token, cycle)
    ensures NotYet(After(self, T, run), id) || Counts(After(self, T, run), id, token, cycle, t0, k, EndOf(run))
  {
    if run == [] {
      t0, k := 0, 0;
    } else {
      var init := run[..|run| - 1];
      var (tx, call) := run[|run| - 1];
      t0, k := RunCounts(self, T, init, id, token, cycle);
      var s := After(self, T, init);
      if NotYet(s, id) {
        if SpendStep(self, s, tx, call).Success? {
          StepKeepsNotYet(self, s, tx, call, id, token, cycle);
          t0, k := tx.now, 0;
        }
      } else if SpendStep(self, s, tx, call).Success? {
        k := StepKeepsCounts(self, s, tx, call, id, token, cycle, t0, k, EndOf(init));
      } else {
        LaterKeeps(s, s, id, token, cycle, t0, k, EndOf(init), tx.now);
      }
    }
  }

  // ── theorems ──

  // The lazily rolled counter is a cache of the log: at any time from the last call on, the amount
  // it says is used is exactly what the log says was spent in the window that contains that time,
  // windows being counted from the first grant however often the policy is revoked and granted again.
  lemma LazyWindowRefinesLog(self: Address, T: map<Address, Ledger>, run: seq<(SpendTx, SpendCall)>,
                             id: Id, token: Address, cycle: cycle64, t: nat)
    requires Timed(run) && Steady(run, id, token, cycle)
    requires id in After(self, T, run).policies && EndOf(run) <= t
    ensures var s := After(self, T, run);
            && FirstGrant(s.log, id).Some? && FirstGrant(s.log, id).value <= t
            && var t0 := FirstGrant(s.log, id).value;
               var start := Boundary(t0, cycle, WindowOf(t0, cycle, t));
               && start <= t < start + cycle
               && EffectiveUsed(s.policies[id], t) == SpentIn(s.log, id, start, start + cycle)
  {
    var s := After(self, T, run);
    var t0, k := RunCounts(self, T, run, id, token, cycle);
    var p, w := s.policies[id], WindowOf(t0, cycle, t);
    WindowBounds(t0, cycle, t);
    if t < p.windowStart + cycle {
      OnlyOneWindow(t0, cycle, t, k);
    } else {
      if w < k { WindowsInOrder(t0, cycle, w, k); }
      if k < w { WindowsInOrder(t0, cycle, k, w); }
      NewWindowIsEmpty(s, id, token, cycle, t0, k, EndOf(run), Boundary(t0, cycle, w), Boundary(t0, cycle, w) + cycle);
    }
  }

  // Spends in one aligned window never pass the largest cap ever granted.
  lemma AlignedWindowCapped(self: Address, T: map<Address, Ledger>, run: seq<(SpendTx, SpendCall)>,
                            id: Id, token: Address, cycle: cycle64, w: nat)
    requires Timed(run) && Steady(run, id, token, cycle)
    requires FirstGrant(After(self, T, run).log, id).Some?
    ensures var s := After(self, T, run);
            WindowCapped(s.log, id, FirstGrant(s.log, id).value, cycle, w)
  {
    var t0, k := RunCounts(self, T, run, id, token, cycle);
  }

  lemma {:induction false} SpentInSplits(log: seq<SpendEvent>, id: Id, a: int, b: int, c: int)
    requires a <= b <= c
    ensures SpentIn(log, id, a, c) == SpentIn(log, id, a, b) + SpentIn(log, id, b, c)
  {
    if log != [] {
      SpentInSplits(log[..|log| - 1], id, a, b, c);
    }
  }

  // A longer interval holds no less, and spends before the first grant do not exist.
  lemma SpentInWithin(log: seq<SpendEvent>, id: Id, t0: nat, a: int, b: int, c: int, d: int)
    requires forall e :: e in log && AboutSpending(e, id) ==> t0 <= e.at
    requires c <= a || c <= t0
    requires b <= d
    ensures SpentIn(log, id, a, b) <= SpentIn(log, id, c, d)
  {
    TotalOrdered(log, SpentBetween(id, a, b), SpentBetween(id, c, d));
  }

  // Spends in any stretch of one cycle's length, wherever it starts, are at most twice the largest cap.
  lemma AnyCycleAtMostTwice(self: Address, T: map<Address, Ledger>, run: seq<(SpendTx, SpendCall)>,
                            id: Id, token: Address, cycle: cycle64, x: nat)
    requires Timed(run) && Steady(run, id, token, cycle)
    ensures var s := After(self, T, run);
            SpentIn(s.log, id, x, x + cycle) <= 2 * LargestCap(s.log, id)
  {
    var s := After(self, T, run);
    var t0, k := RunCounts(self, T, run, id, token, cycle);
    if NotYet(s, id) {
      NothingSpent(s.log, id, x, x + cycle);
    } else {
      SpendsAfterFirstGrant(s, id, token, cycle, t0, k, EndOf(run));
      var w := if x <= t0 then 0 else WindowOf(t0, cycle, x);
      if x > t0 { WindowBounds(t0, cycle, x); }
      var a := Boundary(t0, cycle, w);
      assert Boundary(t0, cycle, w + 1) == a + cycle by {
        assert (w + 1) * cycle == w * cycle + cycle;
      }
      SpentInWithin(s.log, id, t0, x, x + cycle, a, a + cycle + cycle);
      SpentInSplits(s.log, id, a, a + cycle, a + cycle + cycle);
      assert WindowCapped(s.log, id, t0, cycle, w) && WindowCapped(s.log, id, t0, cycle, w + 1);
    }
  }

  lemma SpendsAfterFirstGrant(s: SpendState, id: Id, token: Address, cycle: cycle64, t0: nat, k: nat, last: nat)
    requires Counts(s, id, token, cycle, t0, k, last)
    ensures forall e :: e in s.log && AboutSpending(e, id) ==> t0 <= e.at
  {
    forall e | e in s.log && AboutSpending(e, id) ensures t0 <= e.at {
      assert Timely(e, id, t0, cycle, k, last);
    }
  }

  lemma {:induction false} WindowsAddUp(log: seq<SpendEvent>, id: Id, t0: nat, cycle: nat, n: nat)
    requires forall w: nat {:trigger WindowCapped(log, id, t0, cycle, w)} :: WindowCapped(log, id, t0, cycle, w)
    ensures SpentIn(log, id, t0, Boundary(t0, cycle, n)) <= n * LargestCap(log, id)
  {
    if n == 0 {
      NothingSpent(log, id, t0, t0);
    } else {
      WindowsAddUp(log, id, t0, cycle, n - 1);
      var a := Boundary(t0, cycle, n - 1);
      assert Boundary(t0, cycle, n) == a + cycle by {
        assert n * cycle == (n - 1) * cycle + cycle;
      }
      SpentInSplits(log, id, t0, a, a + cycle);
      assert WindowCapped(log, id, t0, cycle, n - 1);
      assert n * LargestCap(log, id) == (n - 1) * LargestCap(log, id) + LargestCap(log, id);
    }
  }

  // All spends up to time `t` are at most one largest cap for every window begun by then.
  lemma SpendsBoundedByWindows(self: Address, T: map<Address, Ledger>, run: seq<(SpendTx, SpendCall)>,
                               id: Id, token: Address, cycle: cycle64, t: nat)
    requires Timed(run) && Steady(run, id, token, cycle)
    requires FirstGrant(After(self, T, run).log, id).Some? && FirstGrant(After(self, T, run).log, id).value <= t
    ensures var s := After(self, T, run);
            var t0 := FirstGrant(s.log, id).value;
            SpentIn(s.log, id, 0, t + 1) <= (WindowOf(t0, cycle, t) + 1) * LargestCap(s.log, id)
  {
    var s := After(self, T, run);
    var t0, k := RunCounts(self, T, run, id, token, cycle);
    var n := WindowOf(t0, cycle, t) + 1;
    WindowBounds(t0, cycle, t);
    assert Boundary(t0, cycle, n) == Boundary(t0, cycle, n - 1) + cycle by {
      assert n * cycle == (n - 1) * cycle + cycle;
    }
    SpendsAfterFirstGrant(s, id, token, cycle, t0, k, EndOf(run));
    SpentInWithin(s.log, id, t0, 0, t + 1, t0, Boundary(t0, cycle, n));
    WindowsAddUp(s.log, id, t0, cycle, n);
  }

  // ── the view predicts the call ──

  // A spend by the right spender to somebody else, of a token that takes no part of it, with approval
  // and balance to spare, goes through exactly when the amount is within `available` at that moment.
  // So the view is right across expiry, revocation, rollover and a lowered cap, and it reverts only
  // when every spend would.
  lemma AvailablePredictsSpend(self: Address, s: SpendState, tx: SpendTx, id: Id, amount: uint256, dst: Address)
    requires amount > 0 && dst != 0
    requires id in s.policies ==>
             var p := s.policies[id];
             && tx.sender == p.spender && dst != p.account && p.token in s.tokens
             && var l := s.tokens[p.token];
                && Sound(l) && Arrival(l, amount) == amount
                && amount <= Allowance(l, p.account, self) && amount <= BalanceOf(l, p.account)
    ensures var a := Available(s.policies, tx.now, id);
            Spend(self, s, tx, id, amount, dst).Success? <==> a.Success? && amount <= a.value
  {
    if id in s.policies {
      var p := s.policies[id];
      var l := s.tokens[p.token];
      TransferFromRefusedOnlyByAllowanceOrBalance(l, self, p.account, dst, amount);
      TransferFromMoves(l, self, p.account, dst, amount);
    }
  }

  // Only a live policy can be spent from, and one that is not live has nothing available.
  lemma OnlyLivePoliciesSpend(self: Address, s: SpendState, tx: SpendTx, id: Id, amount: uint256, dst: Address)
    ensures Spend(self, s, tx, id, amount, dst).Success? ==> IsLive(s.policies, tx.now, id)
    ensures !IsLive(s.policies, tx.now, id) ==> Available(s.policies, tx.now, id) == Success(0)
  {}

  // A spend that goes through takes exactly the amount from the account, gives exactly the amount to
  // the recipient, moves nobody else's tokens, and can never be paid back to the account itself.
  lemma SpendMovesExactly(self: Address, s: SpendState, tx: SpendTx, id: Id, amount: uint256, dst: Address)
    requires Spend(self, s, tx, id, amount, dst).Success?
    ensures id in s.policies && tx.sender == s.policies[id].spender && s.policies[id].token in s.tokens
    ensures var p := s.policies[id];
            var s' := Spend(self, s, tx, id, amount, dst).value;
            && dst != p.account && amount <= p.perPayment
            && s'.tokens.Keys == s.tokens.Keys
            && (forall t :: t in s.tokens && t != p.token ==> s'.tokens[t] == s.tokens[t])
            && var l, l' := s.tokens[p.token], s'.tokens[p.token];
               && BalanceOf(l', p.account) == BalanceOf(l, p.account) - amount
               && BalanceOf(l', dst) == BalanceOf(l, dst) + amount
               && (forall a :: a != p.account && a != dst ==> BalanceOf(l', a) == BalanceOf(l, a))
  {
    var p := s.policies[id];
    TransferFromMoves(s.tokens[p.token], self, p.account, dst, amount);
  }
}
