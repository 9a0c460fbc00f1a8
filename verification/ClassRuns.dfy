/** Whole runs of one class: what a limiter lets through over time, and whose turn it is under
    round robin. */
module ClassRuns {
  import opened TrafficClass
  import opened PolicyStep

  function Sum(used: seq<nat>): nat {
    if used == [] then 0 else Sum(used[..|used| - 1]) + used[|used| - 1]
  }

  /** A limiter run at `times`, each time after its expiration, using `used`. `ms[k]` is its
      meter before run `k`. */
  ghost predicate LimiterRun(ms: seq<Meter>, times: seq<nat>, used: seq<nat>) {
    && |times| == |used| && |ms| == |used| + 1
    && ms[0].limit > 0 && ms[0].tokens == 0 && ms[0].throttle == 0 && ms[0].since < 0 && ms[0].charged == 0
    && (forall k | 0 <= k < |times| :: times[k] > 0)
    && (forall k | 0 < k < |times| :: times[k - 1] <= times[k])
    && (forall k | 0 <= k < |used| :: RunsAt(ms[k], ms[k + 1], times[k], used[k]))
  }

  ghost predicate RunsAt(m: Meter, n: Meter, time: nat, used: nat) {
    && m.limit > 0
    && (m.throttle != 0 ==> m.throttle < time)
    && n == Settle(m.(throttle := 0), used, time)
  }

  lemma {:induction false} RunMetered(ms: seq<Meter>, times: seq<nat>, used: seq<nat>, k: nat)
    requires LimiterRun(ms, times, used) && k <= |used|
    ensures ms[k].limit == ms[0].limit && ms[k].charged == AMPLIFIER * Sum(used[..k])
    ensures k > 0 ==> Metered(ms[k], times[k - 1]) && ms[k].since == times[0]
    ensures k == 0 ==> Metered(ms[0], 0)
  {
    if k > 0 {
      RunMetered(ms, times, used, k - 1);
      var m, t := ms[k - 1], times[k - 1];
      assert RunsAt(ms[k - 1], ms[k - 1 + 1], times[k - 1], used[k - 1]);
      TimeKeeps(m, if k > 1 then times[k - 2] else 0, t);
      SettleKeeps(m.(throttle := 0), used[k - 1], t);
      assert used[..k][..k - 1] == used[..k - 1];
    }
  }

  function Elapsed(from: int, to: int): int {
    to - from
  }

  /** What a limiter has charged before its run at times[k] is at most its limit for every unit
      of time since its first run: no burst is ever let through. */
  lemma LimitIsKept(ms: seq<Meter>, times: seq<nat>, used: seq<nat>, k: nat)
    requires LimiterRun(ms, times, used) && k < |times|
    ensures AMPLIFIER * Sum(used[..k]) <= ms[0].limit * Elapsed(times[0], times[k])
  {
    RunMetered(ms, times, used, k);
    if k > 0 {
      assert RunsAt(ms[k], ms[k + 1], times[k], used[k]);
      TimeKeeps(ms[k], times[k - 1], times[k]);
      assert Metered(ms[k].(throttle := 0), times[k]);
    }
  }

  /** Successive states of a round-robin class while no child blocks, unblocks or is added. */
  ghost predicate Turns(ps: seq<Policy>, usage: Usage, tsc: nat) {
    && ps != [] && ps[0].RoundRobin?
    && forall k | 0 < k < |ps| :: Finished(ps[k - 1], ps[k], false, usage, tsc)
  }

  lemma {:induction false} TurnAfter(ps: seq<Policy>, usage: Usage, tsc: nat, m: nat, k: nat)
    requires Turns(ps, usage, tsc) && m + k < |ps|
    requires ps[m].RoundRobin? && ps[m].next < |ps[m].ready| && k <= |ps[m].ready|
    ensures ps[m + k].RoundRobin? && ps[m + k].ready == ps[m].ready
    ensures var n := |ps[m].ready|; ps[m + k].next == if ps[m].next + k < n then ps[m].next + k else ps[m].next + k - n
  {
    if k > 0 {
      TurnAfter(ps, usage, tsc, m, k - 1);
      assert Finished(ps[m + k - 1], ps[m + k], false, usage, tsc);
    }
  }

  /** At turn m + i it is not child number `j` that is next. */
  ghost predicate OthersTurn(ps: seq<Policy>, m: nat, i: nat, j: nat) {
    m + i < |ps| && ps[m + i].RoundRobin? && ps[m + i].next != j
  }

  /** In any n consecutive turns over n ready children each child is picked, and at one turn only. */
  lemma EveryChildOnce(ps: seq<Policy>, usage: Usage, tsc: nat, m: nat, j: nat) returns (k: nat)
    requires Turns(ps, usage, tsc) && m < |ps|
    requires ps[m].RoundRobin? && ps[m].next < |ps[m].ready| && m + |ps[m].ready| <= |ps| && j < |ps[m].ready|
    ensures k < |ps[m].ready| && Pick(ps[m + k]) == ps[m].ready[j]
    ensures forall i | 0 <= i < |ps[m].ready| && i != k :: OthersTurn(ps, m, i, j)
  {
    var s, n := ps[m].next, |ps[m].ready|;
    k := if s <= j then j - s else j - s + n;
    TurnAfter(ps, usage, tsc, m, k);
    forall i | 0 <= i < n && i != k ensures OthersTurn(ps, m, i, j) {
      TurnAfter(ps, usage, tsc, m, i);
    }
  }
}
