/** Stretches of turns of a weighted-fair class: what its children use follows their shares. */
module ShareRuns {
  import opened TrafficClass
  import opened ShareHeap

  /** What child `id` used, and how often it ran, in the turns so far. */
  function Used(vs: seq<seq<Share>>, consumed: seq<nat>, id: int, k: nat): nat
    requires k <= |consumed| <= |vs|
  {
    if k == 0 then 0
    else Used(vs, consumed, id, k - 1) + if vs[k - 1] != [] && vs[k - 1][0].id == id then consumed[k - 1] else 0
  }

  function Turns(vs: seq<seq<Share>>, consumed: seq<nat>, id: int, k: nat): nat
    requires k <= |consumed| <= |vs|
  {
    if k == 0 then 0
    else Turns(vs, consumed, id, k - 1) + if vs[k - 1] != [] && vs[k - 1][0].id == id then 1 else 0
  }

  // ------------------------------------------------------------ children stay the same

  function Without<T>(s: seq<T>, j: nat): seq<T>
    requires j < |s|
  {
    s[..j] + s[j + 1..]
  }

  lemma WithoutOne<T>(s: seq<T>, j: nat)
    requires j < |s|
    ensures multiset(s) == multiset(Without(s, j)) + multiset{s[j]}
    ensures multiset(Without(s, j)) == multiset(s) - multiset{s[j]}
  {
    assert s == s[..j] + [s[j]] + s[j + 1..];
  }

  /** The same shares in another order are the same children. */
  lemma {:induction false} SameIds(v: seq<Share>, w: seq<Share>)
    requires multiset(v) == multiset(w)
    ensures Ids(v) == Ids(w)
  {
    if v == [] {
      assert |multiset(w)| == 0;
    } else {
      assert v[0] in multiset(w);
      var j :| 0 <= j < |w| && w[j] == v[0];
      WithoutOne(v, 0);
      WithoutOne(w, j);
      SameIds(Without(v, 0), Without(w, j));
      IdsWithout(v, 0);
      IdsWithout(w, j);
    }
  }

  lemma IdsWithout(v: seq<Share>, j: nat)
    requires j < |v|
    ensures Ids(v) == Ids(Without(v, j)) + multiset{v[j].id}
  {
    WithoutOne(ShareIds(v), j);
    assert ShareIds(Without(v, j)) == Without(ShareIds(v), j);
  }

  /** Different places hold different children. */
  lemma OnlyOnce(v: seq<Share>, i: nat, j: nat)
    requires Distinct(Ids(v)) && i < j < |v|
    ensures v[i].id != v[j].id
  {
    IdsWithout(v, j);
    assert ShareIds(Without(v, j))[i] == v[i].id;
    assert v[i].id in Ids(Without(v, j));
    assert Ids(v)[v[i].id] <= 1;
  }

  lemma {:induction false} StretchKeepsIds(vs: seq<seq<Share>>, consumed: seq<nat>, k: nat)
    requires Stretch(vs, consumed) && k <= |consumed|
    ensures Ids(vs[k]) == Ids(vs[0])
  {
    if k > 0 {
      StretchKeepsIds(vs, consumed, k - 1);
      assert Accounted(vs[k - 1], consumed[k - 1], vs[k - 1 + 1]);
      SameIds(vs[k], Raised(vs[k - 1], consumed[k - 1]));
      assert ShareIds(Raised(vs[k - 1], consumed[k - 1])) == ShareIds(vs[k - 1]);
    }
  }

  // ------------------------------------------------------------ passes follow usage

  lemma SameChild(v: seq<Share>, x: Share, y: Share)
    requires Distinct(Ids(v)) && x in v && y in v && x.id == y.id
    ensures x == y
  {
    var i :| 0 <= i < |v| && v[i] == x;
    var j :| 0 <= j < |v| && v[j] == y;
    if i < j {
      OnlyOnce(v, i, j);
    } else if j < i {
      OnlyOnce(v, j, i);
    }
  }

  /** Where a share of the queue after a turn was before it. */
  lemma ShareBefore(v: seq<Share>, consumed: nat, w: seq<Share>, y: Share) returns (i: nat)
    requires Accounted(v, consumed, w) && y in w
    ensures i < |v| && y == (if i == 0 then v[0].(pass := v[0].pass + Charge(v[0], consumed)) else v[i])
  {
    assert y in multiset(Raised(v, consumed));
    i :| 0 <= i < |v| && Raised(v, consumed)[i] == y;
  }

  /** One turn, for any child `y` of the queue after it. */
  lemma TurnKeepsFollowing(v: seq<Share>, consumed: nat, y: Share, i: nat, x: Share, used: nat, turns: nat)
    requires i < |v| && Distinct(Ids(v)) && Follows(x, v[i], used, turns) && x.id == v[i].id
    requires y == (if i == 0 then v[0].(pass := v[0].pass + Charge(v[0], consumed)) else v[i])
    ensures if v[0].id == x.id then Follows(x, y, used + consumed, turns + 1) else Follows(x, y, used, turns)
  {
    if i == 0 {
      TurnFollows(x, v[0], used, turns, consumed);
    } else {
      OnlyOnce(v, 0, i);
    }
  }

  lemma FollowsAtStart(x: Share)
    ensures Follows(x, x, 0, 0)
  {
  }

  /** `y` is what turn `k` made of the share at place `i`. */
  ghost predicate CameFrom(vs: seq<seq<Share>>, consumed: seq<nat>, k: nat, y: Share, i: nat) {
    && 0 < k <= |consumed| <= |vs| && i < |vs[k - 1]| && Distinct(Ids(vs[k - 1])) && y.id == vs[k - 1][i].id
    && y == if i == 0 then vs[k - 1][0].(pass := vs[k - 1][0].pass + Charge(vs[k - 1][0], consumed[k - 1])) else vs[k - 1][i]
  }

  /** The same, for the usage added up. */
  lemma {:induction false} UsageAddsUp(vs: seq<seq<Share>>, consumed: seq<nat>, k: nat, x: Share, y: Share, i: nat)
    requires CameFrom(vs, consumed, k, y, i) && x.id == y.id
    requires Follows(x, vs[k - 1][i], Used(vs, consumed, x.id, k - 1), Turns(vs, consumed, x.id, k - 1))
    ensures Follows(x, y, Used(vs, consumed, x.id, k), Turns(vs, consumed, x.id, k))
  {
    TurnKeepsFollowing(vs[k - 1], consumed[k - 1], y, i, x, Used(vs, consumed, x.id, k - 1), Turns(vs, consumed, x.id, k - 1));
  }

  lemma {:induction false} TurnBefore(vs: seq<seq<Share>>, consumed: seq<nat>, k: nat, y: Share) returns (i: nat)
    requires Stretch(vs, consumed) && 0 < k <= |consumed| && Distinct(Ids(vs[0])) && y in vs[k]
    ensures CameFrom(vs, consumed, k, y, i)
  {
    assert Accounted(vs[k - 1], consumed[k - 1], vs[k - 1 + 1]);
    i := ShareBefore(vs[k - 1], consumed[k - 1], vs[k], y);
    StretchKeepsIds(vs, consumed, k - 1);
  }

  lemma {:induction false} PassFollowsUsage(vs: seq<seq<Share>>, consumed: seq<nat>, k: nat, x: Share, y: Share)
    requires Stretch(vs, consumed) && k <= |consumed| && Distinct(Ids(vs[0]))
    requires x in vs[0] && y in vs[k] && x.id == y.id
    ensures Follows(x, y, Used(vs, consumed, x.id, k), Turns(vs, consumed, x.id, k))
  {
    if k == 0 {
      SameChild(vs[0], x, y);
      FollowsAtStart(x);
    } else {
      var i := TurnBefore(vs, consumed, k, y);
      PassFollowsUsage(vs, consumed, k - 1, x, vs[k - 1][i]);
      UsageAddsUp(vs, consumed, k, x, y, i);
    }
  }

  // ------------------------------------------------------------ service follows shares

  /** No turn is worth more than `most`. */
  ghost predicate TurnsWithin(vs: seq<seq<Share>>, consumed: seq<nat>, most: nat) {
    && |vs| == |consumed| + 1
    && forall i | 0 <= i < |consumed| :: vs[i] != [] && vs[i][0].stride * consumed[i] <= most
  }

  lemma TurnsAreCharges(vs: seq<seq<Share>>, consumed: seq<nat>, most: nat)
    requires TurnsWithin(vs, consumed, most)
    ensures ChargesWithin(vs, consumed, most / 1024)
  {
    forall i | 0 <= i < |consumed| ensures Charge(vs[i][0], consumed[i]) <= most / 1024 {
      Quotients(vs[i][0].stride * consumed[i], most);
    }
  }

  lemma Quotients(a: nat, b: nat)
    requires a <= b
    ensures a / 1024 <= b / 1024 && 1024 * (b / 1024) <= b
  {
  }

  /** Weighted fairness: in any stretch of turns from equal passes in which no child blocks, unblocks
      or is added, what any two children have used, each weighed by its stride, that is divided by
      its share, differs by no more than the largest single turn and rounding, less than one unit of
      pass per turn. */
  lemma {:induction false} ServiceFollowsShares(vs: seq<seq<Share>>, consumed: seq<nat>, most: nat, k: nat, x: Share, y: Share)
    requires Stretch(vs, consumed) && TurnsWithin(vs, consumed, most) && k <= |consumed|
    requires Within(vs[0], 0) && Distinct(Ids(vs[0])) && x in vs[0] && y in vs[0]
    ensures x.stride * Used(vs, consumed, x.id, k) - y.stride * Used(vs, consumed, y.id, k)
            <= most + 1023 * Turns(vs, consumed, x.id, k)
  {
    var x' := Descendant(vs, consumed, k, x);
    var y' := Descendant(vs, consumed, k, y);
    PassFollowsUsage(vs, consumed, k, x, x');
    PassFollowsUsage(vs, consumed, k, y, y');
    TurnsAreCharges(vs, consumed, most);
    PassesStayTogether(vs, consumed, most / 1024, k);
    Quotients(most, most);
    assert x.pass - y.pass <= 0 && y.pass - x.pass <= 0;
  }

  /** The share of the same child later on. */
  lemma {:induction false} Descendant(vs: seq<seq<Share>>, consumed: seq<nat>, k: nat, x: Share) returns (y: Share)
    requires Stretch(vs, consumed) && k <= |consumed| && x in vs[0]
    ensures y in vs[k] && y.id == x.id
  {
    StretchKeepsIds(vs, consumed, k);
    var i :| 0 <= i < |vs[0]| && vs[0][i] == x;
    assert ShareIds(vs[0])[i] == x.id;
    assert x.id in Ids(vs[k]);
    var j :| 0 <= j < |vs[k]| && ShareIds(vs[k])[j] == x.id;
    y := vs[k][j];
  }
}
