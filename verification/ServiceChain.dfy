/** The chain of network functions a flow's packets pass through: the loops over
    `service_chain_length_` in runtime/actor/flow_actor.cc. Packets and the state of each network
    function are opaque values. */
module ServiceChain {
  /** What one network function makes of a packet and its own state. */
  datatype Verdict = Verdict(keep: bool, pkt: int, fs: int)

  datatype Service = Service(logic: (nat, int, int) -> Verdict, init: seq<int>)

  datatype Result = Result(fs: seq<int>, pkt: int, keep: bool)

  /** The chain from function `i` on: it stops at the first function that rejects the packet. */
  function RunFrom(svc: Service, i: nat, fs: seq<int>, p: int): (r: Result)
    requires i <= |fs|
    ensures |r.fs| == |fs| && r.fs[..i] == fs[..i]
    decreases |fs| - i
  {
    if i == |fs| then Result(fs, p, true) else
      var v := svc.logic(i, p, fs[i]);
      var fs' := fs[i := v.fs];
      assert fs'[..i] == fs[..i];
      if !v.keep then Result(fs', v.pkt, false)
      else
        var r := RunFrom(svc, i + 1, fs', v.pkt);
        assert r.fs[..i] == r.fs[..i + 1][..i] == fs'[..i + 1][..i];
        r
  }

  function Run(svc: Service, fs: seq<int>, p: int): Result {
    RunFrom(svc, 0, fs, p)
  }

  /** `ps[i]` is what function `i` is given; the functions up to the last given one keep what they are
      given but perhaps that last one, each function leaves its own state, and the others keep theirs. */
  ghost predicate Chained(svc: Service, i: nat, fs: seq<int>, p: int, ps: seq<int>, r: Result) {
    var m := i + |ps| - 1;
    && |ps| >= 1 && m <= |fs| == |r.fs| && ps[0] == p && ps[m - i] == r.pkt
    && (forall j | i <= j < m :: Passes(svc, j, fs[j], ps[j - i], ps[j + 1 - i], r.fs[j]))
    && (forall j | i <= j < m - 1 :: svc.logic(j, ps[j - i], fs[j]).keep)
    && (forall j | 0 <= j < |fs| && !(i <= j < m) :: r.fs[j] == fs[j])
    && (r.keep <==> m == i || svc.logic(m - 1, ps[m - 1 - i], fs[m - 1]).keep)
    && (m < |fs| ==> !r.keep)
  }

  predicate Passes(svc: Service, j: nat, fs: int, given: int, made: int, fs': int) {
    var v := svc.logic(j, given, fs);
    v.pkt == made && v.fs == fs'
  }

  lemma {:induction false} RunFromIsChained(svc: Service, i: nat, fs: seq<int>, p: int) returns (ps: seq<int>)
    requires i <= |fs|
    ensures Chained(svc, i, fs, p, ps, RunFrom(svc, i, fs, p))
    decreases |fs| - i
  {
    if i == |fs| {
      ps := [p];
    } else {
      var v, r := svc.logic(i, p, fs[i]), RunFrom(svc, i, fs, p);
      if !v.keep {
        ps := [p, v.pkt];
      } else {
        var qs := RunFromIsChained(svc, i + 1, fs[i := v.fs], v.pkt);
        ps := [p] + qs;
        ChainedFirst(svc, i, fs, p, qs, r);
      }
    }
  }

  /** One function before the rest. */
  lemma ChainedFirst(svc: Service, i: nat, fs: seq<int>, p: int, qs: seq<int>, r: Result)
    requires i < |fs| && svc.logic(i, p, fs[i]).keep
    requires var v := svc.logic(i, p, fs[i]); Chained(svc, i + 1, fs[i := v.fs], v.pkt, qs, r)
    ensures Chained(svc, i, fs, p, [p] + qs, r)
  {
    var v, ps := svc.logic(i, p, fs[i]), [p] + qs;
    var m := i + |ps| - 1;
    assert forall k | 0 <= k < |qs| :: ps[k + 1] == qs[k];
    assert r.fs[i] == fs[i := v.fs][i];
    forall j | i <= j < m ensures Passes(svc, j, fs[j], ps[j - i], ps[j + 1 - i], r.fs[j]) {
      if j > i {
        assert Passes(svc, j, fs[i := v.fs][j], qs[j - i - 1], qs[j - i], r.fs[j]);
      }
    }
    forall j | i <= j < m - 1 ensures svc.logic(j, ps[j - i], fs[j]).keep {
      if j > i {
        assert svc.logic(j, qs[j - (i + 1)], fs[i := v.fs][j]).keep;
      }
    }
    forall j | 0 <= j < |fs| && !(i <= j < m) ensures r.fs[j] == fs[j] {
      assert r.fs[j] == fs[i := v.fs][j];
    }
  }

  /** Function `i` is given what function `i - 1` made of the packet, exactly when none before it has
      rejected the packet; the functions after the first rejection keep their states. */
  lemma {:induction false} RunIsChained(svc: Service, fs: seq<int>, p: int) returns (ps: seq<int>)
    ensures Chained(svc, 0, fs, p, ps, Run(svc, fs, p))
  {
    ps := RunFromIsChained(svc, 0, fs, p);
  }

  /** The state after a whole run of packets. */
  function Fold(svc: Service, fs: seq<int>, ps: seq<int>): seq<int> {
    if ps == [] then fs else Run(svc, Fold(svc, fs, ps[..|ps| - 1]), ps[|ps| - 1]).fs
  }

  lemma {:induction false} FoldOneMore(svc: Service, fs: seq<int>, ps: seq<int>, p: int)
    ensures Fold(svc, fs, ps + [p]) == Run(svc, Fold(svc, fs, ps), p).fs
  {
    assert (ps + [p])[..|ps|] == ps;
  }

  lemma {:induction false} FoldSplit(svc: Service, fs: seq<int>, ps: seq<int>, qs: seq<int>)
    ensures Fold(svc, fs, ps + qs) == Fold(svc, Fold(svc, fs, ps), qs)
    decreases |qs|
  {
    if qs == [] {
      assert ps + qs == ps;
    } else {
      var q, qs' := qs[|qs| - 1], qs[..|qs| - 1];
      assert qs' + [q] == qs && ps + qs == (ps + qs') + [q];
      FoldOneMore(svc, fs, ps + qs', q);
      FoldSplit(svc, fs, ps, qs');
    }
  }

  /** The processing loop, in place on the flow's states. */
  method Process(svc: Service, fs: array<int>, p: int) returns (pkt: int, keep: bool)
    modifies fs
    ensures Result(fs[..], pkt, keep) == Run(svc, old(fs[..]), p)
  {
    pkt, keep := p, true;
    var i := 0;
    while i < fs.Length
      invariant 0 <= i <= fs.Length && keep
      invariant RunFrom(svc, i, fs[..], pkt) == Run(svc, old(fs[..]), p)
    {
      var v := svc.logic(i, pkt, fs[i]);
      ghost var before := fs[..];
      fs[i] := v.fs;
      assert fs[..] == before[i := v.fs];
      pkt, keep := v.pkt, v.keep;
      if !keep {
        break;
      }
      i := i + 1;
    }
  }

  /** The drain loop of a migration target: buffered packets in the order they arrived. Those the
      chain keeps are sent on, the others are dropped. */
  method Drain(svc: Service, fs: array<int>, buffer: seq<int>) returns (sent: seq<int>)
    modifies fs
    ensures fs[..] == Fold(svc, old(fs[..]), buffer)
    ensures sent == Kept(svc, old(fs[..]), buffer)
  {
    sent := [];
    var k := 0;
    while k < |buffer|
      invariant 0 <= k <= |buffer|
      invariant fs[..] == Fold(svc, old(fs[..]), buffer[..k])
      invariant sent == Kept(svc, old(fs[..]), buffer[..k])
    {
      assert buffer[..k + 1] == buffer[..k] + [buffer[k]];
      FoldOneMore(svc, old(fs[..]), buffer[..k], buffer[k]);
      KeptOneMore(svc, old(fs[..]), buffer[..k], buffer[k]);
      var pkt, keep := Process(svc, fs, buffer[k]);
      if keep {
        sent := sent + [pkt];
      }
      k := k + 1;
    }
    assert buffer[..k] == buffer;
  }

  /** What comes out of the chain for a run of packets. */
  function Kept(svc: Service, fs: seq<int>, ps: seq<int>): seq<int> {
    if ps == [] then [] else
      var n := |ps| - 1;
      var r := Run(svc, Fold(svc, fs, ps[..n]), ps[n]);
      Kept(svc, fs, ps[..n]) + if r.keep then [r.pkt] else []
  }

  lemma {:induction false} KeptOneMore(svc: Service, fs: seq<int>, ps: seq<int>, p: int)
    ensures var r := Run(svc, Fold(svc, fs, ps), p);
      Kept(svc, fs, ps + [p]) == Kept(svc, fs, ps) + if r.keep then [r.pkt] else []
  {
    assert (ps + [p])[..|ps|] == ps;
  }
}
