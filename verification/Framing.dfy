/** How messages are cut into packets and put together again:
    runtime/reliable/reliable_p2p.h and runtime/reliable/base/reliable_message_misc.h. */
module Framing {
  import opened Packets

  const CSTRUCT_TAG: nat := 0xA1F2DE2399BC7764
  const FLOW_STATE_TAG: nat := 0xB203F2F310AC2741
  const PACKET_TAG: nat := 0xDFFD033011227A64

  const HEADER_BYTES: nat := 16    // sizeof(reliable_message_header)
  const TAG_BYTES: nat := 8        // sizeof(uint64_t)

  /** Little-endian encoding in `k` bytes. */
  function Bytes(n: nat, k: nat): (p: Payload)
    ensures |p| == k
  {
    if k == 0 then [] else [(n % 256) as Byte] + Bytes(n / 256, k - 1)
  }

  function Value(p: Payload): nat {
    if p == [] then 0 else p[0] as nat + 256 * Value(p[1..])
  }

  function Pow256(k: nat): nat {
    if k == 0 then 1 else 256 * Pow256(k - 1)
  }

  lemma {:induction false} BytesRoundTrip(n: nat, k: nat)
    requires n < Pow256(k)
    ensures Value(Bytes(n, k)) == n
  {
    if k > 0 {
      BytesRoundTrip(n / 256, k - 1);
      assert Bytes(n, k)[1..] == Bytes(n / 256, k - 1);
    }
  }

  /** `adj`: strip bytes from the front. */
  function Adj(p: Payload, n: nat): Payload {
    if n <= |p| then p[n..] else []
  }

  /** The integer stored little-endian at offset `at` in `k` bytes. */
  function Field(p: Payload, at: nat, k: nat): nat {
    if at + k <= |p| then Value(p[at..at + k]) else 0
  }

  lemma {:induction false} FieldReads(before: Payload, n: nat, k: nat, after: Payload)
    requires n < Pow256(k)
    ensures Field(before + Bytes(n, k) + after, |before|, k) == n
  {
    var p := before + Bytes(n, k) + after;
    assert p[|before|..|before| + k] == Bytes(n, k);
    BytesRoundTrip(n, k);
  }

  datatype Header = Header(sendActor: nat, recvActor: nat, msgId: nat, msgType: nat, pktNum: nat) {
    predicate Fits() {
      && sendActor < 0x1_0000_0000 && recvActor < 0x1_0000_0000 && msgId < 0x1_0000_0000
      && msgType < 0x1_0000 && pktNum < 0x1_0000
    }

    function Encode(): (p: Payload)
      ensures |p| == HEADER_BYTES
    {
      Bytes(sendActor, 4) + Bytes(recvActor, 4) + Bytes(msgId, 4) + Bytes(msgType, 2) + Bytes(pktNum, 2)
    }
  }

  function DecodeHeader(p: Payload): Header {
    Header(Field(p, 0, 4), Field(p, 4, 4), Field(p, 8, 4), Field(p, 12, 2), Field(p, 14, 2))
  }

  lemma PowersOf256()
    ensures Pow256(1) == 0x100 && Pow256(2) == 0x1_0000 && Pow256(4) == 0x1_0000_0000
    ensures Pow256(8) == 0x1_0000_0000_0000_0000
  {
    assert Pow256(3) == 256 * Pow256(2);
    assert Pow256(5) == 256 * Pow256(4);
    assert Pow256(6) == 256 * Pow256(5);
    assert Pow256(7) == 256 * Pow256(6);
  }

  lemma HeaderRoundTrip(h: Header, rest: Payload)
    requires h.Fits()
    ensures DecodeHeader(h.Encode() + rest) == h
    ensures Adj(h.Encode() + rest, HEADER_BYTES) == rest
  {
    PowersOf256();
    var a, b, c := Bytes(h.sendActor, 4), Bytes(h.recvActor, 4), Bytes(h.msgId, 4);
    var d, e := Bytes(h.msgType, 2), Bytes(h.pktNum, 2);
    var p := h.Encode() + rest;
    assert p == [] + a + (b + c + d + e + rest);
    FieldReads([], h.sendActor, 4, b + c + d + e + rest);
    assert p == a + b + (c + d + e + rest);
    FieldReads(a, h.recvActor, 4, c + d + e + rest);
    assert p == (a + b) + c + (d + e + rest);
    FieldReads(a + b, h.msgId, 4, d + e + rest);
    assert p == (a + b + c) + d + (e + rest);
    FieldReads(a + b + c, h.msgType, 2, e + rest);
    assert p == (a + b + c + d) + e + rest;
    FieldReads(a + b + c + d, h.pktNum, 2, rest);
  }

  /** What a caller hands to one of the two `reliable_send` overloads in use. */
  datatype Message =
    | CStruct(sendActor: nat, recvActor: nat, msgId: nat, msgType: nat, body: Payload)
    | States(sendActor: nat, recvActor: nat, msgId: nat, msgType: nat, bodies: seq<Payload>)
  {
    function PktNum(): nat {
      if CStruct? then 1 else |bodies|
    }

    function Head(): Header {
      Header(sendActor, recvActor, msgId, msgType, PktNum())
    }

    /** A packet batch holds 1 to 32 packets, and the C types bound the header fields. */
    predicate Fits() {
      && sendActor < 0x1_0000_0000 && recvActor < 0x1_0000_0000 && msgId < 0x1_0000_0000
      && msgType < 0x1_0000
      && 1 <= PktNum() <= MAX_BURST
    }
  }

  function Encode(m: Message): (ps: seq<Payload>)
    requires m.Fits()
    ensures |ps| == m.PktNum()
  {
    match m
    case CStruct(_, _, _, _, body) => [m.Head().Encode() + (Bytes(CSTRUCT_TAG, TAG_BYTES) + body)]
    case States(_, _, _, _, bodies) =>
      [m.Head().Encode() +
       (Bytes(FLOW_STATE_TAG, TAG_BYTES) + (Bytes(|bodies|, 1) + bodies[0]))] + bodies[1..]
  }

  /** `reliable_single_msg`: one object per connection, reused for every message. */
  datatype Single = Single(header: Header, cstruct: Payload, states: seq<Payload>, raw: Payload)

  const NO_MESSAGE := Single(Header(0, 0, 0, 0, 0), [], [], [])

  function Clean(s: Single): Single {
    s.(states := [])
  }

  function Tag(p: Payload): nat {
    Field(p, 0, TAG_BYTES)
  }

  function Num(p: Payload): nat {
    Field(p, TAG_BYTES, 1)
  }

  /** Every sub-message stays inside the batch and takes at least one packet; otherwise the
      loop in `format` would read past the batch or never advance. */
  predicate WellTagged(batch: seq<Payload>, i: nat)
    requires i <= |batch|
    decreases |batch| - i
  {
    i == |batch| ||
    if Tag(batch[i]) == CSTRUCT_TAG then WellTagged(batch, i + 1)
    else if Tag(batch[i]) == FLOW_STATE_TAG || Tag(batch[i]) == PACKET_TAG then
      1 <= Num(batch[i]) <= |batch| - i && WellTagged(batch, i + Num(batch[i]))
    else true
  }

  /** Every packet at which `format` looks for a tag, and for a number of packets, holds one. */
  predicate TagsInside(batch: seq<Payload>, i: nat)
    requires i <= |batch| && WellTagged(batch, i)
    decreases |batch| - i
  {
    i == |batch| ||
    (&& |batch[i]| >= TAG_BYTES
     && (Tag(batch[i]) == CSTRUCT_TAG ==> TagsInside(batch, i + 1))
     && (Tag(batch[i]) == FLOW_STATE_TAG || Tag(batch[i]) == PACKET_TAG ==>
           |batch[i]| >= TAG_BYTES + 1 && TagsInside(batch, i + Num(batch[i]))))
  }

  /** A packet that may be taken next: the first of a message holds its header, and a batch it
      completes can be read by `format`, tag by tag, inside the packets. */
  predicate Takes(r: Reassembly, p: Payload) {
    && (r.batch == [] ==> |p| >= HEADER_BYTES)
    && var j := Join(r, p);
       Complete(j) ==> WellTagged(j.batch, 0) && TagsInside(j.batch, 0)
  }

  /** `format` from index `i` on; None is its `false`. */
  function Format(s: Single, batch: seq<Payload>, i: nat): (bool, Single)
    requires i <= |batch| && WellTagged(batch, i)
    decreases |batch| - i
  {
    if i == |batch| then (true, s)
    else if Tag(batch[i]) == CSTRUCT_TAG then
      Format(s.(cstruct := Adj(batch[i], TAG_BYTES)), batch, i + 1)
    else if Tag(batch[i]) == FLOW_STATE_TAG then
      var n := Num(batch[i]);
      Format(s.(states := s.states + [Adj(batch[i], TAG_BYTES + 1)] + batch[i + 1..i + n]), batch, i + n)
    else if Tag(batch[i]) == PACKET_TAG then
      var n := Num(batch[i]);
      var first := Adj(batch[i], TAG_BYTES + 1);
      Format(s.(raw := if n == 2 then first + batch[i + 1] else first), batch, i + n)
    else (false, s)
  }

  /** The message being put together. */
  datatype Reassembly = Reassembly(batch: seq<Payload>, msg: Single)

  const IDLE := Reassembly([], NO_MESSAGE)

  /** The packet joined to the batch; the first one carries the message header. */
  function Join(r: Reassembly, p: Payload): Reassembly {
    if r.batch == [] then
      Reassembly([Adj(p, HEADER_BYTES)], r.msg.(header := DecodeHeader(p)))
    else r.(batch := r.batch + [p])
  }

  predicate Complete(r: Reassembly) {
    |r.batch| == r.msg.header.pktNum
  }

  /** One accepted packet: the message it completes, if any, as the handler sees it, and the
      state once the caller has cleaned up. */
  function Feed(r: Reassembly, p: Payload): (Reassembly, seq<Single>) {
    var j := Join(r, p);
    if !Complete(j) || !WellTagged(j.batch, 0) then (j, [])
    else
      var (ok, s) := Format(j.msg, j.batch, 0);
      (Reassembly([], Clean(s)), if ok then [s] else [])
  }

  function After(r: Reassembly, ps: seq<Payload>): Reassembly
    decreases ps
  {
    if ps == [] then r else After(Feed(r, ps[0]).0, ps[1..])
  }

  function Output(r: Reassembly, ps: seq<Payload>): seq<Single>
    decreases ps
  {
    if ps == [] then [] else Feed(r, ps[0]).1 + Output(Feed(r, ps[0]).0, ps[1..])
  }

  lemma {:induction false} FeedConcat(r: Reassembly, ps: seq<Payload>, qs: seq<Payload>)
    ensures After(r, ps + qs) == After(After(r, ps), qs)
    ensures Output(r, ps + qs) == Output(r, ps) + Output(After(r, ps), qs)
    decreases ps
  {
    if ps == [] {
      assert ps + qs == qs;
    } else {
      assert (ps + qs)[1..] == ps[1..] + qs;
      FeedConcat(Feed(r, ps[0]).0, ps[1..], qs);
    }
  }

  lemma {:induction false} FeedOneMore(r: Reassembly, ps: seq<Payload>, p: Payload)
    ensures After(r, ps + [p]) == Feed(After(r, ps), p).0
    ensures Output(r, ps + [p]) == Output(r, ps) + Feed(After(r, ps), p).1
  {
    FeedConcat(r, ps, [p]);
    assert After(Feed(After(r, ps), p).0, []) == Feed(After(r, ps), p).0;
    assert Output(Feed(After(r, ps), p).0, []) == [];
  }

  /** The handler of `m` finds its header and its contents. */
  ghost predicate Carries(m: Message, s: Single) {
    && s.header == m.Head()
    && match m
       case CStruct(_, _, _, _, body) => s.cstruct == body && s.states == []
       case States(_, _, _, _, bodies) => s.states == bodies
  }

  ghost predicate Fresh(r: Reassembly) {
    r.batch == [] && r.msg.states == []
  }

  /** The packets of one message with the message header taken off. */
  function Strip(ps: seq<Payload>): (batch: seq<Payload>)
    requires ps != []
    ensures |batch| == |ps|
  {
    [Adj(ps[0], HEADER_BYTES)] + ps[1..]
  }

  lemma EncodedHeader(m: Message)
    requires m.Fits()
    ensures DecodeHeader(Encode(m)[0]) == m.Head()
  {
    match m
    case CStruct(_, _, _, _, body) =>
      HeaderRoundTrip(m.Head(), Bytes(CSTRUCT_TAG, TAG_BYTES) + body);
    case States(_, _, _, _, bodies) =>
      HeaderRoundTrip(m.Head(), Bytes(FLOW_STATE_TAG, TAG_BYTES) + (Bytes(|bodies|, 1) + bodies[0]));
  }

  lemma CStructBatch(m: Message)
    requires m.Fits() && m.CStruct?
    ensures
      var p := Strip(Encode(m))[0];
      |p| >= TAG_BYTES && Tag(p) == CSTRUCT_TAG && Adj(p, TAG_BYTES) == m.body
  {
    PowersOf256();
    var tag := Bytes(CSTRUCT_TAG, TAG_BYTES);
    HeaderRoundTrip(m.Head(), tag + m.body);
    FieldReads([], CSTRUCT_TAG, TAG_BYTES, m.body);
    assert [] + tag + m.body == tag + m.body;
  }

  lemma StatesBatch(m: Message)
    requires m.Fits() && m.States?
    ensures
      var p := Strip(Encode(m))[0];
      |p| >= TAG_BYTES + 1 && Tag(p) == FLOW_STATE_TAG && Num(p) == |m.bodies| && Adj(p, TAG_BYTES + 1) == m.bodies[0]
  {
    PowersOf256();
    var tag, num := Bytes(FLOW_STATE_TAG, TAG_BYTES), Bytes(|m.bodies|, 1);
    HeaderRoundTrip(m.Head(), tag + (num + m.bodies[0]));
    FieldReads([], FLOW_STATE_TAG, TAG_BYTES, num + m.bodies[0]);
    assert [] + tag + (num + m.bodies[0]) == tag + (num + m.bodies[0]) == tag + num + m.bodies[0];
    FieldReads(tag, |m.bodies|, 1, m.bodies[0]);
  }

  /** After the first packet of a state message, the rest of its states follow as they are. */
  lemma StatesFollow(m: Message)
    requires m.Fits() && m.States?
    ensures |Strip(Encode(m))| == |m.bodies| && [m.bodies[0]] + Strip(Encode(m))[1..|m.bodies|] == m.bodies
  {
    assert Strip(Encode(m))[1..] == m.bodies[1..];
  }

  lemma {:induction false} StatesFormatBack(m: Message, s: Single)
    requires m.Fits() && m.States? && s.states == [] && s.header == m.Head()
    ensures WellTagged(Strip(Encode(m)), 0) && TagsInside(Strip(Encode(m)), 0)
    ensures Format(s, Strip(Encode(m)), 0).0 && Carries(m, Format(s, Strip(Encode(m)), 0).1)
  {
    var batch, n := Strip(Encode(m)), |m.bodies|;
    StatesBatch(m);
    StatesFollow(m);
    assert WellTagged(batch, n) && TagsInside(batch, n);
    StatesFormat(s, batch, n);
    assert s.states + [m.bodies[0]] + batch[1..n] == [m.bodies[0]] + batch[1..n];
  }

  /** `format` of a batch that is one run of states. */
  lemma {:induction false} StatesFormat(s: Single, batch: seq<Payload>, n: nat)
    requires 0 < n == |batch| && |batch[0]| >= TAG_BYTES + 1 && Tag(batch[0]) == FLOW_STATE_TAG && Num(batch[0]) == n
    ensures WellTagged(batch, 0)
    ensures Format(s, batch, 0) == (true, s.(states := s.states + [Adj(batch[0], TAG_BYTES + 1)] + batch[1..n]))
  {
    assert WellTagged(batch, n);
    var t := s.(states := s.states + [Adj(batch[0], TAG_BYTES + 1)] + batch[1..n]);
    assert Format(t, batch, n) == (true, t);
  }

  /** The batch of a whole message formats to that message. */
  lemma {:induction false} FormatsBack(m: Message, s: Single)
    requires m.Fits() && s.states == [] && s.header == m.Head()
    ensures WellTagged(Strip(Encode(m)), 0) && TagsInside(Strip(Encode(m)), 0)
    ensures Format(s, Strip(Encode(m)), 0).0 && Carries(m, Format(s, Strip(Encode(m)), 0).1)
  {
    var batch := Strip(Encode(m));
    if m.CStruct? {
      CStructBatch(m);
      assert WellTagged(batch, 1) && TagsInside(batch, 1);
    } else {
      StatesFormatBack(m, s);
    }
  }

  /** The state part-way through a message whose packets are `ps`. */
  function Partly(ps: seq<Payload>, k: nat, msg: Single): Reassembly
    requires 0 < k <= |ps|
  {
    Reassembly(Strip(ps)[..k], msg.(header := DecodeHeader(ps[0])))
  }

  lemma JoinPartly(ps: seq<Payload>, k: nat, msg: Single)
    requires 0 < k < |ps|
    ensures Join(Partly(ps, k, msg), ps[k]) == Partly(ps, k + 1, msg)
  {
    assert Strip(ps)[..k + 1] == Strip(ps)[..k] + [ps[k]];
  }

  /** Nothing comes out before the last packet of a message. */
  lemma {:induction false} PartialMessage(ps: seq<Payload>, r: Reassembly, k: nat)
    requires 0 < k < |ps| == DecodeHeader(ps[0]).pktNum && r.batch == []
    ensures After(r, ps[..k]) == Partly(ps, k, r.msg)
    ensures Output(r, ps[..k]) == []
  {
    var before := if k == 1 then r else Partly(ps, k - 1, r.msg);
    if k == 1 {
      assert ps[..k - 1] == [];
    } else {
      PartialMessage(ps, r, k - 1);
      JoinPartly(ps, k - 1, r.msg);
    }
    assert ps[..k] == ps[..k - 1] + [ps[k - 1]];
    FeedOneMore(r, ps[..k - 1], ps[k - 1]);
    assert Feed(before, ps[k - 1]) == (Partly(ps, k, r.msg), []);
  }

  /** The last packet completes the batch. */
  lemma {:induction false} LastPacket(ps: seq<Payload>, r: Reassembly)
    requires 0 < |ps| == DecodeHeader(ps[0]).pktNum && r.batch == []
    ensures
      var msg := r.msg.(header := DecodeHeader(ps[0]));
      WellTagged(Strip(ps), 0) ==>
      var (ok, s) := Format(msg, Strip(ps), 0);
      After(r, ps) == Reassembly([], Clean(s)) && Output(r, ps) == if ok then [s] else []
  {
    var n := |ps|;
    var before := if n == 1 then r else Partly(ps, n - 1, r.msg);
    if n == 1 {
      assert ps[..n - 1] == [];
    } else {
      PartialMessage(ps, r, n - 1);
      JoinPartly(ps, n - 1, r.msg);
    }
    assert ps == ps[..n - 1] + [ps[n - 1]];
    FeedOneMore(r, ps[..n - 1], ps[n - 1]);
    assert Strip(ps)[..n] == Strip(ps);
    assert Join(before, ps[n - 1]) == Partly(ps, n, r.msg);
  }

  /** All packets of a message bring exactly that message out. */
  lemma {:induction false} WholeMessage(m: Message, r: Reassembly)
    requires m.Fits() && Fresh(r)
    ensures
      var out := Output(r, Encode(m));
      Fresh(After(r, Encode(m))) && |out| == 1 && Carries(m, out[0])
  {
    EncodedHeader(m);
    LastPacket(Encode(m), r);
    FormatsBack(m, r.msg.(header := m.Head()));
  }

  /** The packets of a sequence of messages, in sending order. */
  function Flatten(ms: seq<Message>): seq<Payload>
    requires forall i :: 0 <= i < |ms| ==> ms[i].Fits()
  {
    if ms == [] then [] else Encode(ms[0]) + Flatten(ms[1..])
  }

  /** How many messages are complete within the first `k` packets. */
  function CompleteWithin(ms: seq<Message>, k: nat): (n: nat)
    requires forall i :: 0 <= i < |ms| ==> ms[i].Fits()
    ensures n <= |ms|
  {
    if ms == [] || k < ms[0].PktNum() then 0
    else 1 + CompleteWithin(ms[1..], k - ms[0].PktNum())
  }

  lemma {:induction false} FlattenSplit(ms: seq<Message>, k: nat)
    requires forall i :: 0 <= i < |ms| ==> ms[i].Fits()
    requires ms != [] && k <= |Flatten(ms)|
    ensures
      var (ps, rest) := (Encode(ms[0]), Flatten(ms[1..]));
      if k < |ps| then Flatten(ms)[..k] == ps[..k] && Flatten(ms)[k] == ps[k]
      else
        && k - |ps| <= |rest|
        && Flatten(ms)[..k] == ps + rest[..k - |ps|]
        && (k < |Flatten(ms)| ==> Flatten(ms)[k] == rest[k - |ps|])
  {
    var ps, rest, all := Encode(ms[0]), Flatten(ms[1..]), Flatten(ms);
    assert all == ps + rest;
    SplitJoined(ps, rest, all, k);
  }

  lemma SplitJoined(ps: seq<Payload>, rest: seq<Payload>, all: seq<Payload>, k: nat)
    requires all == ps + rest && k <= |all|
    ensures k < |ps| ==> all[..k] == ps[..k] && all[k] == ps[k]
    ensures k >= |ps| ==> all[..k] == ps + rest[..k - |ps|] && (k < |all| ==> all[k] == rest[k - |ps|])
  {
  }

  /** What comes out of a stream whose first packets are a whole message. */
  lemma WholeMessageFirst(m: Message, r: Reassembly, ps: seq<Payload>, rest: seq<Payload>)
    returns (s: Single)
    requires m.Fits() && Fresh(r) && ps == Encode(m)
    ensures Fresh(After(r, ps)) && Carries(m, s)
    ensures Output(r, ps + rest) == [s] + Output(After(r, ps), rest)
  {
    WholeMessage(m, r);
    FeedConcat(r, ps, rest);
    s := Output(r, ps)[0];
    assert Output(r, ps) == [s];
  }

  ghost predicate Delivers(ms: seq<Message>, out: seq<Single>) {
    |out| <= |ms| && forall i :: 0 <= i < |out| ==> Carries(ms[i], out[i])
  }

  /** A first message before the rest of what is complete within `k` packets. */
  lemma {:induction false} FirstDelivers(ms: seq<Message>, s: Single, out': seq<Single>, k: nat)
    requires forall i :: 0 <= i < |ms| ==> ms[i].Fits()
    requires ms != [] && k >= ms[0].PktNum() && Carries(ms[0], s)
    requires |out'| == CompleteWithin(ms[1..], k - ms[0].PktNum()) && Delivers(ms[1..], out')
    ensures |[s] + out'| == CompleteWithin(ms, k) && Delivers(ms, [s] + out')
  {
    var out := [s] + out';
    forall i | 0 <= i < |out| ensures Carries(ms[i], out[i]) {
      if i > 0 {
        assert ms[i] == ms[1..][i - 1] && out[i] == out'[i - 1];
      }
    }
  }

  /** Framing round trip: from any prefix of the packet stream exactly the messages complete
      in it come out, in order, each with its own header and contents. */
  lemma {:induction false} PrefixDelivers(ms: seq<Message>, r: Reassembly, k: nat)
    requires forall i :: 0 <= i < |ms| ==> ms[i].Fits()
    requires Fresh(r) && k <= |Flatten(ms)|
    ensures |Output(r, Flatten(ms)[..k])| == CompleteWithin(ms, k)
    ensures Delivers(ms, Output(r, Flatten(ms)[..k]))
    decreases |ms|
  {
    if ms == [] || k == 0 {
      assert Flatten(ms)[..k] == [];
    } else {
      var m, n := ms[0], ms[0].PktNum();
      FlattenSplit(ms, k);
      if k < n {
        EncodedHeader(m);
        PartialMessage(Encode(m), r, k);
      } else {
        var rest := Flatten(ms[1..])[..k - n];
        var s := WholeMessageFirst(m, r, Encode(m), rest);
        PrefixDelivers(ms[1..], After(r, Encode(m)), k - n);
        FirstDelivers(ms, s, Output(After(r, Encode(m)), rest), k);
      }
    }
  }

  /** Within one message, the next packet may be taken. */
  lemma {:induction false} ReadableWithin(m: Message, r: Reassembly, k: nat)
    requires m.Fits() && Fresh(r) && k < m.PktNum()
    ensures Takes(After(r, Encode(m)[..k]), Encode(m)[k])
  {
    var ps, n := Encode(m), m.PktNum();
    EncodedHeader(m);
    if k == 0 {
      assert ps[..0] == [];
      assert Join(r, ps[0]) == Partly(ps, 1, r.msg);
    } else {
      PartialMessage(ps, r, k);
      JoinPartly(ps, k, r.msg);
    }
    if k + 1 == n {
      FormatsBack(m, NO_MESSAGE.(header := m.Head()));
      assert Strip(ps)[..n] == Strip(ps);
    }
  }

  /** After any prefix of the packets of any messages, the next packet may be taken. */
  lemma {:induction false} NextIsReadable(ms: seq<Message>, r: Reassembly, k: nat)
    requires forall i :: 0 <= i < |ms| ==> ms[i].Fits()
    requires Fresh(r) && k < |Flatten(ms)|
    ensures Takes(After(r, Flatten(ms)[..k]), Flatten(ms)[k])
    decreases |ms|
  {
    var ps, n := Encode(ms[0]), ms[0].PktNum();
    FlattenSplit(ms, k);
    if k < n {
      ReadableWithin(ms[0], r, k);
    } else {
      WholeMessage(ms[0], r);
      FeedConcat(r, ps, Flatten(ms[1..])[..k - n]);
      NextIsReadable(ms[1..], After(r, ps), k - n);
    }
  }
}
