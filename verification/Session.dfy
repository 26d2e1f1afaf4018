/** The Session object of net/session.cpp: reassembly and routing on one side, the send queue on the
    other. */
module Session {
  import opened Collections
  import opened Frames
  import Model = SessionModel

  // ---------------------------------------------------------------- routing

  datatype SessionState = Connected | LoggedIn | InField

  /** The FlatBuffers verifiers, which are foreign: what they say of a payload. */
  datatype Verifiers = Verifiers(envelope: Payload -> bool, skillPacket: Payload -> bool, fieldCmd: Payload -> bool)
  {
    predicate IsSkillEnvelope(p: Payload) { envelope(p) && skillPacket(p) }
  }

  datatype Delivery = ToGame(payload: Payload) | ToField(fieldId: int, payload: Payload)

  /** Where the frames of a session go while it is in a given state. */
  datatype Router = Router(v: Verifiers, hasGameWorker: bool, state: SessionState, fieldId: int)

  function Route(r: Router, p: Payload): seq<Delivery> {
    if !r.hasGameWorker then []
    else if r.state.InField? then
      if r.v.IsSkillEnvelope(p) then [ToGame(p)]
      else if r.v.fieldCmd(p) then [ToField(r.fieldId, p)]
      else []
    else if r.v.envelope(p) then [ToGame(p)]
    else []
  }

  // what the deliveries are, told without the routing

  /** The payloads that went to the game worker, in order. */
  function GamePayloads(ds: seq<Delivery>): seq<Payload> {
    if ds == [] then []
    else GamePayloads(ds[..|ds| - 1]) + (match ds[|ds| - 1] case ToGame(p) => [p] case ToField(_, _) => [])
  }

  /** The payloads that went to the worker of this field, in order. */
  function FieldPayloads(ds: seq<Delivery>, fieldId: int): seq<Payload> {
    if ds == [] then []
    else
      FieldPayloads(ds[..|ds| - 1], fieldId)
      + (match ds[|ds| - 1] case ToGame(_) => [] case ToField(f, p) => if f == fieldId then [p] else [])
  }

  function Filter(ps: seq<Payload>, keep: Payload -> bool): seq<Payload> {
    if ps == [] then [] else Filter(ps[..|ps| - 1], keep) + (if keep(ps[|ps| - 1]) then [ps[|ps| - 1]] else [])
  }

  lemma {:induction false} GameConcat(a: seq<Delivery>, b: seq<Delivery>)
    ensures GamePayloads(a + b) == GamePayloads(a) + GamePayloads(b)
    decreases |b|
  {
    if b == [] {
      assert a + b == a;
    } else {
      assert (a + b)[..|a + b| - 1] == a + b[..|b| - 1];
      GameConcat(a, b[..|b| - 1]);
    }
  }

  lemma {:induction false} FieldConcat(a: seq<Delivery>, b: seq<Delivery>, fieldId: int)
    ensures FieldPayloads(a + b, fieldId) == FieldPayloads(a, fieldId) + FieldPayloads(b, fieldId)
    decreases |b|
  {
    if b == [] {
      assert a + b == a;
    } else {
      assert (a + b)[..|a + b| - 1] == a + b[..|b| - 1];
      FieldConcat(a, b[..|b| - 1], fieldId);
    }
  }

  /** What a session's state lets through to the game worker, ... */
  predicate ForGame(v: Verifiers, hasGameWorker: bool, state: SessionState, p: Payload) {
    hasGameWorker && v.envelope(p) && (state != InField || v.skillPacket(p))
  }

  /** ... and to the worker of its field. */
  predicate ForField(v: Verifiers, hasGameWorker: bool, state: SessionState, p: Payload) {
    hasGameWorker && state == InField && v.fieldCmd(p) && !(v.envelope(p) && v.skillPacket(p))
  }

  /** In a field, the game worker gets exactly the skill envelopes and the session's field worker exactly the
      other field commands; elsewhere, the game worker gets exactly the envelopes; no other field's worker
      ever gets anything, and without a game worker nobody does. */
  ghost predicate DeliveredRight(v: Verifiers, hasGameWorker: bool, state: SessionState, fieldId: int,
                                 ps: seq<Payload>, ds: seq<Delivery>)
  {
    && GamePayloads(ds) == Filter(ps, (p: Payload) => ForGame(v, hasGameWorker, state, p))
    && FieldPayloads(ds, fieldId) == Filter(ps, (p: Payload) => ForField(v, hasGameWorker, state, p))
    && forall f :: f != fieldId ==> FieldPayloads(ds, f) == []
  }

  lemma OneDelivery(r: Router, p: Payload)
    ensures GamePayloads(Route(r, p)) == if ForGame(r.v, r.hasGameWorker, r.state, p) then [p] else []
    ensures FieldPayloads(Route(r, p), r.fieldId) == if ForField(r.v, r.hasGameWorker, r.state, p) then [p] else []
    ensures forall f :: f != r.fieldId ==> FieldPayloads(Route(r, p), f) == []
  {
    var ds := Route(r, p);
    if ds != [] { assert ds[..|ds| - 1] == []; }
  }

  lemma {:induction false} RouteAllRight(r: Router, ps: seq<Payload>)
    ensures DeliveredRight(r.v, r.hasGameWorker, r.state, r.fieldId, ps, RouteAll(r, ps))
    decreases |ps|
  {
    if ps != [] {
      var before, last := ps[..|ps| - 1], ps[|ps| - 1];
      RouteAllRight(r, before);
      OneDelivery(r, last);
      GameConcat(RouteAll(r, before), Route(r, last));
      forall f ensures FieldPayloads(RouteAll(r, ps), f) == FieldPayloads(RouteAll(r, before), f) + FieldPayloads(Route(r, last), f) {
        FieldConcat(RouteAll(r, before), Route(r, last), f);
      }
    }
  }

  function RouteAll(r: Router, ps: seq<Payload>): seq<Delivery> {
    if ps == [] then [] else RouteAll(r, ps[..|ps| - 1]) + Route(r, ps[|ps| - 1])
  }

  lemma {:induction false} RouteAllConcat(r: Router, a: seq<Payload>, b: seq<Payload>)
    ensures RouteAll(r, a + b) == RouteAll(r, a) + RouteAll(r, b)
    decreases |b|
  {
    if b == [] {
      assert a + b == a;
    } else {
      var before, last := b[..|b| - 1], b[|b| - 1];
      assert (a + b)[..|a + b| - 1] == a + before && (a + b)[|a + b| - 1] == last;
      RouteAllConcat(r, a, before);
      Regroup(RouteAll(r, a), RouteAll(r, before), Route(r, last));
    }
  }

  /** The deliveries of a receiver that is fed chunk by chunk, from read i on. The session's state may
      change between reads: rs[k] is the router during read k. */
  function RouteReads(rs: seq<Router>, i: nat, buf: seq<Byte>, chunks: seq<seq<Byte>>): seq<Delivery>
    requires |rs| == i + |chunks|
    decreases |chunks|
  {
    if chunks == [] then []
    else
      var (frames, rest) := Parse(buf + chunks[0]);
      RouteAll(rs[i], frames) + RouteReads(rs, i + 1, rest, chunks[1..])
  }

  /** A payload as the router of its read has it. */
  function RouteOne(rs: seq<Router>, t: (nat, Payload)): seq<Delivery> { if t.0 < |rs| then Route(rs[t.0], t.1) else [] }

  function RouteEach(rs: seq<Router>, ts: seq<(nat, Payload)>): seq<Delivery> {
    if ts == [] then [] else RouteEach(rs, ts[..|ts| - 1]) + RouteOne(rs, ts[|ts| - 1])
  }

  lemma {:induction false} RouteEachConcat(rs: seq<Router>, a: seq<(nat, Payload)>, b: seq<(nat, Payload)>)
    ensures RouteEach(rs, a + b) == RouteEach(rs, a) + RouteEach(rs, b)
    decreases |b|
  {
    if b == [] {
      assert a + b == a;
    } else {
      var before, last := b[..|b| - 1], b[|b| - 1];
      assert (a + b)[..|a + b| - 1] == a + before && (a + b)[|a + b| - 1] == last;
      RouteEachConcat(rs, a, before);
      Regroup(RouteEach(rs, a), RouteEach(rs, before), RouteOne(rs, last));
    }
  }

  lemma {:induction false} TaggedAt(i: nat, ps: seq<Payload>)
    ensures Tagged(i, ps) == seq(|ps|, k requires 0 <= k < |ps| => (i, ps[k]))
  {
    if ps != [] { TaggedAt(i, ps[1..]); }
  }

  lemma {:induction false} RouteTagged(rs: seq<Router>, i: nat, ps: seq<Payload>)
    requires i < |rs|
    ensures RouteEach(rs, Tagged(i, ps)) == RouteAll(rs[i], ps)
    decreases |ps|
  {
    TaggedAt(i, ps);
    if ps != [] {
      TaggedAt(i, ps[..|ps| - 1]);
      assert Tagged(i, ps)[..|ps| - 1] == Tagged(i, ps[..|ps| - 1]);
      RouteTagged(rs, i, ps[..|ps| - 1]);
    }
  }

  lemma {:induction false} ReadsAreFeed(rs: seq<Router>, i: nat, buf: seq<Byte>, chunks: seq<seq<Byte>>)
    requires |rs| == i + |chunks|
    ensures RouteReads(rs, i, buf, chunks) == RouteEach(rs, FeedAt(i, buf, chunks))
    decreases |chunks|
  {
    if chunks != [] {
      var (frames, rest) := Parse(buf + chunks[0]);
      ReadsAreFeed(rs, i + 1, rest, chunks[1..]);
      RouteTagged(rs, i, frames);
      RouteEachConcat(rs, Tagged(i, frames), FeedAt(i + 1, rest, chunks[1..]));
    }
  }

  /** Whatever the reads, and however the session's state changes between them: the workers get the
      payloads in order, each once, routed by the state during the read that brings the last byte of its
      frame. */
  lemma RoutedOnArrival(rs: seq<Router>, chunks: seq<seq<Byte>>, ps: seq<Payload>, tail: seq<Byte>)
    requires |rs| == |chunks| && Flatten(chunks) == EncodeAll(ps) + tail && !Complete(tail)
    ensures RouteReads(rs, 0, [], chunks) == RouteEach(rs, Arrivals(0, Sizes(chunks), ps, 0))
    ensures forall k :: 0 <= k < |ps| ==>
      Arrivals(0, Sizes(chunks), ps, 0)[k].1 == ps[k] && Arrivals(0, Sizes(chunks), ps, 0)[k].0 < |rs|
  {
    ReadsAreFeed(rs, 0, [], chunks);
    AllArrive(chunks, ps, tail);
    CutOnArrival(chunks, ps, tail);
  }

  /** The payloads that the game worker is to get of a run of reads, given the session's state in each. */
  function PickGame(rs: seq<Router>, ts: seq<(nat, Payload)>): seq<Payload> {
    if ts == [] then []
    else
      var t := ts[|ts| - 1];
      PickGame(rs, ts[..|ts| - 1])
      + (if t.0 < |rs| && ForGame(rs[t.0].v, rs[t.0].hasGameWorker, rs[t.0].state, t.1) then [t.1] else [])
  }

  /** And those that the worker of field f is to get. */
  function PickField(rs: seq<Router>, ts: seq<(nat, Payload)>, f: int): seq<Payload> {
    if ts == [] then []
    else
      var t := ts[|ts| - 1];
      PickField(rs, ts[..|ts| - 1], f)
      + (if t.0 < |rs| && rs[t.0].fieldId == f && ForField(rs[t.0].v, rs[t.0].hasGameWorker, rs[t.0].state, t.1)
         then [t.1] else [])
  }

  lemma {:induction false} EachPicked(rs: seq<Router>, ts: seq<(nat, Payload)>, f: int)
    ensures GamePayloads(RouteEach(rs, ts)) == PickGame(rs, ts)
    ensures FieldPayloads(RouteEach(rs, ts), f) == PickField(rs, ts, f)
    decreases |ts|
  {
    if ts != [] {
      var before, t := ts[..|ts| - 1], ts[|ts| - 1];
      EachPicked(rs, before, f);
      GameConcat(RouteEach(rs, before), RouteOne(rs, t));
      FieldConcat(RouteEach(rs, before), RouteOne(rs, t), f);
      if t.0 < |rs| { OneDelivery(rs[t.0], t.1); }
    }
  }

  /** So of any reads the game worker gets, in order, exactly the envelopes whose last byte was read outside a
      field and the skill envelopes whose last byte was read in one; and a field's worker exactly the other
      field commands whose last byte was read while the session was in that field. */
  lemma DeliveredOnArrival(rs: seq<Router>, chunks: seq<seq<Byte>>, ps: seq<Payload>, tail: seq<Byte>, f: int)
    requires |rs| == |chunks| && Flatten(chunks) == EncodeAll(ps) + tail && !Complete(tail)
    ensures var ts, ds := Arrivals(0, Sizes(chunks), ps, 0), RouteReads(rs, 0, [], chunks);
      GamePayloads(ds) == PickGame(rs, ts) && FieldPayloads(ds, f) == PickField(rs, ts, f)
  {
    RoutedOnArrival(rs, chunks, ps, tail);
    EachPicked(rs, Arrivals(0, Sizes(chunks), ps, 0), f);
  }

  lemma {:induction false} RoutesAgree(rs: seq<Router>, ts: seq<(nat, Payload)>, rs': seq<Router>, ts': seq<(nat, Payload)>)
    requires |ts| == |ts'| && forall k :: 0 <= k < |ts| ==> RouteOne(rs, ts[k]) == RouteOne(rs', ts'[k])
    ensures RouteEach(rs, ts) == RouteEach(rs', ts')
    decreases |ts|
  {
    if ts != [] { RoutesAgree(rs, ts[..|ts| - 1], rs', ts'[..|ts| - 1]); }
  }

  /** So two ways to cut the same bytes into reads deliver the same if every frame completes in reads that
      route its payload alike. */
  lemma CuttingsAgree(rs: seq<Router>, chunks: seq<seq<Byte>>, rs': seq<Router>, chunks': seq<seq<Byte>>,
                      ps: seq<Payload>, tail: seq<Byte>)
    requires |rs| == |chunks| && Flatten(chunks) == EncodeAll(ps) + tail && !Complete(tail)
    requires |rs'| == |chunks'| && Flatten(chunks') == Flatten(chunks)
    requires var ts, ts' := Arrivals(0, Sizes(chunks), ps, 0), Arrivals(0, Sizes(chunks'), ps, 0);
      forall k :: 0 <= k < |ts| ==> RouteOne(rs, ts[k]) == RouteOne(rs', ts'[k])
    ensures RouteReads(rs, 0, [], chunks) == RouteReads(rs', 0, [], chunks')
  {
    RoutedOnArrival(rs, chunks, ps, tail);
    RoutedOnArrival(rs', chunks', ps, tail);
    RoutesAgree(rs, Arrivals(0, Sizes(chunks), ps, 0), rs', Arrivals(0, Sizes(chunks'), ps, 0));
  }

  /** In particular the reads do not matter at all for payloads that every state met routes alike, as
      while the state does not change. */
  lemma RoutingIgnoresChunking(rs: seq<Router>, r: Router, chunks: seq<seq<Byte>>, ps: seq<Payload>, tail: seq<Byte>)
    requires |rs| == |chunks| && Flatten(chunks) == EncodeAll(ps) + tail && !Complete(tail)
    requires forall i, k :: 0 <= i < |rs| && 0 <= k < |ps| ==> Route(rs[i], ps[k]) == Route(r, ps[k])
    ensures RouteReads(rs, 0, [], chunks) == RouteAll(r, ps)
  {
    var ts, alike := Arrivals(0, Sizes(chunks), ps, 0), Tagged(0, ps);
    RoutedOnArrival(rs, chunks, ps, tail);
    TaggedAt(0, ps);
    forall k | 0 <= k < |ps| ensures RouteOne(rs, ts[k]) == RouteOne([r], alike[k]) {}
    RoutesAgree(rs, ts, [r], alike);
    RouteTagged([r], 0, ps);
  }

  /** That the reads never matter is false once the state changes: the same bytes, one frame with an
      envelope that is no skill, go to the game worker or nowhere as they come before or after the
      session enters the field. */
  lemma CuttingDecides(v: Verifiers, fieldId: int, p: Payload)
    requires v.envelope(p) && !v.skillPacket(p) && !v.fieldCmd(p)
    ensures var rs := [Router(v, true, LoggedIn, fieldId), Router(v, true, InField, fieldId)];
      && Flatten([Encode(p), []]) == Flatten([[], Encode(p)]) == EncodeAll([p])
      && RouteReads(rs, 0, [], [Encode(p), []]) == [ToGame(p)]
      && RouteReads(rs, 0, [], [[], Encode(p)]) == []
  {
    var rs := [Router(v, true, LoggedIn, fieldId), Router(v, true, InField, fieldId)];
    var early: seq<seq<Byte>>, late: seq<seq<Byte>> := [Encode(p), []], [[], Encode(p)];
    assert Encode(p) + [] == Encode(p) && [] + Encode(p) == Encode(p);
    TwoReads(Encode(p), [], p);
    TwoReads([], Encode(p), p);
    RoutedOnArrival(rs, early, [p], []);
    RoutedOnArrival(rs, late, [p], []);
    RouteSingle(rs, (0, p));
    RouteSingle(rs, (1, p));
  }

  lemma RouteSingle(rs: seq<Router>, t: (nat, Payload))
    ensures RouteEach(rs, [t]) == RouteOne(rs, t)
  {
    assert [t][..0] == [] && RouteEach(rs, []) == [];
  }

  // ---------------------------------------------------------------- sending

  /** The bytes of the frames that uv_write takes, given its verdict on each. */
  function Taken(q: seq<seq<Byte>>, verdicts: seq<bool>): seq<Byte>
    requires |q| == |verdicts|
  {
    if q == [] then [] else (if verdicts[0] then q[0] else []) + Taken(q[1..], verdicts[1..])
  }

  function Join(q: seq<seq<Byte>>): seq<Byte> { if q == [] then [] else q[0] + Join(q[1..]) }

  /** All the frames if uv_write takes them all, and none if it takes none. */
  lemma {:induction false} TakenAll(q: seq<seq<Byte>>, verdicts: seq<bool>)
    requires |q| == |verdicts|
    ensures (forall i :: 0 <= i < |q| ==> verdicts[i]) ==> Taken(q, verdicts) == Join(q)
    ensures (forall i :: 0 <= i < |q| ==> !verdicts[i]) ==> Taken(q, verdicts) == []
  {
    if q != [] { TakenAll(q[1..], verdicts[1..]); }
  }

  /** A frame in the middle is put on the wire, whole and in its place, exactly if uv_write takes it. */
  lemma {:induction false} TakenAt(q: seq<seq<Byte>>, verdicts: seq<bool>, k: nat)
    requires |q| == |verdicts| && k < |q|
    ensures Taken(q, verdicts)
         == Taken(q[..k], verdicts[..k]) + (if verdicts[k] then q[k] else []) + Taken(q[k + 1..], verdicts[k + 1..])
    decreases k
  {
    if k == 0 {
      assert Taken(q[..0], verdicts[..0]) == [];
    } else {
      TakenAt(q[1..], verdicts[1..], k - 1);
      assert q[1..][..k - 1] == q[..k][1..] && verdicts[1..][..k - 1] == verdicts[..k][1..];
      assert q[1..][k..] == q[k + 1..] && verdicts[1..][k..] == verdicts[k + 1..];
    }
  }

  function EncodeEach(ps: seq<Payload>): seq<seq<Byte>> {
    seq(|ps|, i requires 0 <= i < |ps| => Encode(ps[i]))
  }

  // ---------------------------------------------------------------- the class

  class Session {
    const verifiers: Verifiers
    var hasGameWorker: bool
    var state: SessionState
    var fieldId: int
    var closing: bool

    var recvBuf: seq<Byte>
    // what the workers were given
    var delivered: seq<Delivery>

    var sendQ: seq<seq<Byte>>
    var wakeup: bool
    // the bytes uv_write took
    var wire: seq<Byte>

    ghost function Routes(): Router
      reads this
    {
      Router(verifiers, hasGameWorker, state, fieldId)
    }

    constructor (verifiers: Verifiers)
      ensures recvBuf == [] && delivered == [] && sendQ == [] && wire == [] && !closing && !wakeup
      ensures state == Connected && fieldId == 0 && !hasGameWorker && this.verifiers == verifiers
    {
      this.verifiers := verifiers;
      hasGameWorker, state, fieldId, closing := false, Connected, 0, false;
      recvBuf, delivered, sendQ, wakeup, wire := [], [], [], false, [];
    }

    method Dispatch(payload: Payload)
      modifies this`delivered
      ensures delivered == old(delivered) + Route(Routes(), payload)
      ensures delivered == old(delivered) + (
        if ForGame(verifiers, hasGameWorker, state, payload) then [ToGame(payload)]
        else if ForField(verifiers, hasGameWorker, state, payload) then [ToField(fieldId, payload)] else [])
    {
      if hasGameWorker {
        if state == InField {
          if verifiers.IsSkillEnvelope(payload) {
            delivered := delivered + [ToGame(payload)];
          } else if verifiers.fieldCmd(payload) {
            delivered := delivered + [ToField(fieldId, payload)];
          }
        } else if verifiers.envelope(payload) {
          delivered := delivered + [ToGame(payload)];
        }
      }
    }

    /** One turn of the reassembly loop: hands on the frame at the offset if it is whole. */
    method CutOne(offset: nat) returns (whole: bool, end: nat)
      requires offset <= |recvBuf|
      modifies this`delivered
      ensures whole == Complete(recvBuf[offset..])
      ensures whole ==>
        && offset < end == offset + FrameEnd(recvBuf[offset..]) <= |recvBuf|
        && delivered == old(delivered) + Route(Routes(), recvBuf[offset + HEADER..end])
      ensures !whole ==> delivered == old(delivered)
    {
      whole, end := false, offset;
      if |recvBuf| - offset < HEADER { return; }
      var len := ReadLen(recvBuf[offset..]);
      if |recvBuf| - offset - HEADER < len { return; }
      Dispatch(recvBuf[offset + HEADER..offset + HEADER + len]);
      whole, end := true, offset + HEADER + len;
    }

    /** The same, as progress of the parse: `frames` are cut off so far, `cut` afterwards. */
    method CutNext(offset: nat, ghost start: seq<Delivery>, ghost frames: seq<Payload>)
      returns (whole: bool, end: nat, ghost cut: seq<Payload>)
      requires Cut(Routes(), recvBuf, start, frames, offset, delivered)
      modifies this`delivered
      ensures Cut(Routes(), recvBuf, start, cut, end, delivered)
      ensures if whole then offset < end <= |recvBuf| else end == offset && !Complete(recvBuf[end..])
    {
      whole, end := CutOne(offset);
      cut := frames;
      if whole {
        CutTurns(Routes(), recvBuf, start, frames, offset, end, old(delivered));
        cut := frames + [recvBuf[offset + HEADER..end]];
      } else {
        end := offset;
      }
    }

    /** The reassembly loop: advances an offset over the whole frames and erases them at once. */
    method Reassemble()
      modifies this`recvBuf, this`delivered
      ensures recvBuf == Parse(old(recvBuf)).1
      ensures delivered == old(delivered) + RouteAll(Routes(), Parse(old(recvBuf)).0)
    {
      var offset := 0;
      ghost var frames: seq<Payload> := [];
      ghost var r, buf, start := Routes(), recvBuf, delivered;
      CutStarts(r, buf, start);
      while true
        invariant recvBuf == buf && Routes() == r && offset <= |buf|
        invariant Cut(r, buf, start, frames, offset, delivered)
        decreases |buf| - offset
      {
        var whole, end, cut := CutNext(offset, start, frames);
        offset, frames := end, cut;
        if !whole { break; }
      }
      CutEnds(r, buf, start, frames, offset, delivered);
      if offset > 0 {
        recvBuf := recvBuf[offset..];
      }
    }

    /** A read callback. */
    method OnRead(nread: int, base: seq<Byte>)
      requires nread <= |base|
      modifies this`recvBuf, this`delivered, this`closing, this`wakeup
      ensures nread < 0 ==> closing && !wakeup && recvBuf == old(recvBuf) && delivered == old(delivered)
      ensures nread >= 0 ==> closing == old(closing) && wakeup == old(wakeup)
      ensures nread == 0 ==> recvBuf == old(recvBuf) && delivered == old(delivered)
      ensures nread > 0 ==>
        var (frames, rest) := Parse(old(recvBuf) + base[..nread]);
        recvBuf == rest && delivered == old(delivered) + RouteAll(Routes(), frames)
      ensures nread > 0 ==>
        && old(delivered) <= delivered
        && DeliveredRight(verifiers, hasGameWorker, state, fieldId, Parse(old(recvBuf) + base[..nread]).0,
                          delivered[|old(delivered)|..])
    {
      if nread < 0 {
        closing, wakeup := true, false;
        return;
      }
      if nread == 0 { return; }
      recvBuf := recvBuf + base[..nread];
      RouteAllRight(Routes(), Parse(recvBuf).0);
      Reassemble();
    }

    /** `payload` is None for a null pointer. */
    method SendPayload(payload: Payload, isNull: bool)
      modifies this`sendQ, this`wakeup
      ensures if closing || isNull || payload == [] then sendQ == old(sendQ) && wakeup == old(wakeup)
              else sendQ == old(sendQ) + [Encode(payload)] && wakeup
    {
      if closing { return; }
      if isNull || payload == [] { return; }
      sendQ := sendQ + [Encode(payload)];
      wakeup := true;
    }

    method FlushSendQueue(verdicts: seq<bool>)
      requires |verdicts| == |sendQ|
      modifies this`sendQ, this`wire
      ensures sendQ == [] && wire == old(wire) + Taken(old(sendQ), verdicts)
      ensures (forall i :: 0 <= i < |verdicts| ==> verdicts[i]) ==> wire == old(wire) + Join(old(sendQ))
      ensures (forall i :: 0 <= i < |verdicts| ==> !verdicts[i]) ==> wire == old(wire)
    {
      TakenAll(sendQ, verdicts);
      var local := sendQ;
      sendQ := [];
      assert local[0..] == local && verdicts[0..] == verdicts;
      for i := 0 to |local|
        invariant sendQ == []
        invariant wire + Taken(local[i..], verdicts[i..]) == old(wire) + Taken(local, verdicts)
      {
        assert local[i..][1..] == local[i + 1..] && verdicts[i..][1..] == verdicts[i + 1..];
        if verdicts[i] {
          wire := wire + local[i];
        }
      }
    }

    /** The wakeup callback; libuv has cleared the request. */
    method OnSendAsync(verdicts: seq<bool>)
      requires wakeup && (!closing ==> |verdicts| == |sendQ|)
      modifies this`sendQ, this`wire, this`wakeup
      ensures !wakeup
      ensures if closing then sendQ == old(sendQ) && wire == old(wire)
              else sendQ == [] && wire == old(wire) + Taken(old(sendQ), verdicts)
    {
      wakeup := false;
      if closing { return; }
      FlushSendQueue(verdicts);
    }
  }

  /** The loop has cut these frames off and handed them on; the rest of the parse starts at the
      offset. */
  ghost predicate Cut(r: Router, buf: seq<Byte>, start: seq<Delivery>,
                      frames: seq<Payload>, offset: nat, delivered: seq<Delivery>)
  {
    && offset <= |buf|
    && Parse(buf) == (frames + Parse(buf[offset..]).0, Parse(buf[offset..]).1)
    && delivered == start + RouteAll(r, frames)
  }

  lemma CutStarts(r: Router, buf: seq<Byte>, start: seq<Delivery>)
    ensures Cut(r, buf, start, [], 0, start)
  {
    assert buf[0..] == buf && [] + Parse(buf).0 == Parse(buf).0;
  }

  lemma CutTurns(r: Router, buf: seq<Byte>, start: seq<Delivery>,
                 frames: seq<Payload>, offset: nat, end: nat, delivered: seq<Delivery>)
    requires Cut(r, buf, start, frames, offset, delivered)
    requires Complete(buf[offset..]) && end == offset + FrameEnd(buf[offset..])
    ensures end <= |buf|
    ensures var frame: Payload := buf[offset + HEADER..end];
      Cut(r, buf, start, frames + [frame], end, delivered + Route(r, frame))
  {
    ParseTurns(buf, offset, end);
    RouteAllSnoc(r, frames, buf[offset + HEADER..end]);
    var frame: seq<Payload> := [buf[offset + HEADER..end]];
    Regroup(frames, frame, Parse(buf[end..]).0);
    assert (start + RouteAll(r, frames)) + Route(r, frame[0]) == start + (RouteAll(r, frames) + Route(r, frame[0]));
  }

  lemma ParseTurns(buf: seq<Byte>, offset: nat, end: nat)
    requires offset <= |buf| && Complete(buf[offset..]) && end == offset + FrameEnd(buf[offset..])
    ensures end <= |buf|
    ensures Parse(buf[offset..]) == ([buf[offset + HEADER..end]] + Parse(buf[end..]).0, Parse(buf[end..]).1)
  {
    var rest := buf[offset..];
    assert rest[FrameEnd(rest)..] == buf[end..] && rest[HEADER..FrameEnd(rest)] == buf[offset + HEADER..end];
  }

  lemma CutEnds(r: Router, buf: seq<Byte>, start: seq<Delivery>,
                frames: seq<Payload>, offset: nat, delivered: seq<Delivery>)
    requires Cut(r, buf, start, frames, offset, delivered) && !Complete(buf[offset..])
    ensures Parse(buf).1 == (if offset > 0 then buf[offset..] else buf)
    ensures delivered == start + RouteAll(r, Parse(buf).0)
  {
    assert frames + [] == frames && buf[0..] == buf;
  }

  lemma RouteAllSnoc(r: Router, ps: seq<Payload>, p: Payload)
    ensures RouteAll(r, ps + [p]) == RouteAll(r, ps) + Route(r, p)
  {
    assert (ps + [p])[..|ps|] == ps;
  }

  // ---------------------------------------------------------------- the code runs the machine

  /** flush_send_queue, run without interruption, is Swap, one WriteOne per frame and FlushEnds; it
      puts the same bytes on the wire. */
  lemma {:induction false} FlushIsRun(s: Model.State, verdicts: seq<bool>) returns (steps: seq<Model.Step>)
    requires s.loop.Writing? && |verdicts| == |s.loop.local|
    ensures Model.ValidRun(s, steps)
    ensures Flushed(s, verdicts, Model.Run(s, steps))
    decreases |s.loop.local|
  {
    if verdicts == [] {
      steps := [Model.FlushEnds];
      assert Model.Run(Model.Apply(s, steps[0]), steps[1..]) == Model.Apply(s, steps[0]);
    } else {
      var s1 := Model.Apply(s, Model.WriteOne(verdicts[0]));
      var rest := FlushIsRun(s1, verdicts[1..]);
      steps := [Model.WriteOne(verdicts[0])] + rest;
      assert steps[1..] == rest;
      FlushedOn(s, verdicts, Model.Run(s1, rest));
    }
  }

  ghost predicate Flushed(s: Model.State, verdicts: seq<bool>, s': Model.State)
    requires s.loop.Writing? && |verdicts| == |s.loop.local|
  {
    && s'.loop.Elsewhere?
    && s' == s.(loop := s'.loop, wire := s'.wire, handled := s'.handled)
    && s'.wire == s.wire + Taken(EncodeEach(s.loop.local), verdicts)
    && s'.handled == s.handled + Judged(s.loop.local, verdicts)
  }

  /** The frames with uv_write's verdict on each. */
  function Judged(local: seq<Payload>, verdicts: seq<bool>): seq<(Payload, bool)>
    requires |local| == |verdicts|
  {
    seq(|local|, i requires 0 <= i < |local| => (local[i], verdicts[i]))
  }

  lemma FlushedOn(s: Model.State, verdicts: seq<bool>, s': Model.State)
    requires s.loop.Writing? && 0 < |verdicts| == |s.loop.local|
    requires Flushed(Model.Apply(s, Model.WriteOne(verdicts[0])), verdicts[1..], s')
    ensures Flushed(s, verdicts, s')
  {
    TakenOn(s.wire, s.loop.local, verdicts);
    JudgedOn(s.handled, s.loop.local, verdicts);
  }

  lemma TakenOn(wire: seq<Byte>, local: seq<Payload>, verdicts: seq<bool>)
    requires 0 < |verdicts| == |local|
    ensures wire + Taken(EncodeEach(local), verdicts) ==
      (if verdicts[0] then wire + Encode(local[0]) else wire) + Taken(EncodeEach(local[1..]), verdicts[1..])
  {
    TakenFirst(wire, EncodeEach(local), verdicts);
    EncodeEachRest(local);
  }

  lemma TakenFirst(wire: seq<Byte>, q: seq<seq<Byte>>, verdicts: seq<bool>)
    requires 0 < |verdicts| == |q|
    ensures wire + Taken(q, verdicts) == (if verdicts[0] then wire + q[0] else wire) + Taken(q[1..], verdicts[1..])
  {
    var tail := Taken(q[1..], verdicts[1..]);
    if verdicts[0] {
      assert wire + (q[0] + tail) == (wire + q[0]) + tail;
    } else {
      assert [] + tail == tail;
    }
  }

  lemma EncodeEachRest(local: seq<Payload>)
    requires local != []
    ensures EncodeEach(local)[0] == Encode(local[0]) && EncodeEach(local)[1..] == EncodeEach(local[1..])
  {
  }

  lemma JudgedOn(handled: seq<(Payload, bool)>, local: seq<Payload>, verdicts: seq<bool>)
    requires 0 < |verdicts| == |local|
    ensures handled + [(local[0], verdicts[0])] + Judged(local[1..], verdicts[1..]) == handled + Judged(local, verdicts)
  {
    assert Judged(local, verdicts) == [(local[0], verdicts[0])] + Judged(local[1..], verdicts[1..]);
  }
}
