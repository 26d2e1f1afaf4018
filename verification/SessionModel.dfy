/** The sending side of net/session.cpp as a step machine, with a receiver at the other end.

    Producer threads push whole frames to a locked queue and ask for a wakeup; wakeups coalesce. The
    loop thread swaps the queue out and hands each frame to uv_write, which may refuse it. The
    receiver reads the bytes in chunks of any size.
 */
module SessionModel {
  import opened Collections
  import opened Frames

  /** A thread inside send_payload: past its checks, or between its push and uv_async_send. */
  datatype Producer = Quiet | Checked(payload: Payload) | Unsignalled

  /** The loop thread: elsewhere, inside the wakeup callback before the swap, or writing. */
  datatype Loop = Elsewhere | Woken | Writing(local: seq<Payload>)

  /** `pushed` is every payload in queue order, `handled` what uv_write got, with its verdict. */
  datatype State = State(
    producers: seq<Producer>,
    sendQ: seq<Payload>,
    wakeup: bool,
    loop: Loop,
    closing: bool,
    wire: seq<Byte>,
    received: nat,
    recvBuf: seq<Byte>,
    extracted: seq<Payload>,
    pushed: seq<Payload>,
    handled: seq<(Payload, bool)>)

  datatype Step =
    | Begin(t: nat, payload: Payload)
    | Push(t: nat)
    | Signal(t: nat)
    | Wake
    | Swap
    | WriteOne(ok: bool)
    | FlushEnds
    | Close
    | Receive(n: nat)

  predicate Enabled(s: State, step: Step) {
    match step
    case Begin(t, payload) => t < |s.producers| && s.producers[t].Quiet? && !s.closing && payload != []
    case Push(t) => t < |s.producers| && s.producers[t].Checked?
    case Signal(t) => t < |s.producers| && s.producers[t].Unsignalled?
    case Wake => s.loop.Elsewhere? && s.wakeup
    case Swap => s.loop.Woken?
    case WriteOne(_) => s.loop.Writing? && s.loop.local != []
    case FlushEnds => s.loop.Writing? && s.loop.local == []
    case Close => s.loop.Elsewhere?
    case Receive(n) => n <= |s.wire| - s.received
  }

  function Apply(s: State, step: Step): State
    requires Enabled(s, step)
  {
    match step
    case Begin(t, payload) => s.(producers := s.producers[t := Checked(payload)])
    case Push(t) =>
      var p := s.producers[t].payload;
      s.(producers := s.producers[t := Unsignalled], sendQ := s.sendQ + [p], pushed := s.pushed + [p])
    case Signal(t) => s.(producers := s.producers[t := Quiet], wakeup := !s.closing)
    case Wake => s.(wakeup := false, loop := if s.closing then Elsewhere else Woken)
    case Swap => s.(loop := Writing(s.sendQ), sendQ := [])
    case WriteOne(ok) =>
      var p := s.loop.local[0];
      s.(loop := Writing(s.loop.local[1..]), handled := s.handled + [(p, ok)],
         wire := if ok then s.wire + Encode(p) else s.wire)
    case FlushEnds => s.(loop := Elsewhere)
    case Close => s.(closing := true, wakeup := false)
    case Receive(n) =>
      var (frames, rest) := Parse(s.recvBuf + s.wire[s.received..s.received + n]);
      s.(received := s.received + n, recvBuf := rest, extracted := s.extracted + frames)
  }

  predicate Initial(s: State) {
    && (forall t :: 0 <= t < |s.producers| ==> s.producers[t].Quiet?)
    && s.sendQ == [] && !s.wakeup && s.loop.Elsewhere? && !s.closing
    && s.wire == [] && s.received == 0 && s.recvBuf == [] && s.extracted == []
    && s.pushed == [] && s.handled == []
  }

  predicate ValidRun(s: State, steps: seq<Step>)
    decreases |steps|
  {
    steps == [] || (Enabled(s, steps[0]) && ValidRun(Apply(s, steps[0]), steps[1..]))
  }

  function Run(s: State, steps: seq<Step>): State
    requires ValidRun(s, steps)
    decreases |steps|
  {
    if steps == [] then s else Run(Apply(s, steps[0]), steps[1..])
  }

  // ---------------------------------------------------------------- no lost wakeup

  ghost predicate SomeUnsignalled(producers: seq<Producer>) {
    exists t :: 0 <= t < |producers| && producers[t].Unsignalled?
  }

  ghost predicate WakeupOwed(s: State) {
    !s.closing && s.sendQ != [] ==> s.wakeup || SomeUnsignalled(s.producers) || s.loop.Woken?
  }

  lemma WakeupStep(s: State, step: Step)
    requires Enabled(s, step) && WakeupOwed(s)
    ensures WakeupOwed(Apply(s, step))
  {
    var s' := Apply(s, step);
    if step.Push? {
      assert s'.producers[step.t].Unsignalled?;
    } else if SomeUnsignalled(s.producers) {
      var t :| 0 <= t < |s.producers| && s.producers[t].Unsignalled?;
      if step.Begin? { assert s'.producers[t].Unsignalled?; }
      if step.Signal? && step.t != t { assert s'.producers[t].Unsignalled?; }
    }
  }

  /** In every interleaving: while the session is open, a frame in the queue has a wakeup pending, a
      producer about to ask for one, or the loop thread about to swap the queue. */
  lemma {:induction false} NoLostWakeup(s: State, steps: seq<Step>)
    requires WakeupOwed(s) && ValidRun(s, steps)
    ensures WakeupOwed(Run(s, steps))
    decreases |steps|
  {
    if steps != [] {
      WakeupStep(s, steps[0]);
      NoLostWakeup(Apply(s, steps[0]), steps[1..]);
    }
  }

  // ---------------------------------------------------------------- the stream

  /** The payloads that uv_write took. */
  function Written(handled: seq<(Payload, bool)>): seq<Payload> {
    if handled == [] then []
    else
      var last := handled[|handled| - 1];
      Written(handled[..|handled| - 1]) + if last.1 then [last.0] else []
  }

  function Handed(handled: seq<(Payload, bool)>): seq<Payload> {
    seq(|handled|, i requires 0 <= i < |handled| => handled[i].0)
  }

  function Local(loop: Loop): seq<Payload> { if loop.Writing? then loop.local else [] }

  ghost predicate InOrder(s: State) {
    && s.pushed == Handed(s.handled) + Local(s.loop) + s.sendQ
    && s.wire == EncodeAll(Written(s.handled))
  }

  ghost predicate Aligned(s: State) {
    && s.received <= |s.wire|
    && EncodeAll(s.extracted) + s.recvBuf == s.wire[..s.received]
    && !Complete(s.recvBuf)
  }

  /** What one write does to the order of payloads and to the wire. */
  lemma WroteOne(handled: seq<(Payload, bool)>, p: Payload, ok: bool, local: seq<Payload>, sendQ: seq<Payload>)
    requires local != [] && local[0] == p
    ensures Handed(handled) + local + sendQ == Handed(handled + [(p, ok)]) + local[1..] + sendQ
  {
    assert Handed(handled + [(p, ok)]) == Handed(handled) + [p];
    assert [p] + local[1..] == local;
  }

  lemma WiredOne(handled: seq<(Payload, bool)>, p: Payload, ok: bool)
    ensures EncodeAll(Written(handled + [(p, ok)])) == EncodeAll(Written(handled)) + (if ok then Encode(p) else [])
  {
    assert (handled + [(p, ok)])[..|handled|] == handled;
    if ok {
      EncodeAllConcat(Written(handled), [p]);
      EncodeAllCons(p, []);
      assert [p] + [] == [p] && Encode(p) + [] == Encode(p);
    } else {
      assert Written(handled + [(p, ok)]) == Written(handled) + [] == Written(handled);
    }
  }

  lemma OrderWrite(s: State, ok: bool)
    requires Enabled(s, WriteOne(ok)) && InOrder(s)
    ensures InOrder(Apply(s, WriteOne(ok)))
  {
    WroteOne(s.handled, s.loop.local[0], ok, s.loop.local, s.sendQ);
    WiredOne(s.handled, s.loop.local[0], ok);
    assert s.wire + [] == s.wire;
  }

  lemma OrderPush(s: State, t: nat)
    requires Enabled(s, Push(t)) && InOrder(s)
    ensures InOrder(Apply(s, Push(t)))
  {
    Regroup(Handed(s.handled) + Local(s.loop), s.sendQ, [s.producers[t].payload]);
  }

  lemma OrderSwap(s: State)
    requires Enabled(s, Swap) && InOrder(s)
    ensures InOrder(Apply(s, Swap))
  {
    assert Handed(s.handled) + [] == Handed(s.handled);
    assert Handed(s.handled) + s.sendQ + [] == Handed(s.handled) + s.sendQ;
  }

  /** The steps that move no payload on the sending side. */
  lemma OrderElsewhere(s: State, step: Step, s': State)
    requires Enabled(s, step) && InOrder(s) && !step.WriteOne? && !step.Push? && !step.Swap? && s' == Apply(s, step)
    ensures InOrder(s')
  {
    assert s'.pushed == s.pushed && s'.handled == s.handled && s'.sendQ == s.sendQ && s'.wire == s.wire;
    assert Local(s'.loop) == Local(s.loop);
  }

  lemma OrderStep(s: State, step: Step)
    requires Enabled(s, step) && InOrder(s)
    ensures InOrder(Apply(s, step))
  {
    match step {
      case WriteOne(ok) => OrderWrite(s, ok);
      case Push(t) => OrderPush(s, t);
      case Swap => OrderSwap(s);
      case _ => OrderElsewhere(s, step, Apply(s, step));
    }
  }

  /** One read: the new bytes end up in frames or in the kept buffer. */
  lemma ReadOn(extracted: seq<Payload>, recvBuf: seq<Byte>, chunk: seq<Byte>)
    ensures var (frames, rest) := Parse(recvBuf + chunk);
      && EncodeAll(extracted + frames) + rest == (EncodeAll(extracted) + recvBuf) + chunk
      && !Complete(rest)
  {
    var (frames, rest) := Parse(recvBuf + chunk);
    ParseKeeps(recvBuf + chunk);
    EncodeAllConcat(extracted, frames);
    Reassociate(EncodeAll(extracted), recvBuf, chunk, EncodeAll(frames), rest);
  }

  lemma ReadAligned(extracted: seq<Payload>, recvBuf: seq<Byte>, wire: seq<Byte>, received: nat, n: nat,
                    frames: seq<Payload>, rest: seq<Byte>)
    requires received + n <= |wire| && EncodeAll(extracted) + recvBuf == wire[..received]
    requires (frames, rest) == Parse(recvBuf + wire[received..received + n])
    ensures EncodeAll(extracted + frames) + rest == wire[..received + n] && !Complete(rest)
  {
    ReadOn(extracted, recvBuf, wire[received..received + n]);
    TakeMore(wire, received, n);
  }

  lemma AlignedReceive(s: State, n: nat, s': State)
    requires n <= |s.wire| - s.received && Aligned(s) && s' == Apply(s, Receive(n))
    ensures Aligned(s')
  {
    var (frames, rest) := Parse(s.recvBuf + s.wire[s.received..s.received + n]);
    assert s'.extracted == s.extracted + frames && s'.recvBuf == rest && s'.wire == s.wire && s'.received == s.received + n;
    ReadAligned(s.extracted, s.recvBuf, s.wire, s.received, n, frames, rest);
  }

  /** The sender only appends. */
  lemma SenderAppends(s: State, step: Step)
    requires !step.Receive? && Enabled(s, step)
    ensures var s' := Apply(s, step);
      s.wire <= s'.wire && s'.extracted == s.extracted && s'.recvBuf == s.recvBuf && s'.received == s.received
  {
  }

  lemma AlignedStep(s: State, step: Step)
    requires Enabled(s, step) && Aligned(s)
    ensures Aligned(Apply(s, step))
  {
    if step.Receive? {
      AlignedReceive(s, step.n, Apply(s, step));
    } else {
      SenderAppends(s, step);
      TakePrefix(s.wire, Apply(s, step).wire, s.received);
    }
  }

  lemma TakeMore(a: seq<Byte>, i: nat, n: nat)
    requires i + n <= |a|
    ensures a[..i + n] == a[..i] + a[i..i + n]
  {
  }

  lemma TakePrefix(a: seq<Byte>, b: seq<Byte>, n: nat)
    requires a <= b && n <= |a|
    ensures b[..n] == a[..n]
  {
  }

  lemma Reassociate(a: seq<Byte>, buf: seq<Byte>, chunk: seq<Byte>, frames: seq<Byte>, rest: seq<Byte>)
    requires frames + rest == buf + chunk
    ensures (a + frames) + rest == (a + buf) + chunk
  {
    Regroup(a, frames, rest);
    Regroup(a, buf, chunk);
  }

  lemma {:induction false} StreamRun(s: State, steps: seq<Step>)
    requires ValidRun(s, steps) && InOrder(s) && Aligned(s)
    ensures InOrder(Run(s, steps)) && Aligned(Run(s, steps))
    decreases |steps|
  {
    if steps != [] {
      OrderStep(s, steps[0]);
      AlignedStep(s, steps[0]);
      StreamRun(Apply(s, steps[0]), steps[1..]);
    }
  }

  /** End to end, for any interleaving of producers, wakeups, refused writes and reads of any size:
      the payloads are pushed = handed to uv_write, then in hand, then queued, in that order; a
      refused write drops one whole frame; and the extracted frames followed by what the remaining
      bytes parse to are exactly the payloads that uv_write took, with no byte left over. */
  lemma EndToEnd(init: State, steps: seq<Step>)
    requires Initial(init) && ValidRun(init, steps)
    ensures var s := Run(init, steps);
      && s.pushed == Handed(s.handled) + Local(s.loop) + s.sendQ
      && s.received <= |s.wire| && !Complete(s.recvBuf)
      && s.extracted <= Written(s.handled)
      && Parse(s.recvBuf + s.wire[s.received..]) == (Written(s.handled)[|s.extracted|..], [])
  {
    assert Handed(init.handled) == [] && EncodeAll(Written(init.handled)) == [];
    StreamRun(init, steps);
    var s := Run(init, steps);
    LeftToExtract(s.extracted, s.recvBuf, s.wire, s.received, Written(s.handled));
  }

  lemma LeftToExtract(extracted: seq<Payload>, recvBuf: seq<Byte>, wire: seq<Byte>, received: nat, written: seq<Payload>)
    requires received <= |wire| && EncodeAll(extracted) + recvBuf == wire[..received]
    requires wire == EncodeAll(written)
    ensures extracted <= written && Parse(recvBuf + wire[received..]) == (written[|extracted|..], [])
  {
    var left := recvBuf + wire[received..];
    var (frames, rest) := Parse(left);
    TakeRest(EncodeAll(extracted), recvBuf, wire, received);
    ParseEncoded(extracted, left);
    ParseEncoded(written, []);
    assert wire + [] == wire && written + [] == written;
    assert written == extracted + frames;
  }

  lemma TakeRest(a: seq<Byte>, b: seq<Byte>, w: seq<Byte>, n: nat)
    requires n <= |w| && a + b == w[..n]
    ensures a + (b + w[n..]) == w
  {
    assert w == w[..n] + w[n..];
    assert a + (b + w[n..]) == (a + b) + w[n..];
  }

  /** When no producer is under way, the loop thread is elsewhere and no wakeup is pending, an open
      session has handed every payload to uv_write. */
  lemma QuietMeansSent(init: State, steps: seq<Step>)
    requires Initial(init) && ValidRun(init, steps)
    requires var s := Run(init, steps);
      && !s.closing && s.loop.Elsewhere? && !s.wakeup
      && forall t :: 0 <= t < |s.producers| ==> s.producers[t].Quiet?
    ensures Run(init, steps).pushed == Handed(Run(init, steps).handled)
  {
    NoLostWakeup(init, steps);
    EndToEnd(init, steps);
  }
}
