/** The byte stream of net/session.cpp: frames of a length header and a payload, and the reassembly
    loop that cuts a stream back into frames.

    proto::Frame is not part of this model's source. Its header is taken to be 4 bytes, big-endian.
 */
module Frames {
  import opened Collections

  type Byte = b: nat | b < 256
  type Payload = p: seq<Byte> | |p| < 0x1_0000_0000

  const HEADER: nat := 4

  // ---------------------------------------------------------------- the header

  function WriteLen(n: nat): (h: seq<Byte>)
    requires n < 0x1_0000_0000
    ensures |h| == HEADER
  {
    [n / 256 / 256 / 256, n / 256 / 256 % 256, n / 256 % 256, n % 256]
  }

  function ReadLen(h: seq<Byte>): (n: nat)
    requires |h| >= HEADER
    ensures n < 0x1_0000_0000
  {
    var a: nat, b: nat, c: nat, d: nat := h[0], h[1], h[2], h[3];
    ((a * 256 + b) * 256 + c) * 256 + d
  }

  lemma LenRoundTrip(n: nat, more: seq<Byte>)
    requires n < 0x1_0000_0000
    ensures ReadLen(WriteLen(n) + more) == n
  {
    assert n == n / 256 * 256 + n % 256;
    assert n / 256 == n / 256 / 256 * 256 + n / 256 % 256;
    assert n / 256 / 256 == n / 256 / 256 / 256 * 256 + n / 256 / 256 % 256;
  }

  lemma HeaderRoundTrip(h: seq<Byte>)
    requires |h| == HEADER
    ensures WriteLen(ReadLen(h)) == h
  {
    var a: nat, b: nat, c: nat, d: nat := h[0], h[1], h[2], h[3];
    assert ReadLen(h) / 256 == (a * 256 + b) * 256 + c;
    assert ReadLen(h) / 256 / 256 == a * 256 + b;
  }

  // ---------------------------------------------------------------- frames

  function Encode(p: Payload): seq<Byte> { WriteLen(|p|) + p }

  function EncodeAll(ps: seq<Payload>): seq<Byte> {
    if ps == [] then [] else Encode(ps[0]) + EncodeAll(ps[1..])
  }

  /** A whole frame is at the front. */
  predicate Complete(buf: seq<Byte>) {
    |buf| >= HEADER && |buf| - HEADER >= ReadLen(buf)
  }

  function FrameEnd(buf: seq<Byte>): nat
    requires Complete(buf)
  {
    HEADER + ReadLen(buf)
  }

  /** Cuts off whole frames while there are any. */
  function Parse(buf: seq<Byte>): (seq<Payload>, seq<Byte>)
    decreases |buf|
  {
    if !Complete(buf) then ([], buf)
    else
      var (frames, rest) := Parse(buf[FrameEnd(buf)..]);
      ([buf[HEADER..FrameEnd(buf)]] + frames, rest)
  }

  lemma FirstFrame(p: Payload, more: seq<Byte>)
    ensures var buf := Encode(p) + more;
      Complete(buf) && FrameEnd(buf) == |Encode(p)| && buf[HEADER..FrameEnd(buf)] == p && buf[FrameEnd(buf)..] == more
  {
    var buf := Encode(p) + more;
    assert buf == WriteLen(|p|) + (p + more);
    LenRoundTrip(|p|, p + more);
  }

  /** Encoded payloads come back one by one, whatever follows them. */
  lemma {:induction false} ParseEncoded(ps: seq<Payload>, tail: seq<Byte>)
    ensures Parse(EncodeAll(ps) + tail) == (ps + Parse(tail).0, Parse(tail).1)
  {
    if ps == [] {
      assert EncodeAll(ps) + tail == tail && [] + Parse(tail).0 == Parse(tail).0;
    } else {
      var more := EncodeAll(ps[1..]) + tail;
      assert EncodeAll(ps) + tail == Encode(ps[0]) + more;
      FirstFrame(ps[0], more);
      ParseEncoded(ps[1..], tail);
      assert [ps[0]] + (ps[1..] + Parse(tail).0) == ps + Parse(tail).0;
    }
  }

  lemma FrontFrame(buf: seq<Byte>)
    requires Complete(buf)
    ensures Encode(buf[HEADER..FrameEnd(buf)]) == buf[..FrameEnd(buf)]
  {
    HeaderRoundTrip(buf[..HEADER]);
    assert ReadLen(buf[..HEADER]) == ReadLen(buf);
    assert buf[..FrameEnd(buf)] == buf[..HEADER] + buf[HEADER..FrameEnd(buf)];
  }

  lemma EncodeAllCons(p: Payload, ps: seq<Payload>)
    ensures EncodeAll([p] + ps) == Encode(p) + EncodeAll(ps)
  {
    assert ([p] + ps)[1..] == ps;
  }

  /** Parsing loses nothing: the frames re-encoded and the rest are the buffer, and the rest is
      shorter than one whole frame. */
  lemma {:induction false} ParseKeeps(buf: seq<Byte>)
    ensures var (frames, rest) := Parse(buf); EncodeAll(frames) + rest == buf && !Complete(rest)
    decreases |buf|
  {
    if Complete(buf) {
      var end := FrameEnd(buf);
      var (frames, rest) := Parse(buf[end..]);
      ParseKeeps(buf[end..]);
      FrontFrame(buf);
      EncodeAllCons(buf[HEADER..end], frames);
      Reattach(buf, end, EncodeAll(frames), rest);
    }
  }

  /** Reading in two chunks is reading at once. */
  lemma ParseChunks(a: seq<Byte>, b: seq<Byte>)
    ensures Parse(a + b) == (Parse(a).0 + Parse(Parse(a).1 + b).0, Parse(Parse(a).1 + b).1)
  {
    var (frames, rest) := Parse(a);
    ParseKeeps(a);
    assert a + b == EncodeAll(frames) + (rest + b);
    ParseEncoded(frames, rest + b);
  }

  function Flatten(chunks: seq<seq<Byte>>): seq<Byte> {
    if chunks == [] then [] else chunks[0] + Flatten(chunks[1..])
  }

  /** A receiver fed chunk by chunk: the frames extracted so far and the kept buffer. */
  function Feed(buf: seq<Byte>, chunks: seq<seq<Byte>>): (seq<Payload>, seq<Byte>)
    decreases |chunks|
  {
    if chunks == [] then ([], buf)
    else
      var (frames, rest) := Parse(buf + chunks[0]);
      var (later, left) := Feed(rest, chunks[1..]);
      (frames + later, left)
  }

  /** However the bytes are cut into reads, the frames and the kept rest are the same. */
  lemma {:induction false} FeedIsParse(buf: seq<Byte>, chunks: seq<seq<Byte>>)
    requires !Complete(buf)
    ensures Feed(buf, chunks) == Parse(buf + Flatten(chunks))
    decreases |chunks|
  {
    if chunks == [] {
      assert buf + [] == buf;
    } else {
      var read, later := buf + chunks[0], Flatten(chunks[1..]);
      ParseKeeps(read);
      FeedIsParse(Parse(read).1, chunks[1..]);
      ParseChunks(read, later);
      assert buf + (chunks[0] + later) == read + later;
    }
  }

  /** Printer and parser: whatever the chunking, a fresh receiver extracts exactly the payloads. */
  lemma FeedRoundTrip(ps: seq<Payload>, chunks: seq<seq<Byte>>)
    requires Flatten(chunks) == EncodeAll(ps)
    ensures Feed([], chunks) == (ps, [])
  {
    FeedIsParse([], chunks);
    assert [] + Flatten(chunks) == EncodeAll(ps) + [];
    ParseEncoded(ps, []);
    assert ps + [] == ps;
  }

  lemma {:induction false} EncodeAllConcat(a: seq<Payload>, b: seq<Payload>)
    ensures EncodeAll(a + b) == EncodeAll(a) + EncodeAll(b)
  {
    if a == [] {
      assert a + b == b;
    } else {
      assert (a + b)[1..] == a[1..] + b;
      EncodeAllConcat(a[1..], b);
    }
  }

  // ---------------------------------------------------------------- which read completes a frame

  function FrameLen(p: Payload): nat { HEADER + |p| }

  function Size(ps: seq<Payload>): nat {
    if ps == [] then 0 else FrameLen(ps[0]) + Size(ps[1..])
  }

  lemma {:induction false} SizeIs(ps: seq<Payload>)
    ensures |EncodeAll(ps)| == Size(ps)
  {
    if ps != [] { SizeIs(ps[1..]); }
  }

  function Sizes(chunks: seq<seq<Byte>>): (sizes: seq<nat>)
    ensures |sizes| == |chunks|
  {
    if chunks == [] then [] else [|chunks[0]|] + Sizes(chunks[1..])
  }

  /** The read that brings the n-th byte when reads have these sizes, or the number of reads if none does. */
  function Arrival(sizes: seq<nat>, n: int): nat {
    if sizes == [] || n <= sizes[0] then 0 else 1 + Arrival(sizes[1..], n - sizes[0])
  }

  /** Every payload with the read, counted from i, that brings the last byte of its frame. The first frame
      starts after n bytes of the reads, or in a kept buffer if n is negative. */
  function Arrivals(i: nat, sizes: seq<nat>, ps: seq<Payload>, n: int): (r: seq<(nat, Payload)>)
    ensures |r| == |ps|
  {
    if ps == [] then []
    else
      var end := n + FrameLen(ps[0]);
      [(i + Arrival(sizes, end), ps[0])] + Arrivals(i, sizes, ps[1..], end)
  }

  function Tagged(i: nat, ps: seq<Payload>): seq<(nat, Payload)> {
    if ps == [] then [] else [(i, ps[0])] + Tagged(i, ps[1..])
  }

  /** Every payload with the read, counted from i, in which a receiver cuts it off. */
  function FeedAt(i: nat, buf: seq<Byte>, chunks: seq<seq<Byte>>): seq<(nat, Payload)>
    decreases |chunks|
  {
    if chunks == [] then []
    else
      var (frames, rest) := Parse(buf + chunks[0]);
      Tagged(i, frames) + FeedAt(i + 1, rest, chunks[1..])
  }

  /** What is not whole with the first read arrives as if the later reads were all. */
  lemma {:induction false} ArrivalsLater(i: nat, k: nat, sizes: seq<nat>, ps: seq<Payload>, m: int)
    requires ps != [] ==> m + FrameLen(ps[0]) > 0
    ensures Arrivals(i, [k] + sizes, ps, m + k) == Arrivals(i + 1, sizes, ps, m)
    decreases |ps|
  {
    if ps != [] {
      var end := m + FrameLen(ps[0]);
      assert end + k == m + k + FrameLen(ps[0]) && ([k] + sizes)[1..] == sizes;
      ArrivalsLater(i, k, sizes, ps[1..], end);
    }
  }

  lemma {:induction false} ArrivalsSplit(i: nat, k: nat, sizes: seq<nat>, frames: seq<Payload>, later: seq<Payload>,
                                         n: int, m: int)
    requires m <= 0 && n + Size(frames) == m + k && (later != [] ==> m + FrameLen(later[0]) > 0)
    ensures Arrivals(i, [k] + sizes, frames + later, n) == Tagged(i, frames) + Arrivals(i + 1, sizes, later, m)
    decreases |frames|
  {
    var rest := Arrivals(i + 1, sizes, later, m);
    if frames == [] {
      assert frames + later == later && Tagged(i, frames) + rest == rest;
      ArrivalsLater(i, k, sizes, later, m);
    } else {
      var end := n + FrameLen(frames[0]);
      assert (frames + later)[1..] == frames[1..] + later && (frames + later)[0] == frames[0];
      ArrivalsSplit(i, k, sizes, frames[1..], later, end, m);
      Regroup([(i, frames[0])], Tagged(i, frames[1..]), rest);
    }
  }

  /** A frame whose start is kept is not whole in what is kept. */
  lemma KeptIsShort(rest: seq<Byte>, later: seq<Byte>, p: Payload, more: seq<Byte>)
    requires !Complete(rest) && rest + later == Encode(p) + more
    ensures |rest| < FrameLen(p)
  {
    if |rest| >= |Encode(p)| {
      assert rest == (rest + later)[..|rest|];
      assert rest == Encode(p) + more[..|rest| - |Encode(p)|];
      FirstFrame(p, more[..|rest| - |Encode(p)|]);
    }
  }

  lemma StartIsShort(rest: seq<Byte>, more: seq<Byte>, ps: seq<Payload>, tail: seq<Byte>)
    requires !Complete(rest) && rest + more == EncodeAll(ps) + tail
    ensures ps != [] ==> |rest| < FrameLen(ps[0])
  {
    if ps != [] {
      Regroup(Encode(ps[0]), EncodeAll(ps[1..]), tail);
      KeptIsShort(rest, more, ps[0], EncodeAll(ps[1..]) + tail);
    }
  }

  /** One read: the frames it cuts off, and those of the later reads. */
  lemma ReadSplits(read: seq<Byte>, more: seq<Byte>, ps: seq<Payload>, tail: seq<Byte>,
                   frames: seq<Payload>, rest: seq<Byte>) returns (later: seq<Payload>)
    requires !Complete(tail) && read + more == EncodeAll(ps) + tail && Parse(read) == (frames, rest)
    ensures ps == frames + later && !Complete(rest) && rest + more == EncodeAll(later) + tail
    ensures Size(frames) + |rest| == |read| && (later != [] ==> |rest| < FrameLen(later[0]))
  {
    later := Parse(rest + more).0;
    ParseKeeps(read);
    ParseKeeps(rest + more);
    ParseChunks(read, more);
    ParseEncoded(ps, tail);
    assert ps + [] == ps;
    SizeIs(frames);
    StartIsShort(rest, more, later, tail);
  }

  lemma NoFrames(buf: seq<Byte>, ps: seq<Payload>, tail: seq<Byte>)
    requires !Complete(buf) && buf + [] == EncodeAll(ps) + tail
    ensures ps == []
  {
    StartIsShort(buf, [], ps, tail);
    SizeIs(ps);
    assert |buf + []| == |EncodeAll(ps) + tail|;
  }

  lemma {:induction false} FeedArrives(i: nat, buf: seq<Byte>, chunks: seq<seq<Byte>>, ps: seq<Payload>, tail: seq<Byte>)
    requires !Complete(buf) && !Complete(tail) && buf + Flatten(chunks) == EncodeAll(ps) + tail
    ensures FeedAt(i, buf, chunks) == Arrivals(i, Sizes(chunks), ps, 0 - |buf|)
    decreases |chunks|
  {
    if chunks == [] {
      NoFrames(buf, ps, tail);
    } else {
      var read, more := buf + chunks[0], Flatten(chunks[1..]);
      var (frames, rest) := Parse(read);
      Regroup(buf, chunks[0], more);
      var later := ReadSplits(read, more, ps, tail, frames, rest);
      FeedArrives(i + 1, rest, chunks[1..], later, tail);
      ArrivalsSplit(i, |chunks[0]|, Sizes(chunks[1..]), frames, later, 0 - |buf|, 0 - |rest|);
    }
  }

  function Sum(sizes: seq<nat>): nat { if sizes == [] then 0 else sizes[0] + Sum(sizes[1..]) }

  lemma {:induction false} SizesSum(chunks: seq<seq<Byte>>)
    ensures Sum(Sizes(chunks)) == |Flatten(chunks)|
  {
    if chunks != [] { SizesSum(chunks[1..]); }
  }

  lemma {:induction false} ArrivesBefore(sizes: seq<nat>, n: int)
    requires sizes != [] && n <= Sum(sizes)
    ensures Arrival(sizes, n) < |sizes|
    decreases |sizes|
  {
    if n > sizes[0] { ArrivesBefore(sizes[1..], n - sizes[0]); }
  }

  /** All frames arrive, in order. */
  lemma {:induction false} ArrivalsWithin(i: nat, sizes: seq<nat>, ps: seq<Payload>, n: int)
    requires n + Size(ps) <= Sum(sizes) && (ps != [] ==> sizes != [])
    ensures forall k :: 0 <= k < |ps| ==> Arrivals(i, sizes, ps, n)[k].1 == ps[k]
    ensures forall k :: 0 <= k < |ps| ==> Arrivals(i, sizes, ps, n)[k].0 < i + |sizes|
    decreases |ps|
  {
    if ps != [] {
      var end := n + FrameLen(ps[0]);
      ArrivesBefore(sizes, end);
      ArrivalsWithin(i, sizes, ps[1..], end);
      var r := Arrivals(i, sizes, ps, n);
      forall k | 0 <= k < |ps| ensures r[k].1 == ps[k] && r[k].0 < i + |sizes| {
        if k > 0 { assert r[k] == Arrivals(i, sizes, ps[1..], end)[k - 1] && ps[k] == ps[1..][k - 1]; }
      }
    }
  }

  lemma EnoughRead(chunks: seq<seq<Byte>>, ps: seq<Payload>, tail: seq<Byte>)
    requires Flatten(chunks) == EncodeAll(ps) + tail
    ensures Size(ps) <= Sum(Sizes(chunks)) && (ps != [] ==> chunks != [])
  {
    SizesSum(chunks);
    SizeIs(ps);
    assert |EncodeAll(ps) + tail| == |EncodeAll(ps)| + |tail|;
  }

  /** All payloads arrive, ... */
  lemma AllArrive(chunks: seq<seq<Byte>>, ps: seq<Payload>, tail: seq<Byte>)
    requires Flatten(chunks) == EncodeAll(ps) + tail
    ensures var ts := Arrivals(0, Sizes(chunks), ps, 0); forall k :: 0 <= k < |ps| ==> ts[k].1 == ps[k] && ts[k].0 < |chunks|
  {
    EnoughRead(chunks, ps, tail);
    ArrivalsWithin(0, Sizes(chunks), ps, 0);
  }

  /** ... and a receiver that starts with nothing kept cuts each off in the read that brings the last byte
      of its frame. */
  lemma CutOnArrival(chunks: seq<seq<Byte>>, ps: seq<Payload>, tail: seq<Byte>)
    requires Flatten(chunks) == EncodeAll(ps) + tail && !Complete(tail)
    ensures FeedAt(0, [], chunks) == Arrivals(0, Sizes(chunks), ps, 0)
  {
    assert [] + Flatten(chunks) == Flatten(chunks);
    FeedArrives(0, [], chunks, ps, tail);
  }

  /** A frame in two reads arrives with the first if that has all of it, else with the second. */
  lemma TwoReads(a: seq<Byte>, b: seq<Byte>, p: Payload)
    requires a + b == Encode(p)
    ensures Flatten([a, b]) == EncodeAll([p]) == Encode(p) + []
    ensures Arrivals(0, Sizes([a, b]), [p], 0) == [(if |a| == FrameLen(p) then 0 else 1, p)]
  {
    var chunks: seq<seq<Byte>>, none: seq<seq<Byte>>, rest: seq<Payload> := [a, b], [], [];
    assert chunks[1..] == [b] && chunks[1..][1..] == none && [p][1..] == rest;
    assert Flatten(none) == [] && Flatten(chunks[1..]) == b + [] == b;
    assert EncodeAll(rest) == [] && EncodeAll([p]) == Encode(p) + [] == Encode(p);
    assert Sizes(none) == [] && Sizes(chunks[1..]) == [|b|] && Sizes(chunks) == [|a|, |b|] && [|a|, |b|][1..] == [|b|];
    assert |a + b| == FrameLen(p);
    assert Arrival([|b|], FrameLen(p) - |a|) == 0;
    assert Arrivals(0, Sizes(chunks), rest, FrameLen(p)) == [];
  }
}
