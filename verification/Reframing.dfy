/**
 The loop that cuts the byte stream of a TCP connection back into data packets
 (QAppPacketReceived of QKDApp014, DataPacketReceived of QKDApp004).
 */
module Reframing {
  import opened Text
  import opened AppHeader

  datatype Packet = Packet(header: Header, payload: Bytes)

  /** What the loop makes of a buffer; aborted: it met a zero or impossible length, or had
      no complete header to look at. */
  datatype Outcome = Outcome(delivered: seq<Packet>, rest: Bytes, aborted: bool)

  /** RemoveHeader of a complete packet. */
  function Opened(b: Bytes): Packet
    requires |b| >= HEADER_SIZE
  {
    Packet(Decode(b), b[HEADER_SIZE..])
  }

  /** The while loop, with the length read from the header it peeked at. */
  function Cut(buffer: Bytes, length: nat): Outcome
    decreases |buffer|
  {
    if |buffer| < length then Outcome([], buffer, false)
    else if length < HEADER_SIZE then Outcome([], buffer, true)
    else
      var packet, rest := Opened(buffer[..length]), buffer[length..];
      if |rest| > HEADER_SIZE then
        var more := Cut(rest, Decode(rest).length);
        Outcome([packet] + more.delivered, more.rest, more.aborted)
      else Outcome([packet], rest, false)
  }

  function Then(delivered: seq<Packet>, more: Outcome): Outcome {
    Outcome(delivered + more.delivered, more.rest, more.aborted)
  }

  lemma {:induction false} CutStep(delivered: seq<Packet>, buffer: Bytes, length: nat)
    requires HEADER_SIZE <= length <= |buffer|
    ensures Then(delivered, Cut(buffer, length)) ==
            var rest := buffer[length..];
            var now := delivered + [Opened(buffer[..length])];
            if |rest| > HEADER_SIZE then Then(now, Cut(rest, Decode(rest).length)) else Outcome(now, rest, false)
  {
    var packet, rest := Opened(buffer[..length]), buffer[length..];
    if |rest| > HEADER_SIZE {
      var more := Cut(rest, Decode(rest).length);
      assert delivered + ([packet] + more.delivered) == delivered + [packet] + more.delivered;
    }
  }

  /** One arrival. */
  function Arrived(buffer: Bytes): Outcome {
    if |buffer| < HEADER_SIZE || Decode(buffer).length == 0 then Outcome([], buffer, true)
    else Cut(buffer, Decode(buffer).length)
  }

  /** What was kept of the bytes of one sender. */
  function BufferOf(buffers: map<nat, Bytes>, from: nat): Bytes {
    if from in buffers then buffers[from] else []
  }

  class Receiver {
    /** One buffer per sender. */
    var m_buffer: map<nat, Bytes>

    constructor ()
      ensures m_buffer == map[]
    {
      m_buffer := map[];
    }

    /** Outside READY the bytes are dropped, before they reach a buffer. */
    method DataPacketReceived(p: Bytes, from: nat, ready: bool) returns (delivered: seq<Packet>, aborted: bool)
      modifies this
      ensures !ready ==> m_buffer == old(m_buffer) && delivered == [] && !aborted
      ensures ready ==> var out := Arrived(BufferOf(old(m_buffer), from) + p);
                        && m_buffer == old(m_buffer)[from := out.rest]
                        && delivered == out.delivered && aborted == out.aborted
    {
      delivered, aborted := [], false;
      if !ready {
        return;
      }
      var buffer := BufferOf(m_buffer, from) + p;
      delivered, buffer, aborted := Reframe(buffer);
      m_buffer := m_buffer[from := buffer];
    }

    /** The loop over one buffer; the original shares the buffer with the map. */
    method Reframe(bytes: Bytes) returns (delivered: seq<Packet>, buffer: Bytes, aborted: bool)
      ensures Outcome(delivered, buffer, aborted) == Arrived(bytes)
    {
      delivered, buffer, aborted := [], bytes, false;
      if |buffer| < HEADER_SIZE {
        return [], buffer, true;
      }
      var header := Decode(buffer);
      if header.length == 0 {
        return [], buffer, true;
      }
      ghost var all := Cut(buffer, header.length);
      while |buffer| >= header.length
        invariant !aborted && Then(delivered, Cut(buffer, header.length)) == all
        decreases |buffer|
      {
        if header.length < HEADER_SIZE {
          aborted := true;
          return;
        }
        CutStep(delivered, buffer, header.length);
        var completePacket := buffer[..header.length];
        buffer := buffer[header.length..];
        delivered := delivered + [Opened(completePacket)];
        if |buffer| > HEADER_SIZE {
          header := Decode(buffer);
        } else {
          return;
        }
      }
    }
  }

  // ----- Framed streams

  /** What SendDataPacket puts on the wire: a length that counts header and payload. */
  predicate Framed(p: Packet) {
    Valid(p.header) && p.header.length == HEADER_SIZE + |p.payload|
  }

  predicate AllFramed(ps: seq<Packet>) {
    forall i :: 0 <= i < |ps| ==> Framed(ps[i])
  }

  function Wire(p: Packet): Bytes
    requires Framed(p)
  {
    Encode(p.header) + p.payload
  }

  function Stream(ps: seq<Packet>): Bytes
    requires AllFramed(ps)
  {
    if ps == [] then [] else Wire(ps[0]) + Stream(ps[1..])
  }

  lemma WireOpens(p: Packet, more: Bytes)
    requires Framed(p)
    ensures |Wire(p)| == p.header.length && Opened(Wire(p)) == p
    ensures Decode(Wire(p) + more) == p.header
  {
    DecodeEncodeIff(p.header, p.payload);
    DecodeEncodeIff(p.header, p.payload + more);
    assert Wire(p) + more == Encode(p.header) + (p.payload + more);
    assert Wire(p)[HEADER_SIZE..] == p.payload;
  }

  /** The number of packets a prefix of the stream holds whole, and what is left then. */
  function Whole(buffer: Bytes, ps: seq<Packet>): (k: nat)
    requires AllFramed(ps)
    ensures k <= |ps|
  {
    if ps == [] || |buffer| < ps[0].header.length then 0
    else 1 + Whole(buffer[ps[0].header.length..], ps[1..])
  }

  function Left(buffer: Bytes, ps: seq<Packet>): Bytes
    requires AllFramed(ps)
  {
    if ps == [] || |buffer| < ps[0].header.length then buffer
    else Left(buffer[ps[0].header.length..], ps[1..])
  }

  lemma {:induction false} FirstPacket(buffer: Bytes, ps: seq<Packet>)
    requires AllFramed(ps) && buffer <= Stream(ps) && |buffer| >= HEADER_SIZE
    ensures ps != [] && Decode(buffer) == ps[0].header
    ensures |buffer| >= ps[0].header.length ==>
              Opened(buffer[..ps[0].header.length]) == ps[0] && buffer[ps[0].header.length..] <= Stream(ps[1..])
  {
    var stream, first := Stream(ps), ps[0];
    WireOpens(first, Stream(ps[1..]));
    assert buffer == stream[..|buffer|];
    DecodePrefix(buffer, stream);
    if |buffer| >= first.header.length {
      assert buffer[..first.header.length] == Wire(first);
    }
  }

  lemma DecodePrefix(a: Bytes, b: Bytes)
    requires HEADER_SIZE <= |a| <= |b| && a == b[..|a|]
    ensures Decode(a) == Decode(b)
  {
    assert a[0..4] == b[0..4] && a[4..8] == b[4..8];
    assert a[10..42] == b[10..42] && a[42..74] == b[42..74] && a[74..106] == b[74..106];
  }

  /** The buffer ends exactly with a packet that is nothing but a header. */
  predicate EndsBare(buffer: Bytes, ps: seq<Packet>)
    requires AllFramed(ps)
  {
    Left(buffer, ps) == [] && Whole(buffer, ps) > 0 && ps[Whole(buffer, ps) - 1].payload == []
  }

  /** All complete packets delivered, or all but a bare header at the end, which waits. */
  function Served(buffer: Bytes, ps: seq<Packet>, waits: bool): Outcome
    requires AllFramed(ps) && (waits ==> EndsBare(buffer, ps))
  {
    var k := Whole(buffer, ps);
    if waits then Outcome(ps[..k - 1], Encode(ps[k - 1].header), false)
    else Outcome(ps[..k], Left(buffer, ps), false)
  }

  /** A bare header behind something else: the loop asks for more than a header. */
  predicate Waits(buffer: Bytes, ps: seq<Packet>)
    requires AllFramed(ps)
  {
    EndsBare(buffer, ps) && |buffer| > HEADER_SIZE
  }

  lemma {:induction false} RestOfStream(buffer: Bytes, ps: seq<Packet>)
    requires AllFramed(ps) && ps != [] && buffer <= Stream(ps) && |buffer| >= ps[0].header.length
    ensures buffer[ps[0].header.length..] <= Stream(ps[1..])
    ensures buffer == Wire(ps[0]) + buffer[ps[0].header.length..]
  {
    WireOpens(ps[0], []);
    var length := ps[0].header.length;
    assert buffer[..length] == Stream(ps)[..length] == Wire(ps[0]);
    assert Stream(ps)[length..] == Stream(ps[1..]);
    assert buffer[length..] == Stream(ps)[length..][..|buffer| - length];
  }

  lemma {:induction false} DropFirst(buffer: Bytes, ps: seq<Packet>, rest: Bytes)
    requires AllFramed(ps) && ps != [] && |buffer| >= ps[0].header.length && rest == buffer[ps[0].header.length..]
    ensures Whole(buffer, ps) == 1 + Whole(rest, ps[1..]) && Left(buffer, ps) == Left(rest, ps[1..])
  {
  }

  /** What a shorter stream is served continues what was delivered before. */
  lemma {:induction false} JoinServed(ps: seq<Packet>, j: nat, all: Bytes, next: Bytes, waits: bool)
    requires AllFramed(ps) && j <= |ps| && next != []
    requires Whole(all, ps) == j + Whole(next, ps[j..]) && Left(all, ps) == Left(next, ps[j..])
    ensures EndsBare(all, ps) <==> EndsBare(next, ps[j..])
    ensures waits && EndsBare(all, ps) ==> Then(ps[..j], Served(next, ps[j..], true)) == Served(all, ps, true)
    ensures Then(ps[..j], Served(next, ps[j..], false)) == Served(all, ps, false)
  {
    var w := Whole(next, ps[j..]);
    assert ps[..j] + ps[j..][..w] == ps[..j + w];
    if EndsBare(next, ps[j..]) {
      assert ps[..j] + ps[j..][..w - 1] == ps[..j + w - 1];
    }
  }

  lemma {:induction false} CutIsStep(buffer: Bytes, ps: seq<Packet>, length: nat, rest: Bytes)
    requires AllFramed(ps) && ps != [] && length == ps[0].header.length && HEADER_SIZE <= length <= |buffer|
    requires rest == buffer[length..] && |rest| > HEADER_SIZE && Opened(buffer[..length]) == ps[0]
    requires Cut(rest, Decode(rest).length) == Served(rest, ps[1..], Waits(rest, ps[1..]))
    ensures Cut(buffer, length) == Served(buffer, ps, Waits(buffer, ps))
  {
    assert ps[..1] == [ps[0]];
    CutStep([], buffer, length);
    assert Cut(buffer, length) == Then([], Cut(buffer, length)) == Then(ps[..1], Cut(rest, Decode(rest).length));
    DropFirst(buffer, ps, rest);
    JoinServed(ps, 1, buffer, rest, true);
  }

  /** A complete packet of a header's size is a bare header. */
  lemma {:induction false} AloneIsBare(rest: Bytes, ps: seq<Packet>)
    requires AllFramed(ps) && rest <= Stream(ps) && |rest| <= HEADER_SIZE && Whole(rest, ps) > 0
    ensures Whole(rest, ps) == 1 && Left(rest, ps) == [] && ps[0].payload == [] && rest == Encode(ps[0].header)
  {
    RestOfStream(rest, ps);
    DropFirst(rest, ps, []);
    assert rest == Wire(ps[0]) + [];
  }

  /** The loop ends behind the first packet. */
  lemma {:induction false} CutIsLast(buffer: Bytes, ps: seq<Packet>, length: nat, rest: Bytes)
    requires AllFramed(ps) && ps != [] && length == ps[0].header.length && HEADER_SIZE <= length <= |buffer|
    requires rest == buffer[length..] && |rest| <= HEADER_SIZE && Opened(buffer[..length]) == ps[0]
    requires rest <= Stream(ps[1..])
    ensures Cut(buffer, length) == Served(buffer, ps, Waits(buffer, ps))
  {
    assert ps[..1] == [ps[0]];
    DropFirst(buffer, ps, rest);
    if Whole(rest, ps[1..]) > 0 {
      AloneIsBare(rest, ps[1..]);
    }
  }

  lemma {:induction false} CutIs(buffer: Bytes, ps: seq<Packet>)
    requires AllFramed(ps) && buffer <= Stream(ps) && |buffer| >= HEADER_SIZE
    ensures Decode(buffer).length != 0
    ensures Cut(buffer, Decode(buffer).length) == Served(buffer, ps, Waits(buffer, ps))
    decreases |ps|
  {
    FirstPacket(buffer, ps);
    var length := ps[0].header.length;
    if |buffer| >= length {
      var rest := buffer[length..];
      if |rest| > HEADER_SIZE {
        CutIs(rest, ps[1..]);
        CutIsStep(buffer, ps, length, rest);
      } else {
        CutIsLast(buffer, ps, length, rest);
      }
    }
  }

  /** The buffer is the first k packets and something left, which belongs to the packets
      to come and is less than one of them. */
  predicate LeftOk(buffer: Bytes, ps: seq<Packet>, k: nat, left: Bytes)
    requires AllFramed(ps)
  {
    && k <= |ps| && buffer == Stream(ps[..k]) + left && left <= Stream(ps[k..])
    && (if k == |ps| then left == [] else |left| < ps[k].header.length)
  }

  lemma LeftStep(rest: Bytes, ps: seq<Packet>, k: nat, left: Bytes)
    requires AllFramed(ps) && ps != [] && LeftOk(rest, ps[1..], k, left)
    ensures LeftOk(Wire(ps[0]) + rest, ps, k + 1, left)
  {
    assert ps[..k + 1][1..] == ps[1..][..k] && ps[1..][k..] == ps[k + 1..];
    assert Stream(ps[..k + 1]) == Wire(ps[0]) + Stream(ps[1..][..k]);
    assert Wire(ps[0]) + Stream(ps[1..][..k]) + left == Wire(ps[0]) + (Stream(ps[1..][..k]) + left);
  }

  lemma {:induction false} LeftIs(buffer: Bytes, ps: seq<Packet>)
    requires AllFramed(ps) && buffer <= Stream(ps)
    ensures LeftOk(buffer, ps, Whole(buffer, ps), Left(buffer, ps))
    decreases |ps|
  {
    if ps == [] || |buffer| < ps[0].header.length {
      assert ps[..0] == [] && ps[0..] == ps;
    } else {
      var rest := buffer[ps[0].header.length..];
      RestOfStream(buffer, ps);
      LeftIs(rest, ps[1..]);
      LeftStep(rest, ps, Whole(rest, ps[1..]), Left(rest, ps[1..]));
    }
  }

  // ----- Any chunking

  function Flat(chunks: seq<Bytes>): Bytes {
    if chunks == [] then [] else chunks[0] + Flat(chunks[1..])
  }

  /** Every arrival in turn, until one aborts. */
  function Session(buffer: Bytes, chunks: seq<Bytes>): Outcome
    decreases |chunks|
  {
    if chunks == [] then Outcome([], buffer, false)
    else
      var out := Arrived(buffer + chunks[0]);
      if out.aborted then out else Then(out.delivered, Session(out.rest, chunks[1..]))
  }

  /** Every arrival leaves at least a header in the buffer. */
  predicate LongEnough(buffer: Bytes, chunks: seq<Bytes>)
    decreases |chunks|
  {
    chunks == []
    || (|buffer + chunks[0]| >= HEADER_SIZE && LongEnough(Arrived(buffer + chunks[0]).rest, chunks[1..]))
  }

  /** One arrival in a framed stream aborts exactly if it leaves less than a header.
      Otherwise it delivers exactly the packets that are complete, unless it ends exactly
      with a bare header behind another packet: that header stays in the buffer. */
  lemma {:induction false} ArrivalDelivers(buffer: Bytes, ps: seq<Packet>)
    requires AllFramed(ps) && buffer <= Stream(ps)
    ensures Arrived(buffer).aborted <==> |buffer| < HEADER_SIZE
    ensures |buffer| >= HEADER_SIZE ==> Arrived(buffer) == Served(buffer, ps, Waits(buffer, ps))
    ensures |buffer| >= HEADER_SIZE ==>
              (Arrived(buffer).delivered == ps[..Whole(buffer, ps)] <==> !Waits(buffer, ps))
  {
    if |buffer| >= HEADER_SIZE {
      CutIs(buffer, ps);
    }
  }

  lemma {:induction false} StreamAppend(ps: seq<Packet>, qs: seq<Packet>)
    requires AllFramed(ps) && AllFramed(qs)
    ensures AllFramed(ps + qs) && Stream(ps + qs) == Stream(ps) + Stream(qs)
  {
    if ps == [] {
      assert ps + qs == qs;
    } else {
      StreamAppend(ps[1..], qs);
      assert (ps + qs)[0] == ps[0] && (ps + qs)[1..] == ps[1..] + qs;
      assert forall i :: 0 <= i < |ps + qs| ==> Framed((ps + qs)[i]);
      Associate(Wire(ps[0]), Stream(ps[1..]), Stream(qs));
    }
  }

  lemma Associate(a: Bytes, b: Bytes, c: Bytes)
    ensures a + (b + c) == a + b + c
  {
  }

  lemma {:induction false} SkipOne(ps: seq<Packet>, tail: Bytes)
    requires AllFramed(ps) && ps != []
    ensures Whole(Wire(ps[0]) + tail, ps) == 1 + Whole(tail, ps[1..])
    ensures Left(Wire(ps[0]) + tail, ps) == Left(tail, ps[1..])
  {
    WireOpens(ps[0], []);
    assert (Wire(ps[0]) + tail)[ps[0].header.length..] == tail;
  }

  /** Whole packets in front count and drop out. */
  lemma {:induction false} WholeSkips(ps: seq<Packet>, j: nat, tail: Bytes)
    requires AllFramed(ps) && j <= |ps|
    ensures Whole(Stream(ps[..j]) + tail, ps) == j + Whole(tail, ps[j..])
    ensures Left(Stream(ps[..j]) + tail, ps) == Left(tail, ps[j..])
    decreases j
  {
    if j == 0 {
      assert ps[..0] == [] && ps[0..] == ps && [] + tail == tail;
    } else {
      var rest := Stream(ps[1..][..j - 1]);
      WholeSkips(ps[1..], j - 1, tail);
      SkipOne(ps, rest + tail);
      assert ps[..j][1..] == ps[1..][..j - 1] && ps[1..][j - 1..] == ps[j..];
      Associate(Wire(ps[0]), rest, tail);
    }
  }

  lemma PrefixOfPrefix(a: Bytes, b: Bytes, s: Bytes)
    requires a + b <= s
    ensures a <= s
  {
    assert a == (a + b)[..|a|] == s[..|a|];
  }

  lemma AfterPackets(a: Bytes, left: Bytes, b: Bytes, s: Bytes)
    requires a + left + b <= a + s
    ensures left + b <= s
  {
    assert (a + left + b)[|a|..] == left + b;
    assert (a + s)[|a|..] == s;
    forall i | 0 <= i < |left + b| ensures |left + b| <= |s| && (left + b)[i] == s[i] {
      assert (a + left + b)[|a| + i] == (a + s)[|a| + i];
    }
  }

  /** The stream after j whole packets: what is left of it, and what is still to come. */
  lemma {:induction false} PacketsBehind(now: Bytes, left: Bytes, later: Bytes, ps: seq<Packet>, j: nat)
    requires AllFramed(ps) && j <= |ps| && now == Stream(ps[..j]) + left && now + later <= Stream(ps)
    ensures left + later <= Stream(ps[j..])
    ensures Whole(now + later, ps) == j + Whole(left + later, ps[j..])
    ensures Left(now + later, ps) == Left(left + later, ps[j..])
  {
    assert ps == ps[..j] + ps[j..];
    StreamAppend(ps[..j], ps[j..]);
    AfterPackets(Stream(ps[..j]), left, later, Stream(ps[j..]));
    assert now + later == Stream(ps[..j]) + (left + later);
    WholeSkips(ps, j, left + later);
  }

  /** A waiting header is the last of the complete packets. */
  lemma {:induction false} BareBehind(now: Bytes, ps: seq<Packet>, k: nat)
    requires AllFramed(ps) && 0 < k <= |ps| && ps[k - 1].payload == [] && now == Stream(ps[..k])
    ensures now == Stream(ps[..k - 1]) + Encode(ps[k - 1].header)
  {
    var last := ps[k - 1];
    assert ps[..k] == ps[..k - 1] + [last];
    StreamAppend(ps[..k - 1], [last]);
    assert Stream([last]) == Wire(last) + Stream([]) == Encode(last.header);
  }

  /** The stream after an arrival: what was not delivered is still the rest of it. */
  lemma {:induction false} ArrivalLeaves(now: Bytes, later: Bytes, ps: seq<Packet>, out: Outcome, j: nat)
    requires AllFramed(ps) && now + later <= Stream(ps)
    requires out == Served(now, ps, Waits(now, ps)) && j == |out.delivered|
    ensures j <= |ps| && out.delivered == ps[..j] && out.rest + later <= Stream(ps[j..])
    ensures Whole(now + later, ps) == j + Whole(out.rest + later, ps[j..])
    ensures Left(now + later, ps) == Left(out.rest + later, ps[j..])
  {
    PrefixOfPrefix(now, later, Stream(ps));
    LeftIs(now, ps);
    if Waits(now, ps) {
      BareBehind(now, ps, Whole(now, ps));
    }
    PacketsBehind(now, out.rest, later, ps, j);
  }

  lemma {:induction false} SessionStep(buffer: Bytes, chunks: seq<Bytes>, out: Outcome)
    requires chunks != [] && out == Arrived(buffer + chunks[0]) && !out.aborted
    ensures Session(buffer, chunks) == Then(out.delivered, Session(out.rest, chunks[1..]))
  {
  }

  /** What the receiver holds when the last chunk has arrived and is about to be cut. */
  function Last(buffer: Bytes, chunks: seq<Bytes>): Bytes
    requires chunks != []
    decreases |chunks|
  {
    var now := buffer + chunks[0];
    if |chunks| == 1 then now else Last(Arrived(now).rest, chunks[1..])
  }

  /** However the stream is cut into arrivals, as long as each leaves a header's worth of
      bytes: the packets delivered are the packets completed, in order and with header and
      payload as they were sent, and nothing aborts.  One complete packet is missing, and
      waits in the buffer, exactly if the stream so far ends with a bare header and the
      last arrival was cut from more than that header. */
  lemma {:induction false} AnyChunkingDelivers(buffer: Bytes, chunks: seq<Bytes>, ps: seq<Packet>, all: Bytes)
    requires AllFramed(ps) && all == buffer + Flat(chunks) <= Stream(ps) && LongEnough(buffer, chunks)
    requires chunks != []
    ensures Session(buffer, chunks) == Served(all, ps, EndsBare(all, ps) && |Last(buffer, chunks)| > HEADER_SIZE)
    decreases |chunks|
  {
    var now, later := buffer + chunks[0], Flat(chunks[1..]);
    Associate(buffer, chunks[0], later);
    PrefixOfPrefix(now, later, Stream(ps));
    ArrivalDelivers(now, ps);
    var out := Arrived(now);
    SessionStep(buffer, chunks, out);
    if |chunks| == 1 {
      assert now == all;
    } else {
      var j, next := |out.delivered|, out.rest + later;
      ArrivalLeaves(now, later, ps, out, j);
      AnyChunkingDelivers(out.rest, chunks[1..], ps[j..], next);
      assert chunks[1..] != [] && |out.rest + chunks[1..][0]| >= HEADER_SIZE;
      Associate(out.rest, chunks[1..][0], Flat(chunks[1..][1..]));
      JoinServed(ps, j, all, next, |Last(buffer, chunks)| > HEADER_SIZE);
    }
  }

  /** In particular a stream that has arrived whole has been delivered whole, unless its
      last packet is a bare header that came behind other bytes. */
  lemma {:induction false} WholeStreamDelivers(chunks: seq<Bytes>, ps: seq<Packet>)
    requires AllFramed(ps) && Flat(chunks) == Stream(ps) && LongEnough([], chunks) && chunks != []
    ensures ps != [] && !Session([], chunks).aborted
    ensures Session([], chunks) == Outcome(ps, [], false) <==>
            ps[|ps| - 1].payload != [] || |Last([], chunks)| == HEADER_SIZE
  {
    assert [] + Flat(chunks) == Flat(chunks);
    AnyChunkingDelivers([], chunks, ps, Flat(chunks));
    AllWhole(ps);
    LastIsLong([], chunks);
    assert |[] + chunks[0]| >= HEADER_SIZE && |Flat(chunks)| >= |chunks[0]|;
  }

  lemma {:induction false} AllWhole(ps: seq<Packet>)
    requires AllFramed(ps)
    ensures Whole(Stream(ps), ps) == |ps| && Left(Stream(ps), ps) == []
    ensures Served(Stream(ps), ps, false) == Outcome(ps, [], false)
  {
    WholeSkips(ps, |ps|, []);
    assert ps[..|ps|] == ps && Stream(ps) + [] == Stream(ps);
  }

  lemma {:induction false} LastIsLong(buffer: Bytes, chunks: seq<Bytes>)
    requires chunks != [] && LongEnough(buffer, chunks)
    ensures |Last(buffer, chunks)| >= HEADER_SIZE
    decreases |chunks|
  {
    if |chunks| > 1 {
      LastIsLong(Arrived(buffer + chunks[0]).rest, chunks[1..]);
    }
  }

  /** The one case in full: a bare header behind a packet is complete, and stays in the
      buffer until more bytes arrive. */
  lemma BareHeaderWaits(p: Packet, h: Header)
    requires Framed(p) && Valid(h) && h.length == HEADER_SIZE
    ensures Arrived(Wire(p) + Encode(h)) == Outcome([p], Encode(h), false)
    ensures Arrived(Encode(h)) == Outcome([Packet(h, [])], [], false)
  {
    WireOpens(p, Encode(h));
    var buffer := Wire(p) + Encode(h);
    assert buffer[..p.header.length] == Wire(p) && buffer[p.header.length..] == Encode(h);
    DecodeEncodeIff(h, []);
    assert Encode(h) + [] == Encode(h) && |Encode(h)| == HEADER_SIZE;
    assert Encode(h)[..HEADER_SIZE] == Encode(h) && Encode(h)[HEADER_SIZE..] == [];
  }
}
