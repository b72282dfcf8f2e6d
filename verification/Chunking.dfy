/** How a request arrives does not matter: however the network splits the bytes and however
    the pieces fall into calls of `do_read`, the same response is staged. */
module Chunking {
  import opened Wrappers
  import opened CString
  import opened Http
  import opened World
  import opened Connection
  import opened Responses
  import opened Reading

  /** Calls of `recv` that deliver bytes, are interrupted or would block, without EOF or error. */
  predicate Quiet(ev: seq<RecvResult>) {
    forall k :: 0 <= k < |ev| ==> !ev[k].Eof? && !ev[k].RecvError? && (ev[k].Data? ==> ev[k].reallocOk)
  }

  /** The bytes that calls of `recv` deliver until there is nothing more to read. */
  function Delivered(ev: seq<RecvResult>): string {
    if ev == [] then ""
    else
      match ev[0]
      case Data(bytes, _) => bytes + Delivered(ev[1..])
      case RecvInterrupted => Delivered(ev[1..])
      case _ => ""
  }

  predicate AllQuiet(calls: seq<seq<RecvResult>>) {
    forall k :: 0 <= k < |calls| ==> Quiet(calls[k])
  }

  function AllBytes(calls: seq<seq<RecvResult>>): string {
    if calls == [] then "" else Delivered(calls[0]) + AllBytes(calls[1..])
  }

  /** `do_read` is called again as long as the client is READING. */
  function ReadCalls(cfg: Config, w: World, c: Client, calls: seq<seq<RecvResult>>): Client
    decreases |calls|
  {
    if calls == [] || c.state != Reading then c
    else ReadCalls(cfg, w, ReadStep(cfg, w, c, calls[0]), calls[1..])
  }

  /** All that the rest of the server sees of a client: everything but the input buffer. */
  function Outward(c: Client): Client { c.(inBuf := "", inputCapacity := 0) }

  function FirstBytes(s: string): string { if |s| <= MAX_REQUEST_SIZE then s else s[..MAX_REQUEST_SIZE] }

  /** The reference: look at the first 8192 bytes of the stream all at once. */
  function Reference(cfg: Config, w: World, c: Client, stream: string): Client {
    match StrNStr(FirstBytes(stream), BLANK_LINE)
    case Some(k) => Outward(Place(c, Stage(cfg, w, stream[..k + 4])).(state := SendingHeader))
    case None =>
      if |stream| > MAX_REQUEST_SIZE then Outward(c.(resp := UriTooLong, state := Processing)) else Outward(c)
  }

  /** Whether grouping cannot matter. */
  predicate Insensitive(stream: string) {
    |stream| <= MAX_REQUEST_SIZE || StrNStr(FirstBytes(stream), BLANK_LINE).None?
  }

  // ------------------------------------------------------------ one call

  lemma {:induction false} QuietDrain(c: Client, ev: seq<RecvResult>)
    requires c.state == Reading && BufferOk(c) && Quiet(ev)
    ensures var (d, t) := (Drain(c, ev), c.inBuf + Delivered(ev));
            if |t| <= MAX_REQUEST_SIZE
            then d.scan && BufferOk(d.client) && d.client == c.(inBuf := t, inputCapacity := CapacityFor(|t|))
            else !d.scan && d.client == c.(inBuf := d.client.inBuf, inputCapacity := d.client.inputCapacity,
                                           resp := UriTooLong, state := Processing)
    decreases |ev|
  {
    hide CapacityFor;
    if ev == [] || ev[0].WouldBlock? {
      assert c.inBuf + "" == c.inBuf;
    } else if ev[0].RecvInterrupted? {
      QuietDrain(c, ev[1..]);
    } else {
      var bytes := ev[0].bytes;
      Associative(c.inBuf, bytes, Delivered(ev[1..]));
      assert ev[0].reallocOk;
      if |c.inBuf| + |bytes| <= MAX_REQUEST_SIZE {
        QuietDrain(Appended(c, bytes, true), ev[1..]);
      } else {
        assert Drain(c, ev) == Drained(Appended(c, bytes, true), false, 1);
      }
    }
  }

  /** Every successful `recv` but the last adds a byte, so there are at most 8193 of them. */
  lemma {:induction false} ReadsBounded(c: Client, ev: seq<RecvResult>)
    requires c.state == Reading && BufferOk(c)
    ensures var d := Drain(c, ev);
            && |c.inBuf| + d.received <= |d.client.inBuf| + 1
            && |d.client.inBuf| <= MAX_REQUEST_SIZE && d.received <= MAX_REQUEST_SIZE + 1
            && (d.client.state == Reading ==> BufferOk(d.client) && |c.inBuf| + d.received <= |d.client.inBuf|)
    decreases |ev|
  {
    if ev != [] && (ev[0].RecvInterrupted? || ev[0].Data?) {
      var c' := if ev[0].Data? then Appended(c, ev[0].bytes, ev[0].reallocOk) else c;
      if c'.state == Reading { ReadsBounded(c', ev[1..]); }
    }
  }

  /** How many calls of `recv` deliver bytes while the client is READING. */
  function Receives(cfg: Config, w: World, c: Client, calls: seq<seq<RecvResult>>): nat
    decreases |calls|
  {
    if calls == [] || c.state != Reading then 0
    else Drain(c, calls[0]).received + Receives(cfg, w, ReadStep(cfg, w, c, calls[0]), calls[1..])
  }

  /** However often `do_read` is called, a connection takes at most 8192 receives that add a
      byte, and then one more that ends its READING. */
  lemma {:induction false} ConnectionReadsBounded(cfg: Config, w: World, c: Client, calls: seq<seq<RecvResult>>)
    requires c.state == Reading && BufferOk(c)
    ensures var (r, n) := (ReadCalls(cfg, w, c, calls), Receives(cfg, w, c, calls));
            && |c.inBuf| + n <= |r.inBuf| + 1 && |r.inBuf| <= MAX_REQUEST_SIZE && n <= MAX_REQUEST_SIZE + 1
            && (r.state == Reading ==> |c.inBuf| + n <= |r.inBuf|)
    decreases |calls|
  {
    hide Stage;
    if calls != [] {
      ReadsBounded(c, calls[0]);
      var c' := ReadStep(cfg, w, c, calls[0]);
      if c'.state == Reading { ConnectionReadsBounded(cfg, w, c', calls[1..]); }
    }
  }

  // ------------------------------------------------------------ how a call ends

  /** A client whose input is `t` and which is still waiting. */
  function Holding(c: Client, t: string): Client {
    c.(inBuf := t, inputCapacity := CapacityFor(|t|))
  }

  /** Results that keep the loop going. */
  predicate Flowing(ev: seq<RecvResult>) {
    forall k :: 0 <= k < |ev| ==> ev[k].RecvInterrupted? || (ev[k].Data? && ev[k].reallocOk)
  }

  lemma {:induction false} DrainPast(c: Client, ev: seq<RecvResult>, tail: seq<RecvResult>)
    requires c.state == Reading && BufferOk(c) && Flowing(ev) && |c.inBuf + Delivered(ev)| <= MAX_REQUEST_SIZE
    ensures var (d, e) := (Drain(c, ev + tail), Drain(Holding(c, c.inBuf + Delivered(ev)), tail));
            d.client == e.client && d.scan == e.scan
    decreases |ev|
  {
    hide CapacityFor;
    if ev == [] {
      assert ev + tail == tail && c.inBuf + "" == c.inBuf;
    } else {
      assert (ev + tail)[1..] == ev[1..] + tail;
      if ev[0].RecvInterrupted? {
        DrainPast(c, ev[1..], tail);
      } else {
        Associative(c.inBuf, ev[0].bytes, Delivered(ev[1..]));
        DrainPast(Appended(c, ev[0].bytes, true), ev[1..], tail);
      }
    }
  }

  /** The client was answered: its state, everything staged, and the line in the log. */
  predicate AnswersHead(cfg: Config, w: World, c: Client, head: string, r: Client, text: Option<string>) {
    var s := Stage(cfg, w, head);
    && r.state == SendingHeader && r.outputSent == c.outputSent && r.fd == c.fd && r.addr == c.addr
    && r.outBuf == s.out && r.resp == s.resp
    && r.headerLen == s.headerLen && r.bodyLen == s.bodyLen && r.fileSize == s.fileSize
    && text == (if cfg.logging then Some(LogLine(c.addr, w, head, s)) else None)
  }

  /** Nothing was answered: no status, nothing staged, nothing logged. */
  predicate Unanswered(r: Client, text: Option<string>) {
    r.resp == Unset && r.outBuf == "" && text.None?
  }

  /** What becomes of a waiting client that has got `t`, at the next result of `recv`:
      - nothing more pending: it is answered if `t` has a blank line, and otherwise waits on;
      - a fatal error: it is answered all the same if `t` has a blank line, and closed otherwise;
      - end of file: it is closed unanswered, whatever it has got;
      - bytes beyond 8192: it is left in PROCESSING with 414, unanswered;
      - bytes that need a larger buffer, which is refused: it is closed unanswered. */
  lemma CallEnds(cfg: Config, w: World, c: Client, ev: seq<RecvResult>, last: RecvResult, rest: seq<RecvResult>)
    requires c.state == Reading && Waiting(c) && Flowing(ev) && |c.inBuf + Delivered(ev)| <= MAX_REQUEST_SIZE
    ensures var (t, all) := (c.inBuf + Delivered(ev), ev + [last] + rest);
            var (k, r, text) := (StrNStr(t, BLANK_LINE), ReadStep(cfg, w, c, all), ReadLog(cfg, w, c, all));
            match last
            case WouldBlock =>
              if k.Some? then AnswersHead(cfg, w, c, t[..k.value + 4], r, text)
              else r.state == Reading && r.inBuf == t && Unanswered(r, text)
            case RecvError =>
              if k.Some? then AnswersHead(cfg, w, c, t[..k.value + 4], r, text)
              else r.state == ClientState.Closing && Unanswered(r, text)
            case Eof => r.state == ClientState.Closing && Unanswered(r, text)
            case RecvInterrupted => true
            case Data(bytes, reallocOk) =>
              && (|t| + |bytes| > MAX_REQUEST_SIZE ==>
                    r.state == Processing && r.resp == UriTooLong && r.outBuf == "" && text.None?)
              && (CapacityFor(|t|) < |t| + |bytes| <= MAX_REQUEST_SIZE && !reallocOk ==>
                    r.state == ClientState.Closing && Unanswered(r, text))
  {
    hide Stage, LogLine, CapacityFor;
    assert ev + [last] + rest == ev + ([last] + rest);
    DrainPast(c, ev, [last] + rest);
    assert ([last] + rest)[0] == last;
  }

  // ------------------------------------------------------------ all calls

  /** Any grouping of a stream that is short enough, or has no blank line in its first 8192
      bytes, gives the reference result; a client still READING holds the whole stream. */
  lemma {:induction false} GroupingIrrelevant(cfg: Config, w: World, c: Client, calls: seq<seq<RecvResult>>)
    requires c.state == Reading && BufferOk(c) && StrNStr(c.inBuf, BLANK_LINE).None? && AllQuiet(calls)
    requires Insensitive(c.inBuf + AllBytes(calls))
    ensures var (r, stream) := (ReadCalls(cfg, w, c, calls), c.inBuf + AllBytes(calls));
            && Outward(r) == Reference(cfg, w, c, stream)
            && (r.state == Reading ==> r.inBuf == stream)
    decreases |calls|
  {
    hide Stage;
    var stream := c.inBuf + AllBytes(calls);
    if calls == [] {
      assert stream == c.inBuf;
    } else {
      var t := c.inBuf + Delivered(calls[0]);
      assert stream == t + AllBytes(calls[1..]);
      QuietDrain(c, calls[0]);
      var c' := ReadStep(cfg, w, c, calls[0]);
      if |t| <= MAX_REQUEST_SIZE {
        var cut := FirstBytes(stream);
        assert t <= cut;
        SearchOfPrefix(t, cut, BLANK_LINE);
        var found := StrNStr(t, BLANK_LINE);
        if found.None? {
          GroupingIrrelevant(cfg, w, c', calls[1..]);
          ReferenceIgnoresInput(cfg, w, c, t, CapacityFor(|t|), stream);
        } else {
          assert t[..found.value + 4] == stream[..found.value + 4];
        }
      }
    }
  }

  lemma ReferenceIgnoresInput(cfg: Config, w: World, c: Client, buf: string, cap: nat, stream: string)
    ensures Reference(cfg, w, c.(inBuf := buf, inputCapacity := cap), stream) == Reference(cfg, w, c, stream)
  {
    hide Stage;
  }

  // ------------------------------------------------------------ exactness

  /** The stream in pieces of one byte, all delivered to one call. */
  function ByteByByte(s: string): seq<RecvResult> {
    if s == "" then [] else [Data([s[0]], true)] + ByteByByte(s[1..])
  }

  lemma {:induction false} ByteByByteDelivers(s: string)
    ensures Quiet(ByteByByte(s)) && Delivered(ByteByByte(s)) == s
  {
    if s != "" {
      ByteByByteDelivers(s[1..]);
      assert ByteByByte(s)[1..] == ByteByByte(s[1..]);
      assert [s[0]] + s[1..] == s;
    }
  }

  /** The exact condition: a new client answers a stream as the reference does, under every
      grouping, if and only if the stream has at most 8192 bytes or no blank line within its
      first 8192. A longer stream with an early blank line is answered when its head comes in
      one call and the rest later, but overflows when all of it comes in one call. */
  lemma GroupingIrrelevantExactly(cfg: Config, w: World, fd: int, addr: Address, stream: string)
    ensures (forall calls: seq<seq<RecvResult>> :: AllQuiet(calls) && AllBytes(calls) == stream ==>
               Outward(ReadCalls(cfg, w, NewClient(fd, addr), calls)) == Reference(cfg, w, NewClient(fd, addr), stream))
       <==> Insensitive(stream)
  {
    hide Stage;
    var c := NewClient(fd, addr);
    if Insensitive(stream) {
      forall calls: seq<seq<RecvResult>> | AllQuiet(calls) && AllBytes(calls) == stream
        ensures Outward(ReadCalls(cfg, w, c, calls)) == Reference(cfg, w, c, stream)
      {
        assert c.inBuf + stream == stream;
        GroupingIrrelevant(cfg, w, c, calls);
      }
    } else {
      OneCallOverflows(cfg, w, c, stream);
    }
  }

  lemma OneCallOverflows(cfg: Config, w: World, c: Client, stream: string)
    requires c.state == Reading && BufferOk(c) && c.inBuf == "" && !Insensitive(stream)
    ensures var calls := [ByteByByte(stream)];
            && AllQuiet(calls) && AllBytes(calls) == stream
            && ReadCalls(cfg, w, c, calls).state == Processing
            && Outward(ReadCalls(cfg, w, c, calls)) != Reference(cfg, w, c, stream)
  {
    hide Stage, StrNStr;
    var ev := ByteByByte(stream);
    var calls := [ev];
    ByteByByteDelivers(stream);
    assert calls[1..] == [];
    assert AllBytes(calls) == stream + AllBytes([]) == stream;
    assert c.inBuf + stream == stream;
    QuietDrain(c, ev);
    var r := ReadStep(cfg, w, c, ev);
    assert r.state == Processing;
    assert ReadCalls(cfg, w, c, calls) == ReadCalls(cfg, w, r, []) == r;
    assert Reference(cfg, w, c, stream).state == SendingHeader;
  }
}
