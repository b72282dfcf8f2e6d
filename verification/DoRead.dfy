/** Reading a request: the receive loop, the growing input buffer, the search for the blank
    line, and the hand-over to parser and builders. */
module Reading {
  import opened Wrappers
  import opened CString
  import opened Http
  import opened Logging
  import opened RequestParser
  import opened RequestGrammar
  import opened World
  import opened PathResolver
  import opened Connection
  import opened Growth
  import opened Responses
  import opened Builders

  /** What one `recv` into the 2048-byte scratch buffer yields. `reallocOk` is the outcome of
      the `realloc` its bytes may call for. */
  type Received = s: string | 0 < |s| <= 2048 witness "x"

  datatype RecvResult = Data(bytes: Received, reallocOk: bool) | Eof | WouldBlock | RecvInterrupted | RecvError

  // ------------------------------------------------------------ the input buffer

  /** The capacity of a buffer that holds `n` bytes. */
  function CapacityFor(n: nat): nat {
    if n == 0 then 0 else if n <= 1024 then 1024 else if n <= 2048 then 2048 else if n <= 4096 then 4096 else 8192
  }

  lemma CapacityBounds(n: nat)
    requires 0 < n <= MAX_REQUEST_SIZE
    ensures var cap := CapacityFor(n);
            DoubledFrom(1024, cap) && n <= cap <= MAX_REQUEST_SIZE && (cap == 1024 || cap < 2 * n)
  {
    assert DoubledFrom(1024, 1024) && DoubledFrom(1024, 2048) && DoubledFrom(1024, 4096) && DoubledFrom(1024, 8192);
  }

  predicate BufferOk(c: Client) {
    |c.inBuf| <= MAX_REQUEST_SIZE && c.inputCapacity == CapacityFor(|c.inBuf|)
  }

  function Appended(c: Client, bytes: string, reallocOk: bool): Client {
    var total := |c.inBuf| + |bytes|;
    if total > MAX_REQUEST_SIZE then c.(resp := UriTooLong, state := Processing)
    else if total > c.inputCapacity && !reallocOk then c.(state := Closing)
    else c.(inBuf := c.inBuf + bytes, inputCapacity := CapacityFor(total))
  }

  /** `append`: at most 8192 bytes, in a buffer that doubles from 1024. */
  method Append(clients: array<Client>, i: nat, bytes: Received, reallocOk: bool)
    requires i < clients.Length && BufferOk(clients[i])
    modifies clients
    ensures clients[..] == old(clients[..])[i := Appended(old(clients[i]), bytes, reallocOk)]
    ensures BufferOk(clients[i])
  {
    var n := |bytes|;
    if |clients[i].inBuf| + n > MAX_REQUEST_SIZE {
      clients[i] := clients[i].(resp := UriTooLong);
      clients[i] := clients[i].(state := Processing);
      return;
    }
    if |clients[i].inBuf| + n > clients[i].inputCapacity {
      var newCap := if clients[i].inputCapacity != 0 then clients[i].inputCapacity * 2 else 1024;
      while newCap < |clients[i].inBuf| + n
        invariant newCap in {1024, 2048, 4096, 8192}
        invariant newCap <= CapacityFor(|clients[i].inBuf| + n)
      {
        newCap := newCap * 2;
      }
      if !reallocOk {
        clients[i] := clients[i].(state := Closing);
        return;
      }
      clients[i] := clients[i].(inputCapacity := newCap);
    }
    clients[i] := clients[i].(inBuf := clients[i].inBuf + bytes);
  }

  // ------------------------------------------------------------ the receive loop

  /** The client after the loop, whether the search for the blank line follows, and how many
      calls delivered bytes. */
  datatype Drained = Drained(client: Client, scan: bool, received: nat)

  function Drain(c: Client, ev: seq<RecvResult>): Drained
    decreases |ev|
  {
    if ev == [] then Drained(c, true, 0)
    else
      match ev[0]
      case WouldBlock => Drained(c, true, 0)
      case Eof => Drained(c.(state := Closing), false, 0)
      case RecvError => Drained(c.(state := Closing), true, 0)
      case RecvInterrupted => Drain(c, ev[1..])
      case Data(bytes, reallocOk) =>
        var c' := Appended(c, bytes, reallocOk);
        if c'.state != Reading then Drained(c', false, 1)
        else var d := Drain(c', ev[1..]); d.(received := d.received + 1)
  }

  function Scan(cfg: Config, w: World, c: Client): Client {
    match StrNStr(c.inBuf, BLANK_LINE)
    case None => c
    case Some(k) => Place(c, Stage(cfg, w, c.inBuf[..k + 4])).(state := SendingHeader)
  }

  /** `do_read` on one client. */
  function ReadStep(cfg: Config, w: World, c: Client, ev: seq<RecvResult>): Client {
    var d := Drain(c, ev);
    if d.scan then Scan(cfg, w, d.client) else d.client
  }

  function LogLine(addr: Address, w: World, head: string, s: Staged): string {
    PeerText(addr) + (if StrNStr(head, BLANK_LINE).Some? then RequestText(w.now, FirstLine(head)) else "")
    + StatusText(s.resp, s.bodyLen)
  }

  /** The line `do_read` logs, if it gets as far as answering and logging is on. */
  function ReadLog(cfg: Config, w: World, c: Client, ev: seq<RecvResult>): Option<string> {
    var d := Drain(c, ev);
    var k := StrNStr(d.client.inBuf, BLANK_LINE);
    if cfg.logging && d.scan && k.Some? then
      var head := d.client.inBuf[..k.value + 4];
      Some(LogLine(c.addr, w, head, Stage(cfg, w, head)))
    else None
  }

  /** A client that waits for its request: nothing is staged or decided yet. */
  predicate Waiting(c: Client) {
    BufferOk(c) && c.resp == Unset && c.outBuf == "" && c.outputSent == 0 && c.bodyLen == 0 && c.fileSize == 0
  }

  // ------------------------------------------------------------ the code

  /** Resolve and build, or build the error page. */
  method BuildAnswer(cfg: Config, clients: array<Client>, i: nat, w: World, ok: bool, req: Request, resp: Status)
    requires i < clients.Length && Waiting(clients[i])
    requires ok ==> req.path != "" && Without(req.path, NUL) && |req.path| < cfg.pathMax
    modifies clients
    ensures var c := old(clients[i]);
            clients[..] == old(clients[..])[i := Place(c, ParsedStage(cfg, w, Parsed(ok, req, resp), c.headerLen))]
  {
    hide HeadLines, ErrorBody, ErrorMime, ListingBody, LocalPath, QueryString, ServeDirectory;
    if !ok {
      clients[i] := clients[i].(resp := resp);
      var _ := BuildErrorResponse(clients, i, w, req);
      return;
    }
    var target := ResolvePath(cfg, w, req.path);
    match target {
      case Unresolved(status) =>
        clients[i] := clients[i].(resp := status);
        var _ := BuildErrorResponse(clients, i, w, req);
      case Found(rp) =>
        clients[i] := clients[i].(fileSize := rp.fileSize);
        var _ := BuildOkayResponse(cfg, clients, i, w, rp, req);
    }
  }

  /** `do_read` once the blank line is found: answer, and log the answer. */
  method AnswerRequest(cfg: Config, clients: array<Client>, i: nat, w: World, headerLen: nat)
    returns (logged: Option<string>)
    requires i < clients.Length && Waiting(clients[i]) && headerLen <= |clients[i].inBuf|
    requires StrNStr(clients[i].inBuf[..headerLen], BLANK_LINE).Some?
    modifies clients
    ensures var c := old(clients[i]); var head := c.inBuf[..headerLen]; var s := Stage(cfg, w, head);
            && clients[..] == old(clients[..])[i := Place(c, s)]
            && logged == if cfg.logging then Some(LogLine(c.addr, w, head, s)) else None
  {
    var head := clients[i].inBuf[..headerLen];
    clients[i] := clients[i].(headerLen := headerLen);
    var le := new LogEntry();
    if cfg.logging {
      le.Append(PeerText(clients[i].addr));
    }
    var ok, req, resp := ParseRequest(cfg, head, w.now, ZERO_REQUEST, Unset, le);
    assert ok ==> req.path != "" && Without(req.path, NUL) && |req.path| < cfg.pathMax by {
      if ok { var _ := AcceptedIsPrinted(cfg, head, w.now, ZERO_REQUEST, Unset); }
    }
    BuildAnswer(cfg, clients, i, w, ok, req, resp);
    logged := None;
    if cfg.logging {
      LogLineFits(clients[i].addr, w.now, FirstLine(head), clients[i].resp, clients[i].bodyLen);
      le.Append(StatusText(clients[i].resp, clients[i].bodyLen));
      assert "" + PeerText(clients[i].addr) == PeerText(clients[i].addr);
      logged := Some(le.buf[..le.offset]);
    }
  }

  /** The `recv` loop; `scan` tells whether the search for the blank line comes next. */
  method Receive(clients: array<Client>, i: nat, ev: seq<RecvResult>) returns (scan: bool, received: nat)
    requires i < clients.Length && clients[i].state == Reading && BufferOk(clients[i])
    modifies clients
    ensures clients[..] == old(clients[..])[i := clients[i]] && BufferOk(clients[i])
    ensures Drained(clients[i], scan, received) == Drain(old(clients[i]), ev)
  {
    ghost var all := Drain(clients[i], ev);
    received := 0;
    var k := 0;
    while k < |ev|
      invariant k <= |ev|
      invariant clients[..] == old(clients[..])[i := clients[i]]
      invariant clients[i].state == Reading && BufferOk(clients[i])
      invariant var d := Drain(clients[i], ev[k..]); all == d.(received := received + d.received)
    {
      var result := ev[k];
      assert ev[k..][1..] == ev[k + 1..] && ev[k..][0] == result;
      if result.Data? {
        Append(clients, i, result.bytes, result.reallocOk);
        received := received + 1;
        if clients[i].state != Reading {
          return false, received;
        }
      } else if result.Eof? {
        clients[i] := clients[i].(state := Closing);
        return false, received;
      } else if result.WouldBlock? {
        return true, received;
      } else if result.RecvError? {
        clients[i] := clients[i].(state := Closing);
        return true, received;
      }
      k := k + 1;
    }
    return true, received;
  }

  /** The loop changes only the buffer, the state, and on overflow the status. */
  lemma {:induction false} DrainKeeps(c: Client, ev: seq<RecvResult>)
    ensures var d := Drain(c, ev).client;
            && d == c.(inBuf := d.inBuf, inputCapacity := d.inputCapacity, state := d.state, resp := d.resp)
            && (Drain(c, ev).scan ==> d.resp == c.resp)
            && (c.state == Reading ==> d.state in {Reading, Processing, Closing})
    decreases |ev|
  {
    if ev != [] && (ev[0].RecvInterrupted? || ev[0].Data?) {
      var c' := if ev[0].Data? then Appended(c, ev[0].bytes, ev[0].reallocOk) else c;
      if ev[0].RecvInterrupted? || c'.state == Reading {
        DrainKeeps(c', ev[1..]);
      }
    }
  }

  /** `do_read` */
  method DoRead(cfg: Config, clients: array<Client>, pfds: array<PollFd>, i: nat, w: World, ev: seq<RecvResult>)
    returns (logged: Option<string>)
    requires i < clients.Length && i < pfds.Length && clients[i].state == Reading && Waiting(clients[i])
    modifies clients, pfds
    ensures clients[..] == old(clients[..])[i := ReadStep(cfg, w, old(clients[i]), ev)]
    ensures pfds[..] == if clients[i].state == SendingHeader then old(pfds[..])[i := old(pfds[i]).(events := {POLLOUT})]
                        else old(pfds[..])
    ensures logged == ReadLog(cfg, w, old(clients[i]), ev)
  {
    DrainKeeps(clients[i], ev);
    var scan, _ := Receive(clients, i, ev);
    if !scan || clients[i].inBuf == "" {
      return None;
    }
    var c := clients[i];
    var end := StrNStr(c.inBuf, BLANK_LINE);
    if end.None? {
      return None;
    }
    SearchOfPrefix(c.inBuf[..end.value + 4], c.inBuf, BLANK_LINE);
    logged := AnswerRequest(cfg, clients, i, w, end.value + 4);
    pfds[i] := pfds[i].(events := {POLLOUT});
    clients[i] := clients[i].(state := SendingHeader);
  }
}
