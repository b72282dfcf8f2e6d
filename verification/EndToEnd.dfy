/** What clients see, in every run of the server. */
module EndToEnd {
  import opened Wrappers
  import opened CString
  import opened Numbers
  import opened Http
  import opened Logging
  import opened MessageHead
  import opened RequestParser
  import opened World
  import opened Connection
  import opened Responses
  import opened Reading
  import opened Writing
  import opened Chunking
  import opened Framing
  import opened PollSweep
  import opened Machine
  import opened Runs

  // ------------------------------------------------------------ answers

  /** As long as the error builder gets its memory, every request head is answered: every
      failure of parser, resolver or builder leaves a status that has a page. */
  lemma EveryRequestIsAnswered(cfg: Config, w: World, head: string)
    requires w.errorMemoryOk
    ensures var s := Stage(cfg, w, head); s.out != "" && s.resp != Unset
  {
    hide StatusLine, ErrorBody, ErrorMime, OkayPage;
    var p := Parse(cfg, head, w.now, ZERO_REQUEST, Unset);
    SomethingIsStaged(cfg, w, p, |head|);
    ParsedStagePrints(cfg, w, p, |head|);
  }

  /** The log line of an answered request names the status that a recipient reads in the
      status line. */
  lemma LoggedStatusIsSent(cfg: Config, w: World, addr: Address, head: string)
    requires StrNStr(head, BLANK_LINE).Some? && Stage(cfg, w, head).out != ""
    ensures var s := Stage(cfg, w, head); var decoded := ReadHead(s.out);
            && LogLine(addr, w, head, s)
               == addr + " " + RequestText(w.now, FirstLine(head)) + StatusText(s.resp, s.bodyLen)
            && decoded.Some? && decoded.value.0 != [] && |decoded.value.0[0]| >= 12
            && StatusText(s.resp, s.bodyLen)[..3] == StatusString(s.resp) == decoded.value.0[0][9..12]
  {
    hide Stage, AnswerTo, StatusLine, StatusString;
    StagedIsFramed(cfg, w, head);
    StatusTextStarts(Stage(cfg, w, head).resp, Stage(cfg, w, head).bodyLen);
  }

  /** The whole log line, for a body of less than two gigabytes: address, time, request line
      in quotes, status, and the length of the body. */
  lemma LineReads(cfg: Config, w: World, addr: Address, head: string, s: Staged)
    requires StrNStr(head, BLANK_LINE).Some? && s.bodyLen < 0x8000_0000
    ensures LogLine(addr, w, head, s)
         == addr + " " + (w.now + " \"" + FirstLine(head) + "\" ")
            + (StatusString(s.resp) + " " + Decimal(s.bodyLen) + "\n")
    ensures s.resp == Ok ==> StatusString(s.resp) == "200"
    ensures s.resp == BadRequest ==> StatusString(s.resp) == "400"
    ensures s.resp == Forbidden ==> StatusString(s.resp) == "403"
    ensures s.resp == NotFound ==> StatusString(s.resp) == "404"
    ensures s.resp == UriTooLong ==> StatusString(s.resp) == "414"
    ensures s.resp == ServerError ==> StatusString(s.resp) == "500"
    ensures s.resp == NotImplemented ==> StatusString(s.resp) == "501"
    ensures s.resp == VersionNotSupported ==> StatusString(s.resp) == "505"
  {
    hide Decimal, FirstLine, StrNStr;
  }

  lemma StatusTextStarts(resp: Status, n: nat)
    ensures |StatusString(resp)| == 3 && |StatusText(resp, n)| >= 3 && StatusText(resp, n)[..3] == StatusString(resp)
  {
  }

  // ------------------------------------------------------------ what is on the wire

  lemma WhoIsAnswered(cfg: Config, listeners: seq<int>, rounds: seq<Round>, m: nat, t: State, e: Slot) returns (n: nat)
    requires Invariant(cfg, t) && m <= |rounds| && AllTraced(cfg, listeners, rounds, m, t)
    requires e.wire != "" && (e in t.tally.ended || (e.client.fd in t.conns && t.conns[e.client.fd] == e))
    ensures n <= m && Answered(cfg, listeners, rounds, n, e.client.fd, e.client, t.tally.logged)
    ensures if e in t.tally.ended then e.wire == e.client.outBuf else t.exited && e.wire < e.client.outBuf
  {
    hide Answered, AnswersInput, BufferOk, Conserved, LineTraced;
    n := m;
    if e !in t.tally.ended {
      assert CutOk(cfg, e);
      if !Traced(cfg, listeners, rounds, m, e.client.fd, e.client, t.tally.logged) { n := m - 1; }
    }
  }

  /** Every byte that leaves the server, in any run, whether or not the process exits in it:
      a connection on which anything was sent was accepted in some round `a`, and its
      descriptor not again up to some round `j`; what was delivered on it from then up to
      round `j` starts with a request head; and what it has been sent is the answer to that
      head in the surroundings of round `j`, framed so that a recipient finds its end. It is
      the whole answer if the connection was closed, and a proper part only if it is the one
      that was cut off when the process exited. The run had got to round `m` by then, after
      `j`; and with logging on, the line of this very answer is in the log. */
  lemma WireCarriesOneResponse(cfg: Config, listeners: seq<int>, rounds: seq<Round>, t: State, e: Slot)
    returns (m: nat, a: nat, j: nat, head: string)
    requires FreshRun(cfg, listeners, START, rounds) && Reaches(cfg, listeners, START, rounds, t)
    requires e.wire != "" && (e in t.tally.ended || (e.client.fd in t.conns && t.conns[e.client.fd] == e))
    ensures a < j < m <= |rounds| && Reaches(cfg, listeners, START, rounds[..m], t)
    ensures rounds[j].Ready? && OpenSince(listeners, rounds, a, j + 1, e.client.fd)
    ensures head <= Heard(rounds, e.client.fd, a + 1, j + 1) && StrNStr(head, BLANK_LINE) == Some(|head| - 4)
    ensures var w := rounds[j].io(e.client.fd).world; var answer := Stage(cfg, w, head);
            && Framed(answer, w.now, AnswerTo(cfg, w, head))
            && (if e in t.tally.ended then e.wire == answer.out else t.exited && e.wire < answer.out)
            && (cfg.logging ==> (e.client.fd, LogLine(e.client.addr, w, head, answer)) in t.tally.logged)
  {
    hide Stage, AnswerTo, Framed, Reaches, FreshRun, OpenSince, Heard, Invariant, AllTraced, StrNStr;
    var fd, c := e.client.fd, e.client;
    EveryReachableState(cfg, listeners, rounds, t);
    m := EverythingIsTraced(cfg, listeners, rounds, t);
    var n := WhoIsAnswered(cfg, listeners, rounds, m, t, e);
    a, j :| a < j < n && AnsweredAt(cfg, listeners, rounds, a, j, fd, c, t.tally.logged);
    head := c.inBuf[..StrNStr(c.inBuf, BLANK_LINE).value + 4];
    SearchOfPrefix(head, c.inBuf, BLANK_LINE);
    StagedIsFramed(cfg, rounds[j].io(fd).world, head);
  }

  // ------------------------------------------------------------ the overflowed client

  /** The round reports that the descriptor has failed. */
  predicate Fails(r: Round, fd: int) {
    r.Ready? && Faulty(r.revents(fd))
  }

  /** The connection is still there, as it was; only what poll reports may differ. */
  ghost predicate Kept(s: State, t: State, fd: int)
    requires fd in s.conns
  {
    fd in t.conns && t.conns[fd].client == s.conns[fd].client && t.conns[fd].wire == s.conns[fd].wire
  }

  /** The connection was closed as it was. */
  ghost predicate Dropped(s: State, t: State, fd: int)
    requires fd in s.conns
  {
    fd !in t.conns
    && exists e :: t.tally.ended[e] > s.tally.ended[e] && e.client == s.conns[fd].client && e.wire == s.conns[fd].wire
  }

  lemma OverflowedTurn(cfg: Config, listeners: seq<int>, s: State, r: Round, t: State, fd: int)
    requires Invariant(cfg, s) && !s.exited && FreshTurn(listeners, s, r) && Turns(cfg, listeners, s, r, t)
    requires fd in s.conns && s.conns[fd].client.state == Processing
    ensures s.tally.ended <= t.tally.ended
    ensures Kept(s, t, fd) || (Fails(r, fd) && Dropped(s, t, fd))
    ensures Fails(r, fd) && !t.exited ==> Dropped(s, t, fd)
  {
    hide ReadStep, WriteStep, ReadLog, SlotOk, EndedOk, CutOk, Conserved, Serves, FreshTurn, AcceptedIn, IsNew;
    if r.Ready? { TurnByDescriptor(cfg, listeners, s, r, t, fd); }
  }

  /** A client that overflowed is left in PROCESSING: in no run after that is it read, changed
      or sent anything as long as its descriptor does not fail; in the round in which it first
      fails, the connection is closed with an empty wire, unless the process exits before. */
  lemma {:induction false} OverflowIsNeverServed(cfg: Config, listeners: seq<int>, s: State, rounds: seq<Round>,
                                                 t: State, fd: int)
    requires Invariant(cfg, s) && !s.exited
    requires FreshRun(cfg, listeners, s, rounds) && Reaches(cfg, listeners, s, rounds, t)
    requires fd in s.conns && s.conns[fd].client.state == Processing
    requires forall k :: 0 <= k < |rounds| - 1 ==> !Fails(rounds[k], fd)
    ensures s.conns[fd].wire == "" && s.conns[fd].client.outBuf == "" && s.conns[fd].client.resp == UriTooLong
    ensures var failed := rounds != [] && Fails(rounds[|rounds| - 1], fd);
            && (Kept(s, t, fd) || (failed && Dropped(s, t, fd)))
            && (failed && !t.exited ==> Dropped(s, t, fd))
    decreases |rounds|
  {
    hide Invariant, Turns, FreshTurn, Dropped;
    OverflowedSlot(cfg, s, fd);
    if rounds != [] {
      var m: State :| Turns(cfg, listeners, s, rounds[0], m) && Reaches(cfg, listeners, m, rounds[1..], t);
      TurnKeeps(cfg, listeners, s, rounds[0], m);
      OverflowedTurn(cfg, listeners, s, rounds[0], m, fd);
      if m.exited || |rounds| == 1 {
        assert t == m;
      } else {
        OverflowIsNeverServed(cfg, listeners, m, rounds[1..], t, fd);
        if Dropped(m, t, fd) { DroppedLater(s, m, t, fd); }
      }
    }
  }

  lemma OverflowedSlot(cfg: Config, s: State, fd: int)
    requires Invariant(cfg, s) && !s.exited && fd in s.conns && s.conns[fd].client.state == Processing
    ensures s.conns[fd].wire == "" && s.conns[fd].client.outBuf == "" && s.conns[fd].client.resp == UriTooLong
  {
  }

  lemma DroppedLater(s: State, m: State, t: State, fd: int)
    requires fd in s.conns && fd in m.conns && Kept(s, m, fd) && Dropped(m, t, fd)
    requires s.tally.ended <= m.tally.ended
    ensures Dropped(s, t, fd)
  {
  }

  // ------------------------------------------------------------ from request to response

  /** The traffic of an exchange on `fd`: it never fails or ends, the bytes that arrive up to
      round `j` are at most 8192 and complete a head there, whose blank line is at `k`, and
      from then on the descriptor first becomes writable in the last of the rounds. */
  ghost predicate Exchange(rounds: seq<Round>, fd: int, j: nat, k: nat) {
    && j < |rounds| && rounds[j].Ready?
    && (forall i :: 0 <= i < |rounds| ==> !Fails(rounds[i], fd))
    && (forall i :: 0 <= i <= j && rounds[i].Ready? ==> Quiet(rounds[i].io(fd).received))
    && |Heard(rounds, fd, 0, j + 1)| <= MAX_REQUEST_SIZE
    && StrNStr(Heard(rounds, fd, 0, j), BLANK_LINE).None?
    && StrNStr(Heard(rounds, fd, 0, j + 1), BLANK_LINE) == Some(k)
    && (forall i :: j <= i < |rounds| - 1 ==> !Writable(rounds[i], fd))
    && Writable(rounds[|rounds| - 1], fd)
  }

  predicate Writable(r: Round, fd: int) { r.Ready? && POLLOUT in r.revents(fd) }

  /** The client once the head that ends at the blank line at `k` is answered. */
  function Replied(cfg: Config, w: World, c: Client, t: string, k: nat): Client
    requires k + 4 <= |t|
  {
    Place(Holding(c, t), Stage(cfg, w, t[..k + 4])).(state := SendingHeader)
  }

  lemma ReadsOn(cfg: Config, w: World, c: Client, ev: seq<RecvResult>)
    requires c.state == Reading && BufferOk(c) && Quiet(ev) && |c.inBuf + Delivered(ev)| <= MAX_REQUEST_SIZE
    ensures var t := c.inBuf + Delivered(ev);
            ReadStep(cfg, w, c, ev) == match StrNStr(t, BLANK_LINE)
                                       case None => Holding(c, t)
                                       case Some(k) => Replied(cfg, w, c, t, k)
  {
    hide Stage;
    QuietDrain(c, ev);
  }

  /** The connection before round `n` of an exchange. */
  ghost predicate OnTheWay(cfg: Config, rounds: seq<Round>, fd: int, j: nat, k: nat, n: nat, s: Slot)
    requires Exchange(rounds, fd, j, k) && n <= |rounds|
  {
    var c := s.client;
    && s.wire == "" && c.fd == s.pfd.fd == fd && c.outputSent == 0
    && if n <= j then c.state == Reading && Waiting(c) && c.inBuf == Heard(rounds, fd, 0, n)
       else c.state == SendingHeader && c.outBuf == Reply(cfg, rounds, fd, j, k).out
  }

  /** The answer an exchange deserves. */
  ghost function Reply(cfg: Config, rounds: seq<Round>, fd: int, j: nat, k: nat): Staged
    requires Exchange(rounds, fd, j, k)
  {
    Stage(cfg, rounds[j].io(fd).world, Heard(rounds, fd, 0, j + 1)[..k + 4])
  }

  lemma {:induction false} HeardGrows(rounds: seq<Round>, fd: int, n: nat, m: nat)
    requires n <= m <= |rounds|
    ensures Heard(rounds, fd, 0, n) <= Heard(rounds, fd, 0, m)
    decreases m
  {
    if n < m { HeardGrows(rounds, fd, n, m - 1); }
  }

  /** What serving the connection in round `n` does: in the last round it is sent its whole
      reply and closed, if the sends suffice, and otherwise the process exits. */
  ghost predicate Advances(cfg: Config, rounds: seq<Round>, fd: int, j: nat, k: nat, n: nat, v: Service)
    requires Exchange(rounds, fd, j, k) && n < |rounds| && rounds[n].Ready?
  {
    var reply := Reply(cfg, rounds, fd, j, k).out;
    if n < |rounds| - 1 then v.fate == Stays && OnTheWay(cfg, rounds, fd, j, k, n + 1, v.slot)
    else if reply == "" || Suffices(rounds[n].io(fd).sends, |reply|) then
      v.fate == Closes && v.slot.wire == reply && v.slot.client.fd == fd
    else v.fate == Exits
  }

  lemma WritesAll(c: Client, sends: seq<int>)
    requires c.outputSent == 0
    ensures var r := WriteStep(c, "", sends);
            && r.client.fd == c.fd
            && (if c.outBuf == "" || Suffices(sends, |c.outBuf|)
                then !r.exited && r.client.state == ClientState.Closing && r.wire == c.outBuf else r.exited)
  {
    SentInOrder(c, "", sends);
    assert "" + c.outBuf[0..|c.outBuf|] == c.outBuf;
  }

  lemma ExchangeReads(cfg: Config, rounds: seq<Round>, fd: int, j: nat, k: nat, n: nat, s: Slot)
    requires Exchange(rounds, fd, j, k) && n <= j && OnTheWay(cfg, rounds, fd, j, k, n, s)
    requires rounds[n].Ready? && POLLIN in rounds[n].revents(fd)
    ensures var r := ReadStep(cfg, rounds[n].io(fd).world, s.client, rounds[n].io(fd).received);
            OnTheWay(cfg, rounds, fd, j, k, n + 1, Slot(s.pfd, r, s.wire))
  {
    hide Stage;
    var t := Heard(rounds, fd, 0, n + 1);
    assert t == s.client.inBuf + Delivered(rounds[n].io(fd).received);
    HeardGrows(rounds, fd, n + 1, j + 1);
    ReadsOn(cfg, rounds[n].io(fd).world, s.client, rounds[n].io(fd).received);
    if n < j {
      HeardGrows(rounds, fd, n + 1, j);
      SearchOfPrefix(t, Heard(rounds, fd, 0, j), BLANK_LINE);
    }
  }

  lemma ExchangeAdvances(cfg: Config, rounds: seq<Round>, fd: int, j: nat, k: nat, n: nat, s: Slot)
    requires Exchange(rounds, fd, j, k) && n < |rounds| && OnTheWay(cfg, rounds, fd, j, k, n, s) && rounds[n].Ready?
    ensures Advances(cfg, rounds, fd, j, k, n, ServeIn(cfg, s, rounds[n]))
  {
    hide ReadStep, WriteStep, ReadLog, Stage, Heard, Suffices;
    var io := rounds[n].io(fd);
    var p := Poll(s, rounds[n].revents);
    if n <= j && POLLIN in p.pfd.revents {
      ExchangeReads(cfg, rounds, fd, j, k, n, s);
      WritesAll(ReadStep(cfg, io.world, s.client, io.received), io.sends);
    } else {
      if n <= j { QuietRound(cfg, rounds, fd, j, k, n, s); }
      WritesAll(s.client, io.sends);
    }
  }

  /** A round in which nothing arrives before the head is complete. */
  lemma QuietRound(cfg: Config, rounds: seq<Round>, fd: int, j: nat, k: nat, n: nat, s: Slot)
    requires Exchange(rounds, fd, j, k) && n <= j && OnTheWay(cfg, rounds, fd, j, k, n, s)
    requires !(rounds[n].Ready? && POLLIN in rounds[n].revents(fd))
    ensures n < j && OnTheWay(cfg, rounds, fd, j, k, n + 1, s)
  {
    hide Stage;
    assert s.client.inBuf + "" == s.client.inBuf;
    assert Heard(rounds, fd, 0, n + 1) == Heard(rounds, fd, 0, n);
  }

  lemma {:induction false} ExchangeRuns(cfg: Config, listeners: seq<int>, rounds: seq<Round>, fd: int, j: nat, k: nat,
                                        n: nat, s: State, t: State)
    requires Exchange(rounds, fd, j, k) && n < |rounds| && Invariant(cfg, s) && !s.exited
    requires FreshRun(cfg, listeners, s, rounds[n..]) && Reaches(cfg, listeners, s, rounds[n..], t) && !t.exited
    requires fd in s.conns && OnTheWay(cfg, rounds, fd, j, k, n, s.conns[fd])
    ensures fd !in t.conns && EndedWith(s, t, fd, Reply(cfg, rounds, fd, j, k).out)
    ensures var reply := Reply(cfg, rounds, fd, j, k).out;
            reply == "" || Suffices(rounds[|rounds| - 1].io(fd).sends, |reply|)
    decreases |rounds| - n
  {
    hide Invariant, Turns, FreshTurn, Exchange, OnTheWay, Reply, ServeIn;
    assert rounds[n..][0] == rounds[n] && rounds[n..][1..] == rounds[n + 1..];
    var m: State :| Turns(cfg, listeners, s, rounds[n], m) && Reaches(cfg, listeners, m, rounds[n + 1..], t);
    TurnKeeps(cfg, listeners, s, rounds[n], m);
    ExchangeTurn(cfg, listeners, rounds, fd, j, k, n, s, m);
    if n + 1 < |rounds| {
      ExchangeRuns(cfg, listeners, rounds, fd, j, k, n + 1, m, t);
    }
  }

  /** Between `s` and `t`, a connection on `fd` ended with these bytes sent. */
  ghost predicate EndedWith(s: State, t: State, fd: int, out: string) {
    exists e :: t.tally.ended[e] > s.tally.ended[e] && e.client.fd == fd && e.wire == out
  }

  lemma ExchangeTurn(cfg: Config, listeners: seq<int>, rounds: seq<Round>, fd: int, j: nat, k: nat, n: nat,
                     s: State, m: State)
    requires Exchange(rounds, fd, j, k) && n < |rounds| && Invariant(cfg, s) && !s.exited
    requires FreshTurn(listeners, s, rounds[n]) && Turns(cfg, listeners, s, rounds[n], m) && !m.exited
    requires fd in s.conns && OnTheWay(cfg, rounds, fd, j, k, n, s.conns[fd])
    ensures s.tally.ended <= m.tally.ended
    ensures n < |rounds| - 1 ==> fd in m.conns && OnTheWay(cfg, rounds, fd, j, k, n + 1, m.conns[fd])
    ensures n == |rounds| - 1 ==>
              var reply := Reply(cfg, rounds, fd, j, k).out;
              && fd !in m.conns && EndedWith(s, m, fd, reply)
              && (reply == "" || Suffices(rounds[n].io(fd).sends, |reply|))
  {
    hide Reply, ServeIn, FreshTurn, Serves, SlotOk, EndedOk, Conserved, IsNew, AcceptedIn, Suffices, Heard;
    if rounds[n].Ready? {
      TurnByDescriptor(cfg, listeners, s, rounds[n], m, fd);
      ExchangeAdvances(cfg, rounds, fd, j, k, n, s.conns[fd]);
    } else if n <= j {
      QuietRound(cfg, rounds, fd, j, k, n, s.conns[fd]);
    }
  }

  /** A new connection gets its answer, as far as the rest of the run goes. */
  lemma NewcomerIsAnswered(cfg: Config, listeners: seq<int>, s: State, rounds: seq<Round>, t: State,
                           fd: int, j: nat, k: nat)
    requires Invariant(cfg, s) && !s.exited
    requires fd in s.conns && JustAccepted(s.conns[fd], fd, Some(s.conns[fd].client.addr))
    requires FreshRun(cfg, listeners, s, rounds) && Reaches(cfg, listeners, s, rounds, t)
    requires Exchange(rounds, fd, j, k) && rounds[j].io(fd).world.errorMemoryOk
    ensures var answer := Stage(cfg, rounds[j].io(fd).world, Heard(rounds, fd, 0, j + 1)[..k + 4]).out;
            && answer != ""
            && (t.exited || (fd !in t.conns && EndedWith(s, t, fd, answer)))
            && (!Suffices(rounds[|rounds| - 1].io(fd).sends, |answer|) ==> t.exited)
  {
    hide Invariant, Reaches, FreshRun, Stage, Suffices, EndedWith;
    EveryRequestIsAnswered(cfg, rounds[j].io(fd).world, Heard(rounds, fd, 0, j + 1)[..k + 4]);
    if !t.exited {
      assert rounds[0..] == rounds;
      ExchangeRuns(cfg, listeners, rounds, fd, j, k, 0, s, t);
    }
  }

  /** A whole exchange, in a run with any other connections: in the first round a listener
      that poll reports readable delivers a socket that can be made non-blocking; in the
      rounds after it the bytes of the request arrive in any pieces and complete a head in
      round `j`; and when the connection then becomes writable, it has been sent exactly the
      answer to that head, in the surroundings of that round, and is closed. The only other
      way is that the process exits, which it does if the sends on this connection do not
      suffice. */
  lemma RequestIsAnswered(cfg: Config, listeners: seq<int>, s: State, first: Round, rounds: seq<Round>, t: State,
                          i: nat, n: nat, j: nat, k: nat)
    requires Invariant(cfg, s) && !s.exited
    requires FreshRun(cfg, listeners, s, [first] + rounds) && Reaches(cfg, listeners, s, [first] + rounds, t)
    requires first.Ready? && i < |listeners| && POLLIN in first.revents(listeners[i])
    requires TakenAt(first.accepts(listeners[i]), n) && first.accepts(listeners[i])[n].nonBlocking
    requires var fd := first.accepts(listeners[i])[n].fd;
             Exchange(rounds, fd, j, k) && rounds[j].io(fd).world.errorMemoryOk
    ensures var fd := first.accepts(listeners[i])[n].fd;
            var answer := Stage(cfg, rounds[j].io(fd).world, Heard(rounds, fd, 0, j + 1)[..k + 4]).out;
            && answer != ""
            && (t.exited || (fd !in t.conns && EndedWith(s, t, fd, answer)))
            && (!Suffices(rounds[|rounds| - 1].io(fd).sends, |answer|) ==> t.exited)
  {
    hide Invariant, Turns, FreshTurn, Stage, Suffices, EndedWith, Exchange, IsNew, AcceptedIn;
    var all, fd := [first] + rounds, first.accepts(listeners[i])[n].fd;
    assert all[0] == first && all[1..] == rounds;
    var m: State :| Turns(cfg, listeners, s, first, m) && Reaches(cfg, listeners, m, rounds, t);
    TurnKeeps(cfg, listeners, s, first, m);
    NewcomersEnter(cfg, listeners, s, first, m, i, n);
    EndedGrow(cfg, listeners, s, first, m, fd);
    ReplyNotEmpty(cfg, rounds, fd, j, k);
    if !m.exited {
      NewcomerIsAnswered(cfg, listeners, m, rounds, t, fd, j, k);
      if !t.exited { EndedLater(s, m, t, fd, Reply(cfg, rounds, fd, j, k).out); }
    }
  }

  lemma ReplyNotEmpty(cfg: Config, rounds: seq<Round>, fd: int, j: nat, k: nat)
    requires Exchange(rounds, fd, j, k) && rounds[j].io(fd).world.errorMemoryOk
    ensures k + 4 <= |Heard(rounds, fd, 0, j + 1)| && Reply(cfg, rounds, fd, j, k).out != ""
  {
    hide Stage;
    EveryRequestIsAnswered(cfg, rounds[j].io(fd).world, Heard(rounds, fd, 0, j + 1)[..k + 4]);
  }

  lemma EndedGrow(cfg: Config, listeners: seq<int>, s: State, r: Round, t: State, fd: int)
    requires Invariant(cfg, s) && !s.exited && FreshTurn(listeners, s, r) && Turns(cfg, listeners, s, r, t)
    ensures s.tally.ended <= t.tally.ended
  {
    hide Serves, FreshTurn, SlotOk, AcceptedIn, IsNew;
    if r.Ready? { TurnByDescriptor(cfg, listeners, s, r, t, fd); }
  }

  lemma EndedLater(s: State, m: State, t: State, fd: int, out: string)
    requires s.tally.ended <= m.tally.ended && EndedWith(m, t, fd, out)
    ensures EndedWith(s, t, fd, out)
  {
  }
}
