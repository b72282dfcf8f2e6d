/** Runs of the server, one connection at a time: what a turn does to it, and from which
    rounds its input and its answer come. */
module Runs {
  import opened Wrappers
  import opened CString
  import opened Http
  import opened World
  import opened Connection
  import opened Responses
  import opened Reading
  import opened Writing
  import opened Chunking
  import opened PollSweep
  import opened Machine

  // ------------------------------------------------------------ one turn, descriptor by descriptor

  ghost predicate IsNew(s: Slot, fd: int) {
    exists addr: Option<Address> :: s == NewSlot(fd, addr)
  }

  /** The `k`-th result is a socket that draining gets to: nothing before it says that none
      is pending, or that `accept` failed. */
  ghost predicate TakenAt(rs: seq<AcceptResult>, k: nat) {
    k < |rs| && rs[k].Accepted? && forall q :: 0 <= q < k ==> !rs[q].NothingPending? && !rs[q].AcceptError?
  }

  /** `accept` hands out `fd` before draining stops, and it can be made non-blocking. */
  ghost predicate Hands(rs: seq<AcceptResult>, fd: int) {
    exists k: nat :: TakenAt(rs, k) && rs[k].fd == fd && rs[k].nonBlocking
  }

  ghost predicate HandsIn(r: Round, listener: int, fd: int) {
    r.Ready? && POLLIN in r.revents(listener) && Hands(r.accepts(listener), fd)
  }

  ghost predicate AcceptedIn(listeners: seq<int>, r: Round, fd: int) {
    exists i :: 0 <= i < |listeners| && HandsIn(r, listeners[i], fd)
  }

  lemma TakenNext(rs: seq<AcceptResult>, k: nat)
    requires rs != []
    ensures TakenAt(rs, k + 1) <==> !rs[0].NothingPending? && !rs[0].AcceptError? && TakenAt(rs[1..], k)
  {
    if TakenAt(rs, k + 1) {
      assert forall q :: 0 <= q < k ==> rs[1..][q] == rs[q + 1];
    }
    if !rs[0].NothingPending? && !rs[0].AcceptError? && TakenAt(rs[1..], k) {
      forall q | 0 <= q < k + 1 ensures !rs[q].NothingPending? && !rs[q].AcceptError? {
        if q > 0 { assert rs[q] == rs[1..][q - 1]; }
      }
    }
  }

  lemma HandsUnfold(rs: seq<AcceptResult>, fd: int)
    ensures Hands(rs, fd)
       <==> !StopsAccepting(rs) && ((rs[0].Accepted? && rs[0].fd == fd && rs[0].nonBlocking) || Hands(rs[1..], fd))
  {
    if k: nat :| TakenAt(rs, k) && rs[k].fd == fd && rs[k].nonBlocking {
      if k > 0 { TakenNext(rs, k - 1); }
    }
    if !StopsAccepting(rs) {
      if rs[0].Accepted? && rs[0].fd == fd && rs[0].nonBlocking { assert TakenAt(rs, 0); }
      if k: nat :| TakenAt(rs[1..], k) && rs[1..][k].fd == fd && rs[1..][k].nonBlocking {
        TakenNext(rs, k);
        assert rs[k + 1] == rs[1..][k];
      }
    }
  }

  lemma NothingHanded(listener: int, r: Round, fd: int)
    requires r.Ready?
    ensures Hands(Arrivals(listener, r), fd) <==> HandsIn(r, listener, fd)
  {
  }

  /** `t` holds the connections of `s` unchanged, and besides them only new ones. */
  ghost predicate Extends(t: State, s: State) {
    && t.tally.ended == s.tally.ended && t.tally.logged == s.tally.logged && t.exited == s.exited
    && s.tally.closed <= t.tally.closed
    && (forall fd :: fd in s.conns ==> fd in t.conns && t.conns[fd] == s.conns[fd])
    && (forall fd :: fd in t.conns && fd !in s.conns ==> IsNew(t.conns[fd], fd))
  }

  lemma {:induction false} AdmitExtends(s: State, listeners: seq<int>, rs: seq<AcceptResult>)
    requires Fresh(s, listeners, rs)
    ensures Extends(Admit(s, rs), s)
    decreases |rs|
  {
    hide NewSlot, Max;
    if !StopsAccepting(rs) {
      var t := AdmitOne(s, rs[0]);
      if rs[0].Accepted? && rs[0].nonBlocking { assert IsNew(t.conns[rs[0].fd], rs[0].fd); }
      AdmitExtends(t, listeners, rs[1..]);
    }
  }

  lemma {:induction false} OnlyHandedEnter(s: State, rs: seq<AcceptResult>, fd: int)
    requires fd in Admit(s, rs).conns && fd !in s.conns
    ensures Hands(rs, fd)
    decreases |rs|
  {
    hide NewSlot, Hands, Max;
    HandsUnfold(rs, fd);
    if !StopsAccepting(rs) && fd !in AdmitOne(s, rs[0]).conns { OnlyHandedEnter(AdmitOne(s, rs[0]), rs[1..], fd); }
  }

  lemma {:induction false} NotHandedAgain(s: State, listeners: seq<int>, rs: seq<AcceptResult>, fd: int)
    requires Fresh(s, listeners, rs) && fd in s.conns
    ensures !Hands(rs, fd)
    decreases |rs|
  {
    hide NewSlot, Hands;
    HandsUnfold(rs, fd);
    if !StopsAccepting(rs) { NotHandedAgain(AdmitOne(s, rs[0]), listeners, rs[1..], fd); }
  }

  lemma {:induction false} NotHandedFrom(s: State, listeners: seq<int>, r: Round, k: nat, fd: int)
    requires r.Ready? && FreshFrom(s, listeners, r, k) && fd in s.conns
    ensures forall i :: k <= i < |listeners| ==> !Hands(Arrivals(listeners[i], r), fd)
    decreases |listeners| - k
  {
    hide NewSlot, Admit, Fresh, Hands, Arrivals;
    if k < |listeners| {
      var rs := Arrivals(listeners[k], r);
      NotHandedAgain(s, listeners, rs, fd);
      AdmitExtends(s, listeners, rs);
      NotHandedFrom(Admit(s, rs), listeners, r, k + 1, fd);
    }
  }

  /** While a connection is open, its descriptor is not handed out again. */
  lemma NotAcceptedAgain(listeners: seq<int>, s: State, r: Round, fd: int)
    requires FreshTurn(listeners, s, r) && fd in s.conns
    ensures !AcceptedIn(listeners, r, fd)
  {
    hide Hands, Arrivals, FreshFrom;
    if i :| 0 <= i < |listeners| && HandsIn(r, listeners[i], fd) {
      NotHandedFrom(s.(conns := Polled(s.conns, r.revents)), listeners, r, 0, fd);
      NothingHanded(listeners[i], r, fd);
    }
  }

  lemma {:induction false} AdmitFromExtends(s: State, listeners: seq<int>, r: Round, k: nat)
    requires r.Ready? && FreshFrom(s, listeners, r, k)
    ensures Extends(AdmitFrom(s, listeners, r, k), s)
    ensures forall fd :: fd in AdmitFrom(s, listeners, r, k).conns && fd !in s.conns ==> AcceptedIn(listeners, r, fd)
    decreases |listeners| - k
  {
    hide NewSlot, Admit, Fresh, Hands, Arrivals, HandsIn;
    if k < |listeners| {
      var rs := Arrivals(listeners[k], r);
      AdmitExtends(s, listeners, rs);
      AdmitFromExtends(Admit(s, rs), listeners, r, k + 1);
      forall fd | fd in Admit(s, rs).conns && fd !in s.conns ensures AcceptedIn(listeners, r, fd) {
        OnlyHandedEnter(s, rs, fd);
        NothingHanded(listeners[k], r, fd);
      }
    }
  }

  lemma NewIsUntouched(cfg: Config, s: Slot, fd: int, io: Io)
    requires IsNew(s, fd)
    ensures Serve(cfg, s, io) == Service(s, Stays, None)
  {
    hide ReadStep, ReadLog;
  }

  /** What serving a connection in round `r` means. */
  function ServeIn(cfg: Config, s: Slot, r: Round): Service
    requires r.Ready?
  {
    Serve(cfg, Poll(s, r.revents), r.io(s.client.fd))
  }

  /** An error, a hang-up or an invalid descriptor closes the connection as it is, whatever
      else is reported: nothing is read, sent or logged. */
  lemma FailedIsClosed(cfg: Config, s: Slot, io: Io)
    requires POLLERR in s.pfd.revents || POLLHUP in s.pfd.revents || POLLNVAL in s.pfd.revents
    ensures Serve(cfg, s, io) == Service(s, Closes, None)
  {
    hide ReadStep, ReadLog, WriteStep;
  }

  /** Without them, a connection closes only when reading it, or sending all, closes it. */
  lemma ClosedByTraffic(cfg: Config, s: Slot, io: Io)
    requires POLLERR !in s.pfd.revents && POLLHUP !in s.pfd.revents && POLLNVAL !in s.pfd.revents
    requires s.client.state != ClientState.Closing && Serve(cfg, s, io).fate == Closes
    ensures var reading := POLLIN in s.pfd.revents && s.client.state == Reading;
            var c := if reading then ReadStep(cfg, io.world, s.client, io.received) else s.client;
            || (reading && c.state == ClientState.Closing)
            || (POLLOUT in s.pfd.revents && c.state in {SendingHeader, SendingBody}
                && !WriteStep(c, s.wire, io.sends).exited)
  {
    hide ReadStep, ReadLog, WriteStep;
  }

  /** The connection `fd` of `s`, in the state `t` after a turn, has been served once. */
  ghost predicate ServedOnce(cfg: Config, s: State, r: Round, t: State, fd: int)
    requires r.Ready? && fd in s.conns
  {
    var v := ServeIn(cfg, s.conns[fd], r);
    && (v.fate == Exits ==> t.exited) && (v.logged.Some? ==> (fd, v.logged.value) in t.tally.logged)
    && (if v.fate == Closes then fd !in t.conns && t.tally.ended[v.slot] > s.tally.ended[v.slot]
        else fd in t.conns && t.conns[fd] == v.slot)
  }

  /** One turn serves each connection that was there exactly once, on its own traffic; those
      that stay are as that left them, the others are gone; a connection accepted in the turn
      is left alone. When the process exits, connections may not have been looked at. */
  lemma TurnByDescriptor(cfg: Config, listeners: seq<int>, s: State, r: Round, t: State, fd: int)
    requires r.Ready? && !s.exited && Keyed(s.conns) && FreshTurn(listeners, s, r) && Turns(cfg, listeners, s, r, t)
    ensures fd in s.conns ==>
              ServedOnce(cfg, s, r, t, fd) || (t.exited && fd in t.conns && t.conns[fd] == Poll(s.conns[fd], r.revents))
    ensures fd in t.conns && fd !in s.conns ==> IsNew(t.conns[fd], fd) && AcceptedIn(listeners, r, fd)
    ensures s.tally.ended <= t.tally.ended && s.tally.logged <= t.tally.logged
  {
    hide Serve, NewSlot, IsNew, AcceptedIn, AdmitFrom, FreshFrom;
    var polled := s.(conns := Polled(s.conns, r.revents));
    AdmitFromExtends(polled, listeners, r, 0);
    var a := Admitted(listeners, s, r);
    var done: set<int> :| ServesUpTo(cfg, r.io, a, done, t);
    if fd in a.conns && fd !in s.conns {
      NewIsUntouched(cfg, a.conns[fd], fd, r.io(fd));
    }
    if fd in s.conns && fd in done {
      var served := Among(a.conns, done);
      assert fd in served && served[fd] == a.conns[fd] == Poll(s.conns[fd], r.revents);
      var v := Serve(cfg, served[fd], r.io(fd));
      if v.fate == Closes { assert v.slot in Ended(cfg, r.io, served); }
      if v.fate == Exits { assert fd in ExitingFds(cfg, r.io, served); }
      if v.logged.Some? { assert (fd, v.logged.value) in Logged(cfg, r.io, served); }
    }
  }

  /** A connection that ends in a turn was there before, and serving it closed it. */
  lemma WhoEndsInTurn(cfg: Config, listeners: seq<int>, s: State, r: Round, t: State, e: Slot) returns (fd: int)
    requires r.Ready? && !s.exited && Keyed(s.conns) && FreshTurn(listeners, s, r) && Turns(cfg, listeners, s, r, t)
    requires e in t.tally.ended && e !in s.tally.ended
    ensures fd in s.conns
    ensures ServeIn(cfg, s.conns[fd], r).fate == Closes && e == ServeIn(cfg, s.conns[fd], r).slot
    ensures ServedOnce(cfg, s, r, t, fd)
  {
    hide Serve, NewSlot, IsNew, AdmitFrom, FreshFrom, Served, TallyAll;
    var polled := s.(conns := Polled(s.conns, r.revents));
    AdmitFromExtends(polled, listeners, r, 0);
    var a := Admitted(listeners, s, r);
    var done: set<int> :| ServesUpTo(cfg, r.io, a, done, t);
    fd := WhoEnds(cfg, r.io, a, done, t, e);
    if fd !in s.conns {
      NewIsUntouched(cfg, a.conns[fd], fd, r.io(fd));
    } else {
      ClosedNotKept(cfg, r.io, a, done, t, fd);
      TurnByDescriptor(cfg, listeners, s, r, t, fd);
    }
  }

  lemma ClosedNotKept(cfg: Config, io: int -> Io, s: State, done: set<int>, t: State, fd: int)
    requires ServesUpTo(cfg, io, s, done, t) && fd in s.conns && fd in done
    requires Serve(cfg, s.conns[fd], io(fd)).fate == Closes
    ensures fd !in t.conns
  {
    hide Serve;
  }

  /** A line in the log was written in a turn before, or by serving a connection in this one. */
  lemma WhoLogsInTurn(cfg: Config, listeners: seq<int>, s: State, r: Round, t: State, l: (int, string))
    requires r.Ready? && !s.exited && Keyed(s.conns) && FreshTurn(listeners, s, r) && Turns(cfg, listeners, s, r, t)
    requires l in t.tally.logged && l !in s.tally.logged
    ensures l.0 in s.conns && ServeIn(cfg, s.conns[l.0], r).logged == Some(l.1)
  {
    hide Serve, NewSlot, IsNew, AdmitFrom, FreshFrom, Served, ClosingFds, Ended, SomeoneExits;
    var polled := s.(conns := Polled(s.conns, r.revents));
    AdmitFromExtends(polled, listeners, r, 0);
    var a := Admitted(listeners, s, r);
    var done: set<int> :| ServesUpTo(cfg, r.io, a, done, t);
    var served := Among(a.conns, done);
    assert l in Logged(cfg, r.io, served);
    var fd :| fd in served && Serve(cfg, served[fd], r.io(fd)).logged.Some?
              && (fd, Serve(cfg, served[fd], r.io(fd)).logged.value) == l;
    if fd !in s.conns { NewIsUntouched(cfg, a.conns[fd], fd, r.io(fd)); }
  }

  // ------------------------------------------------------------ newcomers

  /** A connection that was just accepted: READING, with nothing received, staged or sent. */
  predicate JustAccepted(s: Slot, fd: int, addr: Option<Address>) {
    && s.pfd.fd == fd && s.pfd.events == {POLLIN} && s.pfd.revents == {} && s.wire == ""
    && s.client.fd == fd && s.client.state == Reading && s.client.resp == Unset
    && s.client.addr == (if addr.Some? then addr.value else "Unknown IP")
    && s.client.inBuf == "" && s.client.inputCapacity == 0
    && s.client.outBuf == "" && s.client.outputSent == 0
    && s.client.headerLen == s.client.bodyLen == s.client.fileSize == 0
  }

  /** An accepted socket is in the table from then on, or is closed. */
  ghost predicate Entered(s: State, t: State, a: AcceptResult)
    requires a.Accepted?
  {
    if a.nonBlocking then a.fd in t.conns && IsNew(t.conns[a.fd], a.fd) && JustAccepted(t.conns[a.fd], a.fd, a.addr)
    else t.tally.closed[a.fd] > s.tally.closed[a.fd]
  }

  lemma {:induction false} TakenEnters(s: State, listeners: seq<int>, rs: seq<AcceptResult>, k: nat)
    requires Fresh(s, listeners, rs) && TakenAt(rs, k)
    ensures Entered(s, Admit(s, rs), rs[k])
    decreases k
  {
    assert !StopsAccepting(rs);
    var t := AdmitOne(s, rs[0]);
    AdmitExtends(t, listeners, rs[1..]);
    if k == 0 {
      if rs[0].nonBlocking { assert t.conns[rs[0].fd] == NewSlot(rs[0].fd, rs[0].addr); }
    } else {
      TakenNext(rs, k - 1);
      TakenEnters(t, listeners, rs[1..], k - 1);
    }
  }

  lemma {:induction false} TakenEntersFrom(s: State, listeners: seq<int>, r: Round, from: nat, i: nat, k: nat)
    requires r.Ready? && FreshFrom(s, listeners, r, from) && from <= i < |listeners|
    requires POLLIN in r.revents(listeners[i]) && TakenAt(r.accepts(listeners[i]), k)
    ensures Entered(s, AdmitFrom(s, listeners, r, from), r.accepts(listeners[i])[k])
    decreases i - from
  {
    hide Admit, Fresh, TakenAt, JustAccepted, IsNew;
    var rs := Arrivals(listeners[from], r);
    var t := Admit(s, rs);
    AdmitExtends(s, listeners, rs);
    AdmitFromExtends(t, listeners, r, from + 1);
    if i == from {
      TakenEnters(s, listeners, rs, k);
    } else {
      TakenEntersFrom(t, listeners, r, from + 1, i, k);
    }
  }

  /** When poll reports a listener readable, every socket that draining it gets to, and that
      can be made non-blocking, is in the table after the turn, READING, with its address and
      nothing else; one that cannot is closed. Nothing else enters (`TurnByDescriptor`). */
  lemma NewcomersEnter(cfg: Config, listeners: seq<int>, s: State, r: Round, t: State, i: nat, k: nat)
    requires r.Ready? && !s.exited && FreshTurn(listeners, s, r) && Turns(cfg, listeners, s, r, t)
    requires i < |listeners| && POLLIN in r.revents(listeners[i]) && TakenAt(r.accepts(listeners[i]), k)
    ensures Entered(s, t, r.accepts(listeners[i])[k])
    ensures r.accepts(listeners[i])[k].nonBlocking ==> r.accepts(listeners[i])[k].fd !in s.conns
  {
    hide Serve, NewSlot, IsNew, AcceptedIn, AdmitFrom, FreshFrom, JustAccepted;
    var polled := s.(conns := Polled(s.conns, r.revents));
    var a := r.accepts(listeners[i])[k];
    TakenEntersFrom(polled, listeners, r, 0, i, k);
    var done: set<int> :| ServesUpTo(cfg, r.io, Admitted(listeners, s, r), done, t);
    if a.nonBlocking {
      NewIsUntouched(cfg, Admitted(listeners, s, r).conns[a.fd], a.fd, r.io(a.fd));
      IsAcceptedIn(listeners, r, i, k);
      if a.fd in s.conns { NotAcceptedAgain(listeners, s, r, a.fd); }
    }
  }

  lemma IsAcceptedIn(listeners: seq<int>, r: Round, i: nat, k: nat)
    requires r.Ready? && i < |listeners| && POLLIN in r.revents(listeners[i]) && TakenAt(r.accepts(listeners[i]), k)
    requires r.accepts(listeners[i])[k].nonBlocking
    ensures AcceptedIn(listeners, r, r.accepts(listeners[i])[k].fd)
  {
    assert HandsIn(r, listeners[i], r.accepts(listeners[i])[k].fd);
  }

  // ------------------------------------------------------------ what is heard

  function HeardIn(r: Round, fd: int): string {
    if r.Ready? && POLLIN in r.revents(fd) && !Faulty(r.revents(fd)) then Delivered(r.io(fd).received) else ""
  }

  /** What `recv` delivers on a descriptor in the rounds from `from` up to `to`. */
  function Heard(rounds: seq<Round>, fd: int, from: nat, to: nat): string
    requires from <= to <= |rounds|
  {
    if from == to then "" else Heard(rounds, fd, from, to - 1) + HeardIn(rounds[to - 1], fd)
  }

  /** If the search follows, the buffer has taken all that was delivered; a client that
      overflows was sent more than 8192 bytes. */
  lemma {:induction false} DrainHears(c: Client, ev: seq<RecvResult>)
    requires c.state == Reading && BufferOk(c)
    ensures var d := Drain(c, ev);
            && (d.scan ==> d.client.inBuf == c.inBuf + Delivered(ev))
            && (!d.scan ==> d.client.state == Processing || d.client.state == ClientState.Closing)
            && (d.client.state == Processing ==> |c.inBuf + Delivered(ev)| > MAX_REQUEST_SIZE)
    decreases |ev|
  {
    if ev != [] && ev[0].RecvInterrupted? {
      DrainHears(c, ev[1..]);
    } else if ev != [] && ev[0].Data? {
      var c' := Appended(c, ev[0].bytes, ev[0].reallocOk);
      Associative(c.inBuf, ev[0].bytes, Delivered(ev[1..]));
      if c'.state == Reading { DrainHears(c', ev[1..]); }
    } else {
      assert c.inBuf + "" == c.inBuf;
    }
  }

  lemma ReadHears(cfg: Config, w: World, c: Client, ev: seq<RecvResult>)
    requires c.state == Reading && BufferOk(c)
    ensures var r := ReadStep(cfg, w, c, ev);
            && (r.state == Reading || r.state == SendingHeader ==> r.inBuf == c.inBuf + Delivered(ev))
            && (r.state == Processing ==> |c.inBuf + Delivered(ev)| > MAX_REQUEST_SIZE)
  {
    hide Stage;
    DrainHears(c, ev);
    DrainKeeps(c, ev);
  }

  // ------------------------------------------------------------ where input and answer come from

  type Log = multiset<(int, string)>

  /** Round `a` is the last one before round `n` in which `fd` was accepted. */
  ghost predicate OpenSince(listeners: seq<int>, rounds: seq<Round>, a: nat, n: nat, fd: int)
    requires n <= |rounds|
  {
    a < n && AcceptedIn(listeners, rounds[a], fd) && forall i :: a < i < n ==> !AcceptedIn(listeners, rounds[i], fd)
  }

  /** The client has been answered. */
  predicate Replied(c: Client) { c.resp != Unset && c.state != Processing }

  /** The log line of an answered client. */
  function LineFor(cfg: Config, w: World, fd: int, c: Client): (int, string)
    requires StrNStr(c.inBuf, BLANK_LINE).Some?
  {
    var head := c.inBuf[..StrNStr(c.inBuf, BLANK_LINE).value + 4];
    (fd, LogLine(c.addr, w, head, Stage(cfg, w, head)))
  }

  /** The answer staged in `c` was built in round `j`, in that round's world, from what was
      heard since the connection was accepted in round `a`; its line is in the log. */
  ghost predicate AnsweredAt(cfg: Config, listeners: seq<int>, rounds: seq<Round>, a: nat, j: nat, fd: int, c: Client,
                             log: Log)
    requires a < j < |rounds|
  {
    && OpenSince(listeners, rounds, a, j + 1, fd) && rounds[j].Ready?
    && c.inBuf == Heard(rounds, fd, a + 1, j + 1) && AnswersIn(cfg, rounds[j].io(fd).world, c)
    && (cfg.logging ==> LineFor(cfg, rounds[j].io(fd).world, fd, c) in log)
  }

  ghost predicate Answered(cfg: Config, listeners: seq<int>, rounds: seq<Round>, n: nat, fd: int, c: Client, log: Log)
    requires n <= |rounds|
  {
    exists a: nat, j: nat :: a < j < n && AnsweredAt(cfg, listeners, rounds, a, j, fd, c, log)
  }

  /** Up to round `n`, all that was heard since the connection was accepted is in the buffer. */
  ghost predicate Listening(listeners: seq<int>, rounds: seq<Round>, n: nat, fd: int, c: Client)
    requires n <= |rounds|
  {
    exists a: nat :: OpenSince(listeners, rounds, a, n, fd) && c.inBuf == Heard(rounds, fd, a + 1, n)
  }

  ghost predicate TooMuch(listeners: seq<int>, rounds: seq<Round>, a: nat, j: nat, fd: int)
    requires a < j < |rounds|
  {
    OpenSince(listeners, rounds, a, j + 1, fd) && |Heard(rounds, fd, a + 1, j + 1)| > MAX_REQUEST_SIZE
  }

  ghost predicate Oversized(listeners: seq<int>, rounds: seq<Round>, n: nat, fd: int)
    requires n <= |rounds|
  {
    exists a: nat, j: nat :: a < j < n && TooMuch(listeners, rounds, a, j, fd)
  }

  ghost predicate Traced(cfg: Config, listeners: seq<int>, rounds: seq<Round>, n: nat, fd: int, c: Client, log: Log)
    requires n <= |rounds|
  {
    match c.state
    case Reading => Listening(listeners, rounds, n, fd, c)
    case Processing => Oversized(listeners, rounds, n, fd)
    case SendingHeader => Answered(cfg, listeners, rounds, n, fd, c, log)
    case SendingBody => false
    case Closing => false
  }

  ghost predicate EndTraced(cfg: Config, listeners: seq<int>, rounds: seq<Round>, n: nat, e: Slot, log: Log)
    requires n <= |rounds|
  {
    e.wire != "" || Replied(e.client) ==> Answered(cfg, listeners, rounds, n, e.client.fd, e.client, log)
  }

  /** A line in the log is that of a client answered on the descriptor. */
  ghost predicate LineTraced(cfg: Config, listeners: seq<int>, rounds: seq<Round>, n: nat, l: (int, string), log: Log)
    requires n <= |rounds|
  {
    exists a: nat, j: nat, c: Client ::
      a < j < n && AnsweredAt(cfg, listeners, rounds, a, j, l.0, c, log)
      && l == LineFor(cfg, rounds[j].io(l.0).world, l.0, c)
  }

  /** All of this, after `n` rounds; a connection that was not looked at any more before the
      process exited is as the round before left it. */
  ghost predicate AllTraced(cfg: Config, listeners: seq<int>, rounds: seq<Round>, n: nat, s: State)
    requires n <= |rounds|
  {
    && (forall fd :: fd in s.conns ==>
          || Traced(cfg, listeners, rounds, n, fd, s.conns[fd].client, s.tally.logged)
          || (s.exited && n > 0 && Traced(cfg, listeners, rounds, n - 1, fd, s.conns[fd].client, s.tally.logged)))
    && (forall e :: e in s.tally.ended ==> EndTraced(cfg, listeners, rounds, n, e, s.tally.logged))
    && (forall l :: l in s.tally.logged ==> LineTraced(cfg, listeners, rounds, n, l, s.tally.logged))
  }

  /** What is answered stays answered, in later rounds and with a longer log. */
  lemma AnsweredLater(cfg: Config, listeners: seq<int>, rounds: seq<Round>, n: nat, m: nat, fd: int, c: Client,
                      log: Log, log': Log)
    requires n <= m <= |rounds| && log <= log' && Answered(cfg, listeners, rounds, n, fd, c, log)
    ensures Answered(cfg, listeners, rounds, m, fd, c, log')
  {
    hide LineFor, AnswersIn, OpenSince, Heard;
    var a: nat, j: nat :| a < j < n && AnsweredAt(cfg, listeners, rounds, a, j, fd, c, log);
    assert AnsweredAt(cfg, listeners, rounds, a, j, fd, c, log');
  }

  lemma TracedLonger(cfg: Config, listeners: seq<int>, rounds: seq<Round>, n: nat, fd: int, c: Client,
                     log: Log, log': Log)
    requires n <= |rounds| && log <= log' && Traced(cfg, listeners, rounds, n, fd, c, log)
    ensures Traced(cfg, listeners, rounds, n, fd, c, log')
  {
    hide Answered;
    if c.state == SendingHeader { AnsweredLater(cfg, listeners, rounds, n, n, fd, c, log, log'); }
  }

  lemma LineLater(cfg: Config, listeners: seq<int>, rounds: seq<Round>, n: nat, l: (int, string), log: Log, log': Log)
    requires n < |rounds| && log <= log' && LineTraced(cfg, listeners, rounds, n, l, log)
    ensures LineTraced(cfg, listeners, rounds, n + 1, l, log')
  {
    hide LineFor, Stage, StrNStr, OpenSince, Heard;
    var a: nat, j: nat, c: Client :| a < j < n && AnsweredAt(cfg, listeners, rounds, a, j, l.0, c, log)
                                     && l == LineFor(cfg, rounds[j].io(l.0).world, l.0, c);
    assert AnsweredAt(cfg, listeners, rounds, a, j, l.0, c, log');
  }

  /** A round in which a connection's client does not change and hears nothing. */
  lemma SilentRound(cfg: Config, listeners: seq<int>, rounds: seq<Round>, n: nat, fd: int, c: Client, log: Log)
    requires n < |rounds| && Traced(cfg, listeners, rounds, n, fd, c, log)
    requires c.state == Reading ==> HeardIn(rounds[n], fd) == "" && !AcceptedIn(listeners, rounds[n], fd)
    ensures Traced(cfg, listeners, rounds, n + 1, fd, c, log)
  {
    hide HeardIn, AnsweredAt, AcceptedIn, Answered;
    if c.state == Reading {
      var a: nat :| OpenSince(listeners, rounds, a, n, fd) && c.inBuf == Heard(rounds, fd, a + 1, n);
      assert c.inBuf + "" == c.inBuf;
      assert OpenSince(listeners, rounds, a, n + 1, fd) && Heard(rounds, fd, a + 1, n + 1) == c.inBuf;
    }
    if c.state == SendingHeader { AnsweredLater(cfg, listeners, rounds, n, n + 1, fd, c, log, log); }
  }

  /** Reading logs a line exactly when it answers and logging is on: the line of that answer. */
  lemma ReadLogs(cfg: Config, w: World, c: Client, ev: seq<RecvResult>, fd: int)
    requires c.state == Reading && Waiting(c)
    ensures var r := ReadStep(cfg, w, c, ev); var text := ReadLog(cfg, w, c, ev);
            && (text.Some? <==> cfg.logging && r.state == SendingHeader)
            && (text.Some? ==> StrNStr(r.inBuf, BLANK_LINE).Some? && (fd, text.value) == LineFor(cfg, w, fd, r))
  {
    hide Stage, LogLine;
    DrainKeeps(c, ev);
  }

  lemma ReadRound(cfg: Config, listeners: seq<int>, rounds: seq<Round>, n: nat, fd: int, c: Client, log: Log, log': Log)
    requires n < |rounds| && rounds[n].Ready? && POLLIN in rounds[n].revents(fd) && !Faulty(rounds[n].revents(fd))
    requires c.state == Reading && Waiting(c) && Traced(cfg, listeners, rounds, n, fd, c, log)
    requires !AcceptedIn(listeners, rounds[n], fd)
    requires var text := ReadLog(cfg, rounds[n].io(fd).world, c, rounds[n].io(fd).received);
             text.Some? ==> (fd, text.value) in log'
    ensures var r := ReadStep(cfg, rounds[n].io(fd).world, c, rounds[n].io(fd).received);
            var text := ReadLog(cfg, rounds[n].io(fd).world, c, rounds[n].io(fd).received);
            && (r.state != ClientState.Closing ==> Traced(cfg, listeners, rounds, n + 1, fd, r, log'))
            && (text.Some? ==> LineTraced(cfg, listeners, rounds, n + 1, (fd, text.value), log'))
  {
    hide ReadStep, ReadLog, AnswersIn, AcceptedIn, Delivered, LineFor;
    var w, ev := rounds[n].io(fd).world, rounds[n].io(fd).received;
    var a: nat :| OpenSince(listeners, rounds, a, n, fd) && c.inBuf == Heard(rounds, fd, a + 1, n);
    assert OpenSince(listeners, rounds, a, n + 1, fd) && Heard(rounds, fd, a + 1, n + 1) == c.inBuf + Delivered(ev);
    ReadHears(cfg, w, c, ev);
    ReadOutcome(cfg, w, c, ev);
    ReadLogs(cfg, w, c, ev, fd);
    var r := ReadStep(cfg, w, c, ev);
    if r.state == SendingHeader { assert AnsweredAt(cfg, listeners, rounds, a, n, fd, r, log'); }
    if r.state == Processing { assert TooMuch(listeners, rounds, a, n, fd); }
  }

  /** Sending does not change what is staged. */
  lemma WriteTraces(cfg: Config, listeners: seq<int>, rounds: seq<Round>, n: nat, fd: int, c: Client, sends: seq<int>,
                    log: Log)
    requires n <= |rounds| && c.outputSent == 0 && Answered(cfg, listeners, rounds, n, fd, c, log)
    ensures Answered(cfg, listeners, rounds, n, fd, WriteStep(c, "", sends).client, log)
    ensures WriteStep(c, "", sends).exited ==> WriteStep(c, "", sends).client.state == c.state
  {
    hide Stage, StrNStr, LogLine;
    SentInOrder(c, "", sends);
    var a: nat, j: nat :| a < j < n && AnsweredAt(cfg, listeners, rounds, a, j, fd, c, log);
    assert AnsweredAt(cfg, listeners, rounds, a, j, fd, WriteStep(c, "", sends).client, log);
  }

  /** A client that closes without an answer has no status. */
  lemma ClosedUnanswered(cfg: Config, w: World, c: Client, ev: seq<RecvResult>)
    requires c.state == Reading && Waiting(c)
    ensures var r := ReadStep(cfg, w, c, ev); r.state == ClientState.Closing ==> r.resp == Unset
  {
    hide Stage;
    DrainKeeps(c, ev);
    DrainOutcome(c, ev);
    ClosedHasNoStatus(c, ev);
  }

  lemma {:induction false} ClosedHasNoStatus(c: Client, ev: seq<RecvResult>)
    requires c.state == Reading && c.resp == Unset
    ensures Drain(c, ev).client.state == ClientState.Closing ==> Drain(c, ev).client.resp == Unset
    decreases |ev|
  {
    if ev != [] && (ev[0].RecvInterrupted? || ev[0].Data?) {
      var c' := if ev[0].Data? then Appended(c, ev[0].bytes, ev[0].reallocOk) else c;
      if c'.state == Reading { ClosedHasNoStatus(c', ev[1..]); }
    }
  }

  lemma ServeTraces(cfg: Config, listeners: seq<int>, rounds: seq<Round>, n: nat, fd: int, s: Slot, log: Log, log': Log)
    requires n < |rounds| && rounds[n].Ready? && SlotOk(cfg, s) && s.client.fd == s.pfd.fd == fd && log <= log'
    requires Traced(cfg, listeners, rounds, n, fd, s.client, log) && !AcceptedIn(listeners, rounds[n], fd)
    requires var text := ServeIn(cfg, s, rounds[n]).logged; text.Some? ==> (fd, text.value) in log'
    ensures var v := ServeIn(cfg, s, rounds[n]);
            && (if v.fate == Closes then EndTraced(cfg, listeners, rounds, n + 1, v.slot, log')
                else Traced(cfg, listeners, rounds, n + 1, fd, v.slot.client, log'))
            && (v.logged.Some? ==> LineTraced(cfg, listeners, rounds, n + 1, (fd, v.logged.value), log'))
  {
    hide ReadStep, WriteStep, ReadLog, Answered, Listening, Oversized, AnswersInput, AcceptedIn, LineTraced;
    var revents, io, c := rounds[n].revents(fd), rounds[n].io(fd), s.client;
    var v := ServeIn(cfg, s, rounds[n]);
    ServeKeepsFd(cfg, Poll(s, rounds[n].revents), io);
    TracedLonger(cfg, listeners, rounds, n, fd, c, log, log');
    if revents == {} || Faulty(revents) || POLLIN !in revents || c.state != Reading {
      SilentRound(cfg, listeners, rounds, n, fd, c, log');
    } else {
      ReadRound(cfg, listeners, rounds, n, fd, c, log, log');
      ReadOutcome(cfg, io.world, c, io.received);
      ClosedUnanswered(cfg, io.world, c, io.received);
      c := ReadStep(cfg, io.world, c, io.received);
    }
    if c.state == SendingHeader {
      WriteTraces(cfg, listeners, rounds, n + 1, fd, c, io.sends, log');
    }
    ServeOutcome(cfg, Poll(s, rounds[n].revents), io);
  }

  lemma TurnTraces(cfg: Config, listeners: seq<int>, rounds: seq<Round>, n: nat, s: State, t: State)
    requires n < |rounds| && Invariant(cfg, s) && !s.exited && AllTraced(cfg, listeners, rounds, n, s)
    requires FreshTurn(listeners, s, rounds[n]) && Turns(cfg, listeners, s, rounds[n], t)
    ensures AllTraced(cfg, listeners, rounds, n + 1, t)
  {
    hide Serve, SlotOk, Traced, Conserved, IsNew, AcceptedIn, FreshTurn, Turns, Answered, EndTraced, LineTraced;
    var r, log := rounds[n], t.tally.logged;
    if r.Ready? {
      forall fd | fd in t.conns
        ensures || Traced(cfg, listeners, rounds, n + 1, fd, t.conns[fd].client, log)
                || (t.exited && Traced(cfg, listeners, rounds, n, fd, t.conns[fd].client, log))
      {
        OpensTraced(cfg, listeners, rounds, n, s, t, fd);
      }
      forall e | e in t.tally.ended ensures EndTraced(cfg, listeners, rounds, n + 1, e, log) {
        EndsTraced(cfg, listeners, rounds, n, s, t, e);
      }
      forall l | l in log ensures LineTraced(cfg, listeners, rounds, n + 1, l, log) {
        LinesTraced(cfg, listeners, rounds, n, s, t, l);
      }
    } else {
      SilentTurn(cfg, listeners, rounds, n, s, t);
    }
  }

  lemma OpensTraced(cfg: Config, listeners: seq<int>, rounds: seq<Round>, n: nat, s: State, t: State, fd: int)
    requires n < |rounds| && rounds[n].Ready?
    requires Invariant(cfg, s) && !s.exited && AllTraced(cfg, listeners, rounds, n, s)
    requires FreshTurn(listeners, s, rounds[n]) && Turns(cfg, listeners, s, rounds[n], t) && fd in t.conns
    ensures || Traced(cfg, listeners, rounds, n + 1, fd, t.conns[fd].client, t.tally.logged)
            || (t.exited && Traced(cfg, listeners, rounds, n, fd, t.conns[fd].client, t.tally.logged))
  {
    hide Serve, SlotOk, Traced, Conserved, IsNew, AcceptedIn, FreshTurn, Turns, Answered, EndTraced, LineTraced;
    TurnByDescriptor(cfg, listeners, s, rounds[n], t, fd);
    if fd !in s.conns {
      NewIsTraced(cfg, listeners, rounds, n, fd, t.conns[fd], t.tally.logged);
    } else if ServedOnce(cfg, s, rounds[n], t, fd) {
      NotAcceptedAgain(listeners, s, rounds[n], fd);
      ServeTraces(cfg, listeners, rounds, n, fd, s.conns[fd], s.tally.logged, t.tally.logged);
    } else {
      TracedLonger(cfg, listeners, rounds, n, fd, s.conns[fd].client, s.tally.logged, t.tally.logged);
    }
  }

  lemma NewIsTraced(cfg: Config, listeners: seq<int>, rounds: seq<Round>, n: nat, fd: int, s: Slot, log: Log)
    requires n < |rounds| && IsNew(s, fd) && AcceptedIn(listeners, rounds[n], fd)
    ensures Traced(cfg, listeners, rounds, n + 1, fd, s.client, log)
  {
    hide AcceptedIn;
    assert OpenSince(listeners, rounds, n, n + 1, fd);
    assert s.client.inBuf == "" == Heard(rounds, fd, n + 1, n + 1);
  }

  lemma EndsTraced(cfg: Config, listeners: seq<int>, rounds: seq<Round>, n: nat, s: State, t: State, e: Slot)
    requires n < |rounds| && rounds[n].Ready?
    requires Invariant(cfg, s) && !s.exited && AllTraced(cfg, listeners, rounds, n, s)
    requires FreshTurn(listeners, s, rounds[n]) && Turns(cfg, listeners, s, rounds[n], t) && e in t.tally.ended
    ensures EndTraced(cfg, listeners, rounds, n + 1, e, t.tally.logged)
  {
    hide Serve, SlotOk, Traced, Conserved, FreshTurn, Turns, Answered, LineTraced;
    if e in s.tally.ended {
      TurnByDescriptor(cfg, listeners, s, rounds[n], t, e.client.fd);
      if e.wire != "" || Replied(e.client) {
        AnsweredLater(cfg, listeners, rounds, n, n + 1, e.client.fd, e.client, s.tally.logged, t.tally.logged);
      }
    } else {
      var fd := WhoEndsInTurn(cfg, listeners, s, rounds[n], t, e);
      TurnByDescriptor(cfg, listeners, s, rounds[n], t, fd);
      NotAcceptedAgain(listeners, s, rounds[n], fd);
      ServeTraces(cfg, listeners, rounds, n, fd, s.conns[fd], s.tally.logged, t.tally.logged);
    }
  }

  lemma LinesTraced(cfg: Config, listeners: seq<int>, rounds: seq<Round>, n: nat, s: State, t: State, l: (int, string))
    requires n < |rounds| && rounds[n].Ready?
    requires Invariant(cfg, s) && !s.exited && AllTraced(cfg, listeners, rounds, n, s)
    requires FreshTurn(listeners, s, rounds[n]) && Turns(cfg, listeners, s, rounds[n], t) && l in t.tally.logged
    ensures LineTraced(cfg, listeners, rounds, n + 1, l, t.tally.logged)
  {
    hide Serve, SlotOk, Traced, Conserved, FreshTurn, Turns, EndTraced, LineTraced;
    TurnByDescriptor(cfg, listeners, s, rounds[n], t, l.0);
    if l in s.tally.logged {
      LineLater(cfg, listeners, rounds, n, l, s.tally.logged, t.tally.logged);
    } else {
      WhoLogsInTurn(cfg, listeners, s, rounds[n], t, l);
      NotAcceptedAgain(listeners, s, rounds[n], l.0);
      ServeTraces(cfg, listeners, rounds, n, l.0, s.conns[l.0], s.tally.logged, t.tally.logged);
    }
  }

  lemma SilentTurn(cfg: Config, listeners: seq<int>, rounds: seq<Round>, n: nat, s: State, t: State)
    requires n < |rounds| && !rounds[n].Ready? && !s.exited && AllTraced(cfg, listeners, rounds, n, s)
    requires Turns(cfg, listeners, s, rounds[n], t)
    ensures AllTraced(cfg, listeners, rounds, n + 1, t)
  {
    hide Traced, Answered, LineTraced;
    var log := t.tally.logged;
    forall fd | fd in t.conns ensures Traced(cfg, listeners, rounds, n + 1, fd, t.conns[fd].client, log) {
      SilentRound(cfg, listeners, rounds, n, fd, s.conns[fd].client, log);
    }
    forall e | e in t.tally.ended ensures EndTraced(cfg, listeners, rounds, n + 1, e, log) {
      if e.wire != "" || Replied(e.client) {
        AnsweredLater(cfg, listeners, rounds, n, n + 1, e.client.fd, e.client, log, log);
      }
    }
    forall l | l in log ensures LineTraced(cfg, listeners, rounds, n + 1, l, log) {
      LineLater(cfg, listeners, rounds, n, l, log, log);
    }
  }

  lemma {:induction false} RunTraces(cfg: Config, listeners: seq<int>, rounds: seq<Round>, n: nat, s: State, t: State)
    returns (m: nat)
    requires n <= |rounds| && Invariant(cfg, s) && AllTraced(cfg, listeners, rounds, n, s)
    requires FreshRun(cfg, listeners, s, rounds[n..]) && Reaches(cfg, listeners, s, rounds[n..], t)
    ensures n <= m <= |rounds| && (!t.exited ==> m == |rounds|) && AllTraced(cfg, listeners, rounds, m, t)
    ensures Reaches(cfg, listeners, s, rounds[n..m], t)
    decreases |rounds| - n
  {
    hide Invariant, AllTraced, Turns, FreshTurn;
    m := n;
    if n < |rounds| && !s.exited {
      assert rounds[n..][0] == rounds[n] && rounds[n..][1..] == rounds[n + 1..];
      var u: State :| Turns(cfg, listeners, s, rounds[n], u) && Reaches(cfg, listeners, u, rounds[n + 1..], t);
      TurnKeeps(cfg, listeners, s, rounds[n], u);
      TurnTraces(cfg, listeners, rounds, n, s, u);
      m := RunTraces(cfg, listeners, rounds, n + 1, u, t);
      assert rounds[n..m][0] == rounds[n] && rounds[n..m][1..] == rounds[n + 1..m];
      TurnFirst(cfg, listeners, s, rounds[n..m], u, t);
    }
  }

  /** In every reachable state, the last one before an exit included, all input and all
      answers come from the traffic of the connection itself: each READING client holds
      exactly what was delivered since its descriptor was accepted, each staged or sent
      answer was built from that in the world of the round that completed the head, and is
      logged if logging is on, every line in the log is that of such an answer, and only
      clients that were sent more than 8192 bytes have overflowed. */
  lemma EverythingIsTraced(cfg: Config, listeners: seq<int>, rounds: seq<Round>, t: State) returns (m: nat)
    requires FreshRun(cfg, listeners, START, rounds) && Reaches(cfg, listeners, START, rounds, t)
    ensures m <= |rounds| && (!t.exited ==> m == |rounds|) && AllTraced(cfg, listeners, rounds, m, t)
    ensures Reaches(cfg, listeners, START, rounds[..m], t)
  {
    assert multiset(START.conns.Keys) == multiset{};
    assert rounds[0..] == rounds;
    m := RunTraces(cfg, listeners, rounds, 0, START, t);
    assert rounds[0..m] == rounds[..m];
  }
}
