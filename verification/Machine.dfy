/** The server as a state machine over its connections, and what holds in every run. */
module Machine {
  import opened Wrappers
  import opened CString
  import opened Http
  import opened World
  import opened Connection
  import opened Responses
  import opened Reading
  import opened Writing
  import opened PollSweep

  // ------------------------------------------------------------ accepting

  /** What one `accept` yields. `nonBlocking` is whether O_NONBLOCK could be set, `addr` the
      peer's address in text, if `inet_ntop` could print it. */
  datatype AcceptResult =
    | Accepted(fd: int, nonBlocking: bool, addr: Option<Address>)
    | NothingPending
    | AcceptInterrupted
    | AcceptError

  function NewSlot(fd: int, addr: Option<Address>): Slot {
    Slot(PollFd(fd, {POLLIN}, {}), NewClient(fd, addr.GetOr("Unknown IP")), "")
  }

  // ------------------------------------------------------------ states and rounds

  /** `accepted` are the descriptors handed out so far, `peak` is the largest number of
      connections there have been at once. */
  datatype State = State(conns: map<int, Slot>, accepted: multiset<int>, tally: Tally, exited: bool, peak: nat)

  const START: State := State(map[], multiset{}, Tally(multiset{}, multiset{}, multiset{}), false, 0)

  function Max(a: nat, b: nat): nat { if a < b then b else a }

  /** One turn of the event loop, as the environment decides it: `poll` is interrupted, or
      fails, or marks descriptors ready; then come the pending connections of each listener
      in turn, and the traffic of each descriptor. */
  datatype Round =
    | PollInterrupted
    | PollFailed
    | Ready(revents: int -> set<PollFlag>, accepts: int -> seq<AcceptResult>, io: int -> Io)

  function Poll(s: Slot, revents: int -> set<PollFlag>): Slot {
    s.(pfd := s.pfd.(revents := revents(s.pfd.fd)))
  }

  function Polled(conns: map<int, Slot>, revents: int -> set<PollFlag>): map<int, Slot> {
    map fd | fd in conns :: Poll(conns[fd], revents)
  }

  /** What a listener delivers in a round: nothing unless `poll` reported it readable. */
  function Arrivals(listener: int, r: Round): seq<AcceptResult>
    requires r.Ready?
  {
    if POLLIN in r.revents(listener) then r.accepts(listener) else []
  }

  predicate StopsAccepting(rs: seq<AcceptResult>) {
    rs == [] || rs[0].NothingPending? || rs[0].AcceptError?
  }

  /** One accepted socket enters the table, or is closed on the spot. */
  function AdmitOne(s: State, a: AcceptResult): State {
    if !a.Accepted? then s
    else if a.nonBlocking then
      s.(conns := s.conns[a.fd := NewSlot(a.fd, a.addr)], accepted := s.accepted + multiset{a.fd},
         peak := Max(s.peak, |s.conns| + 1))
    else
      s.(accepted := s.accepted + multiset{a.fd}, tally := s.tally.(closed := s.tally.closed + multiset{a.fd}))
  }

  /** `accept_new_conn`: draining one listener. */
  function Admit(s: State, rs: seq<AcceptResult>): State
    decreases |rs|
  {
    if StopsAccepting(rs) then s else Admit(AdmitOne(s, rs[0]), rs[1..])
  }

  /** `accept` never hands out a descriptor that is open. */
  ghost predicate Fresh(s: State, listeners: seq<int>, rs: seq<AcceptResult>)
    decreases |rs|
  {
    StopsAccepting(rs)
    || ((rs[0].Accepted? ==> rs[0].fd !in s.conns && rs[0].fd !in listeners)
        && Fresh(AdmitOne(s, rs[0]), listeners, rs[1..]))
  }

  /** Draining listeners `k` and later. */
  function AdmitFrom(s: State, listeners: seq<int>, r: Round, k: nat): State
    requires r.Ready?
    decreases |listeners| - k
  {
    if k >= |listeners| then s else AdmitFrom(Admit(s, Arrivals(listeners[k], r)), listeners, r, k + 1)
  }

  ghost predicate FreshFrom(s: State, listeners: seq<int>, r: Round, k: nat)
    requires r.Ready?
    decreases |listeners| - k
  {
    k >= |listeners|
    || (Fresh(s, listeners, Arrivals(listeners[k], r))
        && FreshFrom(Admit(s, Arrivals(listeners[k], r)), listeners, r, k + 1))
  }

  /** The state in which the connections are served: polled, and with the newcomers. */
  ghost function Admitted(listeners: seq<int>, s: State, r: Round): State
    requires r.Ready?
  {
    AdmitFrom(s.(conns := Polled(s.conns, r.revents)), listeners, r, 0)
  }

  /** `t` is `s` after a pass that served the connections in `done`: all of them, unless one
      of `done`, and no more than one, is a connection on which `send` failed, which ended the
      process at once. */
  ghost predicate ServesUpTo(cfg: Config, io: int -> Io, s: State, done: set<int>, t: State) {
    && done <= s.conns.Keys
    && t.conns == Served(cfg, io, s.conns, done) && t.accepted == s.accepted && t.peak == s.peak
    && t.tally == Plus(s.tally, TallyAll(cfg, io, Among(s.conns, done)))
    && t.exited == SomeoneExits(cfg, io, Among(s.conns, done)) && AtMostOne(ExitingFds(cfg, io, Among(s.conns, done)))
    && (!t.exited ==> done == s.conns.Keys)
  }

  ghost predicate Serves(cfg: Config, io: int -> Io, s: State, t: State) {
    exists done: set<int> :: ServesUpTo(cfg, io, s, done, t)
  }

  /** One turn of the event loop leads from `s` to `t`. */
  ghost predicate Turns(cfg: Config, listeners: seq<int>, s: State, r: Round, t: State) {
    match r
    case PollInterrupted => t == s
    case PollFailed => t == s.(exited := true)
    case Ready(_, _, io) => Serves(cfg, io, Admitted(listeners, s, r), t)
  }

  ghost predicate FreshTurn(listeners: seq<int>, s: State, r: Round) {
    r.Ready? ==> FreshFrom(s.(conns := Polled(s.conns, r.revents)), listeners, r, 0)
  }

  /** The event loop leads from `s` to `t`: it runs until a signal ends it after the last
      round, or the process exits. */
  ghost predicate Reaches(cfg: Config, listeners: seq<int>, s: State, rounds: seq<Round>, t: State)
    decreases |rounds|
  {
    if rounds == [] || s.exited then t == s
    else exists m: State :: Turns(cfg, listeners, s, rounds[0], m) && Reaches(cfg, listeners, m, rounds[1..], t)
  }

  ghost predicate FreshRun(cfg: Config, listeners: seq<int>, s: State, rounds: seq<Round>)
    decreases |rounds|
  {
    rounds == [] || s.exited
    || (FreshTurn(listeners, s, rounds[0])
        && forall m: State :: Turns(cfg, listeners, s, rounds[0], m) ==> FreshRun(cfg, listeners, m, rounds[1..]))
  }

  // ------------------------------------------------------------ what always holds

  /** The staged bytes are the answer, in some world, to the head in the input buffer. */
  ghost predicate AnswersIn(cfg: Config, w: World, c: Client) {
    var k := StrNStr(c.inBuf, BLANK_LINE);
    k.Some? && c == Place(c, Stage(cfg, w, c.inBuf[..k.value + 4]))
  }

  ghost predicate AnswersInput(cfg: Config, c: Client) {
    exists w: World :: AnswersIn(cfg, w, c)
  }

  /** A connection between two rounds. CLOSING and SENDING_BODY do not occur, nothing has
      been sent yet, and an overflowed client stays as it is: 414, with nothing staged. */
  ghost predicate SlotOk(cfg: Config, s: Slot) {
    var c := s.client;
    && s.wire == "" && c.outputSent == 0 && BufferOk(c)
    && match c.state
       case Reading => Waiting(c) && StrNStr(c.inBuf, BLANK_LINE).None? && s.pfd.events == {POLLIN}
       case Processing => c.resp == UriTooLong && c.outBuf == "" && s.pfd.events == {POLLIN}
       case SendingHeader => AnswersInput(cfg, c) && s.pfd.events == {POLLOUT}
       case SendingBody => false
       case Closing => false
  }

  /** A connection that was closed: the wire carries nothing, or the whole staged answer. */
  ghost predicate EndedOk(cfg: Config, s: Slot) {
    s.wire == "" || (s.wire == s.client.outBuf && AnswersInput(cfg, s.client))
  }

  /** A connection on which `send` failed: the wire carries a proper prefix of the answer. */
  ghost predicate CutOk(cfg: Config, s: Slot) {
    s.client.state == SendingHeader && s.wire < s.client.outBuf && AnswersInput(cfg, s.client)
  }

  /** At most one connection is cut off. */
  ghost predicate OneCut(conns: map<int, Slot>) {
    forall f, g :: f in conns && g in conns && conns[f].wire != "" && conns[g].wire != "" ==> f == g
  }

  ghost predicate Conserved(s: State) {
    s.accepted == multiset(s.conns.Keys) + s.tally.closed
  }

  /** Descriptors are conserved, open connections are in order, but for one that may be cut off
      within its answer when the process has exited, and closed ones sent nothing or everything. */
  ghost predicate Invariant(cfg: Config, s: State) {
    && Keyed(s.conns) && Conserved(s) && OneCut(s.conns)
    && (forall fd :: fd in s.conns ==> SlotOk(cfg, s.conns[fd]) || (s.exited && CutOk(cfg, s.conns[fd])))
    && (forall e :: e in s.tally.ended ==> EndedOk(cfg, e))
  }

  // ------------------------------------------------------------ one connection

  lemma {:induction false} DrainOutcome(c: Client, ev: seq<RecvResult>)
    requires c.state == Reading && Waiting(c)
    ensures var d := Drain(c, ev);
            && BufferOk(d.client) && d.client.outBuf == "" && d.client.outputSent == 0
            && (d.scan ==> Waiting(d.client) && d.client.state in {Reading, ClientState.Closing})
            && (!d.scan ==>
                  || d.client.state == ClientState.Closing
                  || (d.client.state == Processing && d.client.resp == UriTooLong))
    decreases |ev|
  {
    if ev != [] && (ev[0].RecvInterrupted? || ev[0].Data?) {
      var c' := if ev[0].Data? then Appended(c, ev[0].bytes, ev[0].reallocOk) else c;
      if c'.state == Reading { DrainOutcome(c', ev[1..]); }
    }
  }

  lemma ReadOutcome(cfg: Config, w: World, c: Client, ev: seq<RecvResult>)
    requires c.state == Reading && Waiting(c)
    ensures var r := ReadStep(cfg, w, c, ev);
            && BufferOk(r) && r.outputSent == 0
            && match r.state
               case Reading => Waiting(r) && StrNStr(r.inBuf, BLANK_LINE).None?
               case Processing => r.resp == UriTooLong && r.outBuf == ""
               case SendingHeader => AnswersIn(cfg, w, r)
               case SendingBody => false
               case Closing => r.outBuf == ""
  {
    hide Stage;
    DrainOutcome(c, ev);
  }

  lemma WriteOutcome(cfg: Config, c: Client, sends: seq<int>)
    requires c.state == SendingHeader && c.outputSent == 0 && AnswersInput(cfg, c)
    ensures var r := WriteStep(c, "", sends); var s := Slot(PollFd(c.fd, {}, {}), r.client, r.wire);
            && (r.exited ==> CutOk(cfg, s))
            && (!r.exited ==> r.client.state == ClientState.Closing && EndedOk(cfg, s))
  {
    hide Stage;
    SentInOrder(c, "", sends);
    var r := WriteStep(c, "", sends);
    var w: World :| AnswersIn(cfg, w, c);
    assert AnswersIn(cfg, w, r.client);
    if c.outBuf != "" { assert c.outBuf[0..|c.outBuf|] == c.outBuf; }
  }

  /** One turn keeps a connection in order, ends it properly, or is cut short by `send`. */
  lemma ServeOutcome(cfg: Config, s: Slot, io: Io)
    requires SlotOk(cfg, s)
    ensures var r := Serve(cfg, s, io);
            match r.fate
            case Stays => SlotOk(cfg, r.slot)
            case Closes => EndedOk(cfg, r.slot)
            case Exits => CutOk(cfg, r.slot)
  {
    hide Stage, ReadStep, WriteStep;
    var c := s.client;
    if c.state == Reading {
      ReadOutcome(cfg, io.world, c, io.received);
      c := ReadStep(cfg, io.world, c, io.received);
      if c.state == SendingHeader {
        assert AnswersIn(cfg, io.world, c);
        WriteOutcome(cfg, c, io.sends);
      }
    }
    if s.client.state == SendingHeader { WriteOutcome(cfg, s.client, io.sends); }
  }

  // ------------------------------------------------------------ one round

  lemma KeysAdd(conns: map<int, Slot>, fd: int, s: Slot)
    requires fd !in conns
    ensures multiset(conns[fd := s].Keys) == multiset(conns.Keys) + multiset{fd}
  {
    assert conns[fd := s].Keys == conns.Keys + {fd};
  }

  /** A pass splits the descriptors into those kept and those closed. */
  lemma KeysSplit(cfg: Config, io: int -> Io, conns: map<int, Slot>, done: set<int>)
    ensures multiset(conns.Keys)
         == multiset(Served(cfg, io, conns, done).Keys) + multiset(ClosingFds(cfg, io, Among(conns, done)))
  {
    hide Serve;
    var kept, closing := Served(cfg, io, conns, done).Keys, ClosingFds(cfg, io, Among(conns, done));
    assert conns.Keys == kept + closing;
    assert kept * closing == {};
  }

  lemma NewSlotOk(cfg: Config, fd: int, addr: Option<Address>)
    ensures SlotOk(cfg, NewSlot(fd, addr))
  {
  }

  lemma {:induction false} AdmitKeepsExit(s: State, rs: seq<AcceptResult>)
    ensures Admit(s, rs).exited == s.exited
    decreases |rs|
  {
    if !StopsAccepting(rs) { AdmitKeepsExit(AdmitOne(s, rs[0]), rs[1..]); }
  }

  /** Accepting ends no process. */
  lemma {:induction false} AdmitNeverExits(s: State, listeners: seq<int>, r: Round, k: nat)
    requires r.Ready?
    ensures AdmitFrom(s, listeners, r, k).exited == s.exited
    decreases |listeners| - k
  {
    if k < |listeners| {
      AdmitKeepsExit(s, Arrivals(listeners[k], r));
      AdmitNeverExits(Admit(s, Arrivals(listeners[k], r)), listeners, r, k + 1);
    }
  }

  lemma AdmitOneKeeps(cfg: Config, s: State, a: AcceptResult)
    requires Invariant(cfg, s) && (a.Accepted? ==> a.fd !in s.conns)
    ensures Invariant(cfg, AdmitOne(s, a))
  {
    hide SlotOk, EndedOk, CutOk;
    if a.Accepted? {
      NewSlotOk(cfg, a.fd, a.addr);
      KeysAdd(s.conns, a.fd, NewSlot(a.fd, a.addr));
    }
  }

  lemma {:induction false} AdmitKeeps(cfg: Config, s: State, listeners: seq<int>, rs: seq<AcceptResult>)
    requires Invariant(cfg, s) && Fresh(s, listeners, rs)
    ensures Invariant(cfg, Admit(s, rs))
    decreases |rs|
  {
    hide SlotOk, EndedOk, CutOk;
    if !StopsAccepting(rs) {
      AdmitOneKeeps(cfg, s, rs[0]);
      AdmitKeeps(cfg, AdmitOne(s, rs[0]), listeners, rs[1..]);
    }
  }

  lemma {:induction false} AdmitFromKeeps(cfg: Config, s: State, listeners: seq<int>, r: Round, k: nat)
    requires r.Ready? && Invariant(cfg, s) && FreshFrom(s, listeners, r, k)
    ensures Invariant(cfg, AdmitFrom(s, listeners, r, k))
    decreases |listeners| - k
  {
    hide SlotOk, EndedOk, CutOk;
    if k < |listeners| {
      AdmitKeeps(cfg, s, listeners, Arrivals(listeners[k], r));
      AdmitFromKeeps(cfg, Admit(s, Arrivals(listeners[k], r)), listeners, r, k + 1);
    }
  }

  lemma PollKeeps(cfg: Config, s: State, revents: int -> set<PollFlag>)
    requires Invariant(cfg, s) && !s.exited
    ensures Invariant(cfg, s.(conns := Polled(s.conns, revents)))
  {
    hide EndedOk, CutOk, SlotOk;
    var polled := Polled(s.conns, revents);
    assert polled.Keys == s.conns.Keys;
    forall fd | fd in polled ensures SlotOk(cfg, polled[fd]) {
      PollKeepsSlot(cfg, s.conns[fd], revents);
    }
  }

  lemma PollKeepsSlot(cfg: Config, s: Slot, revents: int -> set<PollFlag>)
    requires SlotOk(cfg, s)
    ensures SlotOk(cfg, Poll(s, revents))
  {
  }

  lemma NothingSent(cfg: Config, s: Slot)
    ensures SlotOk(cfg, s) ==> s.wire == ""
  {
  }

  lemma ServedSlot(cfg: Config, io: int -> Io, s: State, done: set<int>, t: State, fd: int)
    requires Invariant(cfg, s) && !s.exited && ServesUpTo(cfg, io, s, done, t) && fd in t.conns
    ensures t.conns[fd].client.fd == t.conns[fd].pfd.fd == fd
    ensures SlotOk(cfg, t.conns[fd]) || (t.exited && CutOk(cfg, t.conns[fd]))
    ensures t.conns[fd].wire == "" || fd in ExitingFds(cfg, io, Among(s.conns, done))
  {
    hide Serve, SlotOk, EndedOk, CutOk, TallyAll, Plus, Conserved, OneCut, AtMostOne;
    NothingSent(cfg, s.conns[fd]);
    if Serve(cfg, s.conns[fd], io(fd)).fate == Stays { NothingSent(cfg, Serve(cfg, s.conns[fd], io(fd)).slot); }
    ServeOutcome(cfg, s.conns[fd], io(fd));
    ServeKeepsFd(cfg, s.conns[fd], io(fd));
    if fd in done && Serve(cfg, s.conns[fd], io(fd)).fate == Exits {
      assert fd in ExitingFds(cfg, io, Among(s.conns, done));
    }
  }

  /** A connection that ends in a pass ended before, or is one of those served. */
  lemma WhoEnds(cfg: Config, io: int -> Io, s: State, done: set<int>, t: State, e: Slot) returns (fd: int)
    requires ServesUpTo(cfg, io, s, done, t) && e in t.tally.ended && e !in s.tally.ended
    ensures fd in s.conns && fd in done
    ensures Serve(cfg, s.conns[fd], io(fd)).fate == Closes && e == Serve(cfg, s.conns[fd], io(fd)).slot
  {
    hide Serve, Served;
    var served := Among(s.conns, done);
    assert e in Ended(cfg, io, served);
    fd :| fd in served && Serve(cfg, served[fd], io(fd)).fate == Closes && Serve(cfg, served[fd], io(fd)).slot == e;
  }

  /** Serving connections, all or some, keeps the invariant. */
  lemma ServingKeeps(cfg: Config, io: int -> Io, s: State, done: set<int>, t: State)
    requires Invariant(cfg, s) && !s.exited && ServesUpTo(cfg, io, s, done, t)
    ensures Invariant(cfg, t)
  {
    hide Serve, SlotOk, EndedOk, CutOk, Served, SomeoneExits, ClosingFds, Ended, Logged, ExitingFds;
    KeysSplit(cfg, io, s.conns, done);
    forall fd | fd in t.conns
      ensures t.conns[fd].client.fd == t.conns[fd].pfd.fd == fd
      ensures SlotOk(cfg, t.conns[fd]) || (t.exited && CutOk(cfg, t.conns[fd]))
      ensures t.conns[fd].wire == "" || fd in ExitingFds(cfg, io, Among(s.conns, done))
    {
      ServedSlot(cfg, io, s, done, t, fd);
    }
    forall e | e in t.tally.ended ensures EndedOk(cfg, e) {
      if e !in s.tally.ended {
        var fd := WhoEnds(cfg, io, s, done, t, e);
        ServeOutcome(cfg, s.conns[fd], io(fd));
      }
    }
  }

  // ------------------------------------------------------------ all runs

  /** One turn keeps the invariant, whether it is completed or the process exits in it. */
  lemma TurnKeeps(cfg: Config, listeners: seq<int>, s: State, r: Round, t: State)
    requires Invariant(cfg, s) && !s.exited && FreshTurn(listeners, s, r) && Turns(cfg, listeners, s, r, t)
    ensures Invariant(cfg, t)
  {
    hide SlotOk, EndedOk, CutOk, ServesUpTo;
    if r.Ready? {
      var done: set<int> :| ServesUpTo(cfg, r.io, Admitted(listeners, s, r), done, t);
      PollKeeps(cfg, s, r.revents);
      AdmitFromKeeps(cfg, s.(conns := Polled(s.conns, r.revents)), listeners, r, 0);
      AdmitNeverExits(s.(conns := Polled(s.conns, r.revents)), listeners, r, 0);
      ServingKeeps(cfg, r.io, Admitted(listeners, s, r), done, t);
    }
  }

  /** An interrupted `poll` makes no difference to a run, and a failed one ends it as it is. */
  lemma PollEnds(cfg: Config, listeners: seq<int>, s: State, rounds: seq<Round>, t: State)
    requires rounds != [] && !s.exited && !rounds[0].Ready? && Reaches(cfg, listeners, s, rounds, t)
    ensures if rounds[0].PollFailed? then t == s.(exited := true) else Reaches(cfg, listeners, s, rounds[1..], t)
  {
    var m: State :| Turns(cfg, listeners, s, rounds[0], m) && Reaches(cfg, listeners, m, rounds[1..], t);
  }

  /** A turn and the run after it are a run. */
  lemma TurnFirst(cfg: Config, listeners: seq<int>, s: State, rounds: seq<Round>, m: State, t: State)
    requires rounds != [] && !s.exited && Turns(cfg, listeners, s, rounds[0], m)
    requires Reaches(cfg, listeners, m, rounds[1..], t)
    ensures Reaches(cfg, listeners, s, rounds, t)
  {
  }

  lemma {:induction false} RunKeeps(cfg: Config, listeners: seq<int>, s: State, rounds: seq<Round>, t: State)
    requires Invariant(cfg, s) && FreshRun(cfg, listeners, s, rounds) && Reaches(cfg, listeners, s, rounds, t)
    ensures Invariant(cfg, t)
    decreases |rounds|
  {
    hide Invariant, Turns, FreshTurn;
    if rounds != [] && !s.exited {
      var m: State :| Turns(cfg, listeners, s, rounds[0], m) && Reaches(cfg, listeners, m, rounds[1..], t);
      TurnKeeps(cfg, listeners, s, rounds[0], m);
      RunKeeps(cfg, listeners, m, rounds[1..], t);
    }
  }

  /** Every state that the server reaches, also the one in which it exits: descriptors are
      conserved (each accepted one is in the table or has been closed, as often as it was
      handed out), every open connection is in order with nothing sent, and every closed one
      has sent nothing or its whole answer. Only when the process has exited can a
      connection be cut off within its answer. */
  lemma EveryReachableState(cfg: Config, listeners: seq<int>, rounds: seq<Round>, t: State)
    requires FreshRun(cfg, listeners, START, rounds) && Reaches(cfg, listeners, START, rounds, t)
    ensures Invariant(cfg, t)
  {
    assert multiset(START.conns.Keys) == multiset{};
    RunKeeps(cfg, listeners, START, rounds, t);
  }

  // ------------------------------------------------------------ what is determined

  /** A pass is cut short exactly when `send` fails on some connection, whatever their order. */
  lemma ExitsExactly(cfg: Config, io: int -> Io, s: State, done: set<int>, t: State)
    requires ServesUpTo(cfg, io, s, done, t)
    ensures t.exited <==> SomeoneExits(cfg, io, s.conns)
  {
    hide Serve, TallyAll;
    if fd :| fd in ExitingFds(cfg, io, s.conns) {
      if !t.exited { assert fd in ExitingFds(cfg, io, Among(s.conns, done)); }
    }
    if fd :| fd in ExitingFds(cfg, io, Among(s.conns, done)) {
      assert fd in ExitingFds(cfg, io, s.conns);
    }
  }

  lemma TurnDetermined(cfg: Config, listeners: seq<int>, s: State, r: Round, t: State, t': State)
    requires !s.exited && Turns(cfg, listeners, s, r, t) && Turns(cfg, listeners, s, r, t')
    ensures t.exited == t'.exited && (!t.exited ==> t == t')
  {
    hide Served, TallyAll, Plus, Among, SomeoneExits, Admitted;
    if r.Ready? {
      var a := Admitted(listeners, s, r);
      var done: set<int> :| ServesUpTo(cfg, r.io, a, done, t);
      var done': set<int> :| ServesUpTo(cfg, r.io, a, done', t');
      ExitsExactly(cfg, r.io, a, done, t);
      ExitsExactly(cfg, r.io, a, done', t');
    }
  }

  /** The rounds determine whether the process exits, and if not, in which state the loop
      ends. When it exits, what has been served by then depends on the order of the slots. */
  lemma {:induction false} RunDetermined(cfg: Config, listeners: seq<int>, s: State, rounds: seq<Round>,
                                         t: State, t': State)
    requires Reaches(cfg, listeners, s, rounds, t) && Reaches(cfg, listeners, s, rounds, t')
    ensures t.exited == t'.exited && (!t.exited ==> t == t')
    decreases |rounds|
  {
    hide Turns;
    if rounds != [] && !s.exited {
      var m: State :| Turns(cfg, listeners, s, rounds[0], m) && Reaches(cfg, listeners, m, rounds[1..], t);
      var m': State :| Turns(cfg, listeners, s, rounds[0], m') && Reaches(cfg, listeners, m', rounds[1..], t');
      TurnDetermined(cfg, listeners, s, rounds[0], m, m');
      if m.exited {
        assert t == m && t' == m';
      } else {
        RunDetermined(cfg, listeners, m, rounds[1..], t, t');
      }
    }
  }
}
