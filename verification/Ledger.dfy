/** Counting over whole runs: no descriptor ends more connections than it was accepted for,
    and each answered connection has one line in the log. */
module Ledger {
  import opened Wrappers
  import opened CString
  import opened Http
  import opened RequestParser
  import opened World
  import opened PathResolver
  import opened Connection
  import opened Responses
  import opened Framing
  import opened Reading
  import opened Writing
  import opened PollSweep
  import opened Machine
  import opened Runs

  // ------------------------------------------------------------ counting in multisets

  function Bit(b: bool): nat { if b then 1 else 0 }

  ghost function Pick<T>(m: multiset<T>): (x: T)
    requires m != multiset{}
    ensures x in m
  {
    var x :| x in m;
    x
  }

  /** How many elements satisfy `p`. */
  ghost function Count<T>(m: multiset<T>, p: T -> bool): nat
    decreases |m|
  {
    if m == multiset{} then 0 else Bit(p(Pick(m))) + Count(m - multiset{Pick(m)}, p)
  }

  lemma {:induction false} CountWithout<T>(m: multiset<T>, x: T, p: T -> bool)
    requires x in m
    ensures Count(m, p) == Bit(p(x)) + Count(m - multiset{x}, p)
    decreases |m|
  {
    var y := Pick(m);
    if y != x {
      CountWithout(m - multiset{y}, x, p);
      CountWithout(m - multiset{x}, y, p);
      assert m - multiset{y} - multiset{x} == m - multiset{x} - multiset{y};
    }
  }

  lemma CountWith<T>(m: multiset<T>, x: T, p: T -> bool)
    ensures Count(m + multiset{x}, p) == Count(m, p) + Bit(p(x))
  {
    CountWithout(m + multiset{x}, x, p);
    assert m + multiset{x} - multiset{x} == m;
  }

  lemma {:induction false} CountPlus<T>(a: multiset<T>, b: multiset<T>, p: T -> bool)
    ensures Count(a + b, p) == Count(a, p) + Count(b, p)
    decreases |b|
  {
    if b == multiset{} {
      assert a + b == a;
    } else {
      var x := Pick(b);
      var rest := b - multiset{x};
      CountPlus(a, rest, p);
      CountWith(a + rest, x, p);
      assert a + rest + multiset{x} == a + b;
    }
  }

  // ------------------------------------------------------------ one pass

  function OnFd(fd: int): Slot -> bool { (e: Slot) => e.client.fd == fd }

  function AnsweredOn(fd: int): Slot -> bool { (e: Slot) => e.client.fd == fd && Replied(e.client) }

  function LineOn(fd: int): ((int, string)) -> bool { (l: (int, string)) => l.0 == fd }

  /** What one pass over `conns` adds for a descriptor. */
  ghost predicate Adds(cfg: Config, io: int -> Io, conns: map<int, Slot>, fd: int, t: Tally) {
    var closes := fd in conns && Serve(cfg, conns[fd], io(fd)).fate == Closes;
    && t.closed[fd] == Bit(closes) && Count(t.ended, OnFd(fd)) == Bit(closes)
    && Count(t.ended, AnsweredOn(fd)) == Bit(closes && Replied(Serve(cfg, conns[fd], io(fd)).slot.client))
    && Count(t.logged, LineOn(fd)) == Bit(fd in conns && Serve(cfg, conns[fd], io(fd)).logged.Some?)
  }

  lemma {:induction false} PassAdds(cfg: Config, io: int -> Io, conns: map<int, Slot>, fd: int)
    requires Keyed(conns)
    ensures Adds(cfg, io, conns, fd, TallyAll(cfg, io, conns))
    decreases |conns|
  {
    hide Serve, TallyAll, OnFd, AnsweredOn, LineOn;
    if |conns| == 0 {
      assert conns == map[];
      NothingToServe(cfg, io, map[], START.tally);
      assert Plus(START.tally, TallyAll(cfg, io, map[])) == START.tally;
    } else {
      var g := SomeKey(conns);
      var rest := conns - {g};
      assert conns == rest[g := conns[g]];
      PassAdds(cfg, io, rest, fd);
      TallyOneMore(cfg, io, rest, g, conns[g]);
      OneAdds(TallyAll(cfg, io, rest), Serve(cfg, conns[g], io(g)), fd);
      ServeKeepsFd(cfg, conns[g], io(g));
    }
  }

  lemma SomeKey<K, V>(m: map<K, V>) returns (k: K)
    requires |m| != 0
    ensures k in m
  {
    k :| k in m;
  }

  lemma OneAdds(t: Tally, s: Service, fd: int)
    ensures var u := Plus(t, TallyOne(s)); var here := s.slot.client.fd == fd;
            && u.closed[fd] == t.closed[fd] + Bit(here && s.fate == Closes)
            && Count(u.ended, OnFd(fd)) == Count(t.ended, OnFd(fd)) + Bit(here && s.fate == Closes)
            && Count(u.ended, AnsweredOn(fd))
               == Count(t.ended, AnsweredOn(fd)) + Bit(here && s.fate == Closes && Replied(s.slot.client))
            && Count(u.logged, LineOn(fd)) == Count(t.logged, LineOn(fd)) + Bit(here && s.logged.Some?)
  {
    if s.fate == Closes {
      CountWith(t.ended, s.slot, OnFd(fd));
      CountWith(t.ended, s.slot, AnsweredOn(fd));
    } else {
      assert t.ended + multiset{} == t.ended;
    }
    if s.logged.Some? {
      CountWith(t.logged, (s.slot.client.fd, s.logged.value), LineOn(fd));
    } else {
      assert t.logged + multiset{} == t.logged;
    }
  }

  // ------------------------------------------------------------ answers and lines

  /** A staged response always has a status. */
  lemma StatusIsSet(cfg: Config, w: World, head: string)
    requires StrNStr(head, BLANK_LINE).Some?
    ensures Stage(cfg, w, head).resp != Unset
  {
    hide Words, FirstLine, OkayPage, LocalPath, ErrorPage;
    var p := Parse(cfg, head, w.now, ZERO_REQUEST, Unset);
    if p.ok && Resolve(cfg, w, p.req.path).Found? {
      OkayFailure(cfg, w, Resolve(cfg, w, p.req.path).rp, p.req);
    }
  }

  lemma PlacedIsReplied(cfg: Config, w: World, c: Client)
    requires AnswersIn(cfg, w, c) && c.state != Processing
    ensures Replied(c)
  {
    hide Stage;
    var k := StrNStr(c.inBuf, BLANK_LINE).value;
    SearchOfPrefix(c.inBuf[..k + 4], c.inBuf, BLANK_LINE);
    StatusIsSet(cfg, w, c.inBuf[..k + 4]);
  }

  lemma ReadReplies(cfg: Config, w: World, c: Client, ev: seq<RecvResult>)
    requires c.state == Reading && Waiting(c)
    ensures var r := ReadStep(cfg, w, c, ev);
            Replied(r) <==> r.state == SendingHeader
  {
    hide ReadStep;
    ReadOutcome(cfg, w, c, ev);
    ClosedUnanswered(cfg, w, c, ev);
    var r := ReadStep(cfg, w, c, ev);
    if r.state == SendingHeader { PlacedIsReplied(cfg, w, r); }
  }

  lemma WriteKeepsReply(c: Client, wire: string, sends: seq<int>)
    requires c.state == SendingHeader && c.outputSent == 0
    ensures Replied(WriteStep(c, wire, sends).client) <==> Replied(c)
  {
    SentInOrder(c, wire, sends);
  }

  lemma WaitingNotReplied(c: Client)
    ensures Waiting(c) || c.state == Processing ==> !Replied(c)
  {
  }

  /** A connection is logged when it is answered, and only then. */
  lemma LoggedOnce(cfg: Config, s: Slot, io: Io)
    requires SlotOk(cfg, s)
    ensures var v := Serve(cfg, s, io);
            if cfg.logging then Bit(Replied(v.slot.client)) == Bit(Replied(s.client)) + Bit(v.logged.Some?)
            else v.logged.None?
  {
    hide ReadStep, WriteStep, ReadLog, AnswersInput, LineFor, Replied, BufferOk, StrNStr;
    var c := s.client;
    WaitingNotReplied(c);
    if c.state == Reading {
      ReadReplies(cfg, io.world, c, io.received);
      ReadLogs(cfg, io.world, c, io.received, c.fd);
      ReadOutcome(cfg, io.world, c, io.received);
      c := ReadStep(cfg, io.world, c, io.received);
    }
    if c.state == SendingHeader { WriteKeepsReply(c, s.wire, io.sends); }
    if s.client.state == SendingHeader { WriteKeepsReply(s.client, s.wire, io.sends); }
  }

  // ------------------------------------------------------------ the books

  /** For one descriptor: connections that ended, and the one that is open, are no more than
      were accepted; with logging on there is one line for each one answered, and otherwise
      none. */
  ghost predicate Books(cfg: Config, s: State, fd: int) {
    && Count(s.tally.ended, OnFd(fd)) <= s.tally.closed[fd]
    && Count(s.tally.logged, LineOn(fd))
       == if cfg.logging then Count(s.tally.ended, AnsweredOn(fd)) + Bit(fd in s.conns && Replied(s.conns[fd].client))
          else 0
  }

  lemma AdmitOneBooks(cfg: Config, s: State, a: AcceptResult, fd: int)
    requires Books(cfg, s, fd) && (a.Accepted? ==> a.fd !in s.conns)
    ensures Books(cfg, AdmitOne(s, a), fd)
  {
    hide Count, OnFd, AnsweredOn, LineOn, Bit, Replied, NewSlot;
    if a.Accepted? { NewNotReplied(a.fd, a.addr); }
  }

  lemma NewNotReplied(fd: int, addr: Option<Address>)
    ensures !Replied(NewSlot(fd, addr).client) && Bit(false) == 0
  {
  }

  lemma {:induction false} AdmitBooks(cfg: Config, s: State, listeners: seq<int>, rs: seq<AcceptResult>, fd: int)
    requires Books(cfg, s, fd) && Fresh(s, listeners, rs)
    ensures Books(cfg, Admit(s, rs), fd)
    decreases |rs|
  {
    hide Books;
    if !StopsAccepting(rs) {
      AdmitOneBooks(cfg, s, rs[0], fd);
      AdmitBooks(cfg, AdmitOne(s, rs[0]), listeners, rs[1..], fd);
    }
  }

  lemma {:induction false} AdmitFromBooks(cfg: Config, s: State, listeners: seq<int>, r: Round, k: nat, fd: int)
    requires r.Ready? && Books(cfg, s, fd) && FreshFrom(s, listeners, r, k)
    ensures Books(cfg, AdmitFrom(s, listeners, r, k), fd)
    decreases |listeners| - k
  {
    hide Books;
    if k < |listeners| {
      AdmitBooks(cfg, s, listeners, Arrivals(listeners[k], r), fd);
      AdmitFromBooks(cfg, Admit(s, Arrivals(listeners[k], r)), listeners, r, k + 1, fd);
    }
  }

  /** What serving the connections in `done` adds for a descriptor. */
  lemma ServingAdds(cfg: Config, io: int -> Io, s: State, done: set<int>, t: State, fd: int)
    requires Keyed(s.conns) && ServesUpTo(cfg, io, s, done, t)
    ensures var here := fd in s.conns && fd in done;
            var closes := here && Serve(cfg, s.conns[fd], io(fd)).fate == Closes;
            && t.tally.closed[fd] == s.tally.closed[fd] + Bit(closes)
            && Count(t.tally.ended, OnFd(fd)) == Count(s.tally.ended, OnFd(fd)) + Bit(closes)
            && Count(t.tally.ended, AnsweredOn(fd)) == Count(s.tally.ended, AnsweredOn(fd))
               + Bit(closes && Replied(Serve(cfg, s.conns[fd], io(fd)).slot.client))
            && Count(t.tally.logged, LineOn(fd)) == Count(s.tally.logged, LineOn(fd))
               + Bit(here && Serve(cfg, s.conns[fd], io(fd)).logged.Some?)
  {
    hide Serve, Served, TallyAll, Replied, SomeoneExits, ExitingFds, AtMostOne, OnFd, AnsweredOn, LineOn, Count, Bit;
    var served := Among(s.conns, done);
    var u := TallyAll(cfg, io, served);
    PassAdds(cfg, io, served, fd);
    CountPlus(s.tally.ended, u.ended, OnFd(fd));
    CountPlus(s.tally.ended, u.ended, AnsweredOn(fd));
    CountPlus(s.tally.logged, u.logged, LineOn(fd));
  }

  lemma ServingBooks(cfg: Config, io: int -> Io, s: State, done: set<int>, t: State, fd: int)
    requires Invariant(cfg, s) && !s.exited && Books(cfg, s, fd) && ServesUpTo(cfg, io, s, done, t)
    ensures Books(cfg, t, fd)
  {
    hide Serve, SlotOk, EndedOk, CutOk, Conserved, OneCut, TallyAll, Replied, SomeoneExits, ExitingFds, AtMostOne,
         OnFd, AnsweredOn, LineOn, Count, Plus;
    ServingAdds(cfg, io, s, done, t, fd);
    if fd in s.conns && fd in done {
      LoggedOnce(cfg, s.conns[fd], io(fd));
    }
  }

  /** A descriptor with an error, a hang-up or an invalid number is closed in the turn that
      reports it, unless the process exits: it is gone from the table, one record more has its
      client and wire as they were, and nothing was logged for it. */
  lemma FailedLeaves(cfg: Config, listeners: seq<int>, s: State, r: Round, t: State, fd: int)
    requires Invariant(cfg, s) && !s.exited && FreshTurn(listeners, s, r) && Turns(cfg, listeners, s, r, t) && !t.exited
    requires r.Ready? && fd in s.conns
    requires POLLERR in r.revents(fd) || POLLHUP in r.revents(fd) || POLLNVAL in r.revents(fd)
    ensures fd !in t.conns
    ensures var e := Slot(s.conns[fd].pfd.(revents := r.revents(fd)), s.conns[fd].client, s.conns[fd].wire);
            t.tally.ended[e] > s.tally.ended[e]
    ensures Count(t.tally.ended, OnFd(fd)) == Count(s.tally.ended, OnFd(fd)) + 1
    ensures Count(t.tally.logged, LineOn(fd)) == Count(s.tally.logged, LineOn(fd))
  {
    hide Serve, SlotOk, EndedOk, CutOk, Conserved, OneCut, ServesUpTo, IsNew, AcceptedIn, OnFd, LineOn, AnsweredOn,
         Count, AdmitFrom, FreshFrom;
    var polled, a := s.(conns := Polled(s.conns, r.revents)), Admitted(listeners, s, r);
    FailedIsClosed(cfg, Poll(s.conns[fd], r.revents), r.io(fd));
    TurnByDescriptor(cfg, listeners, s, r, t, fd);
    var done: set<int> :| ServesUpTo(cfg, r.io, a, done, t);
    PollKeeps(cfg, s, r.revents);
    AdmitFromKeeps(cfg, polled, listeners, r, 0);
    AdmitFromExtends(polled, listeners, r, 0);
    ServingAdds(cfg, r.io, a, done, t, fd);
    AllServed(cfg, r.io, a, done, t);
  }

  lemma AllServed(cfg: Config, io: int -> Io, s: State, done: set<int>, t: State)
    requires ServesUpTo(cfg, io, s, done, t) && !t.exited
    ensures done == s.conns.Keys
  {
  }

  lemma TurnBooks(cfg: Config, listeners: seq<int>, s: State, r: Round, t: State, fd: int)
    requires Invariant(cfg, s) && !s.exited && Books(cfg, s, fd)
    requires FreshTurn(listeners, s, r) && Turns(cfg, listeners, s, r, t)
    ensures Books(cfg, t, fd)
  {
    hide Invariant, ServesUpTo, Count;
    if r.Ready? {
      var polled := s.(conns := Polled(s.conns, r.revents));
      var done: set<int> :| ServesUpTo(cfg, r.io, Admitted(listeners, s, r), done, t);
      PollKeeps(cfg, s, r.revents);
      AdmitFromKeeps(cfg, polled, listeners, r, 0);
      AdmitNeverExits(polled, listeners, r, 0);
      AdmitFromBooks(cfg, polled, listeners, r, 0, fd);
      ServingBooks(cfg, r.io, Admitted(listeners, s, r), done, t, fd);
    }
  }

  lemma {:induction false} RunBooks(cfg: Config, listeners: seq<int>, s: State, rounds: seq<Round>, t: State, fd: int)
    requires Invariant(cfg, s) && Books(cfg, s, fd)
    requires FreshRun(cfg, listeners, s, rounds) && Reaches(cfg, listeners, s, rounds, t)
    ensures Books(cfg, t, fd)
    decreases |rounds|
  {
    hide Invariant, Turns, FreshTurn, Books;
    if rounds != [] && !s.exited {
      var m: State :| Turns(cfg, listeners, s, rounds[0], m) && Reaches(cfg, listeners, m, rounds[1..], t);
      TurnKeeps(cfg, listeners, s, rounds[0], m);
      TurnBooks(cfg, listeners, s, rounds[0], m, fd);
      RunBooks(cfg, listeners, m, rounds[1..], t, fd);
    }
  }

  /** In every reachable state, for every descriptor: the connections on it that ended and the
      one that is open are no more than it was handed out for, so that none has two records;
      and with logging on, the log has exactly one line for each connection on it that was
      answered. */
  lemma BooksBalance(cfg: Config, listeners: seq<int>, rounds: seq<Round>, t: State, fd: int)
    requires FreshRun(cfg, listeners, START, rounds) && Reaches(cfg, listeners, START, rounds, t)
    ensures Count(t.tally.ended, OnFd(fd)) + Bit(fd in t.conns) <= t.accepted[fd]
    ensures Count(t.tally.logged, LineOn(fd))
         == if cfg.logging then Count(t.tally.ended, AnsweredOn(fd)) + Bit(fd in t.conns && Replied(t.conns[fd].client))
            else 0
  {
    hide Reaches, FreshRun, OnFd, AnsweredOn, LineOn, SlotOk, CutOk, EndedOk;
    EveryReachableState(cfg, listeners, rounds, t);
    assert multiset(START.conns.Keys) == multiset{};
    RunBooks(cfg, listeners, START, rounds, t, fd);
  }
}
