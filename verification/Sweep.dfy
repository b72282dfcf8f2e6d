/** One pass over the connections, first slot by slot as the arrays are walked, then
    descriptor by descriptor; and that the two agree. */
module PollSweep {
  import opened Wrappers
  import opened Http
  import opened World
  import opened Connection
  import opened Reading
  import opened Writing

  /** A connection: its slot of `pfds`, its slot of `clients`, and the bytes the kernel has
      taken from it so far. */
  datatype Slot = Slot(pfd: PollFd, client: Client, wire: string)

  /** What the environment has in store for one descriptor during one pass. */
  datatype Io = Io(world: World, received: seq<RecvResult>, sends: seq<int>)

  datatype Fate = Stays | Closes | Exits

  datatype Service = Service(slot: Slot, fate: Fate, logged: Option<string>)

  predicate Faulty(revents: set<PollFlag>) {
    POLLERR in revents || POLLHUP in revents || POLLNVAL in revents
  }

  /** What the loop body does to the connection it looks at. */
  function Serve(cfg: Config, s: Slot, io: Io): Service {
    var revents := s.pfd.revents;
    if revents == {} then Service(s, Stays, None)
    else if Faulty(revents) then Service(s, Closes, None)
    else
      var read := POLLIN in revents && s.client.state == Reading;
      var c := if read then ReadStep(cfg, io.world, s.client, io.received) else s.client;
      var p := if read && c.state == SendingHeader then s.pfd.(events := {POLLOUT}) else s.pfd;
      var logged := if read then ReadLog(cfg, io.world, s.client, io.received) else None;
      if POLLOUT in revents && (c.state == SendingHeader || c.state == SendingBody) then
        var r := WriteStep(c, s.wire, io.sends);
        var fate := if r.exited then Exits else if r.client.state == Closing then Closes else Stays;
        Service(Slot(p, r.client, r.wire), fate, logged)
      else Service(Slot(p, c, s.wire), if c.state == Closing then Closes else Stays, logged)
  }

  // ------------------------------------------------------------ slot by slot

  /** `close_conn`: the last slot takes the place of the removed one. */
  function SwapRemove(slots: seq<Slot>, i: nat): seq<Slot>
    requires i < |slots|
  {
    slots[i := slots[|slots| - 1]][..|slots| - 1]
  }

  /** What has left the table or been written to the log: the descriptors closed, the
      connections as they were when closed, and the log lines by descriptor. */
  datatype Tally = Tally(closed: multiset<int>, ended: multiset<Slot>, logged: multiset<(int, string)>)

  function Plus(t: Tally, u: Tally): Tally {
    Tally(t.closed + u.closed, t.ended + u.ended, t.logged + u.logged)
  }

  function TallyOne(s: Service): Tally {
    var fd := s.slot.client.fd;
    Tally(if s.fate == Closes then multiset{fd} else multiset{},
          if s.fate == Closes then multiset{s.slot} else multiset{},
          if s.logged.Some? then multiset{(fd, s.logged.value)} else multiset{})
  }

  datatype Swept = Swept(slots: seq<Slot>, tally: Tally, exited: bool)

  /** The rest of a pass that has reached slot `i`. Closing a connection leaves `i` where it
      is, because another connection has moved there. */
  function SweepFrom(cfg: Config, io: int -> Io, slots: seq<Slot>, i: nat, t: Tally): Swept
    decreases |slots| - i
  {
    if i >= |slots| then Swept(slots, t, false)
    else
      var s := Serve(cfg, slots[i], io(slots[i].client.fd));
      match s.fate
      case Exits => Swept(slots[i := s.slot], Plus(t, TallyOne(s)), true)
      case Closes => SweepFrom(cfg, io, SwapRemove(slots, i), i, Plus(t, TallyOne(s)))
      case Stays => SweepFrom(cfg, io, slots[i := s.slot], i + 1, Plus(t, TallyOne(s)))
  }

  // ------------------------------------------------------------ descriptor by descriptor

  /** The two arrays agree on the descriptors, and no descriptor occurs twice. */
  ghost predicate Synced(slots: seq<Slot>) {
    && (forall j :: 0 <= j < |slots| ==> slots[j].pfd.fd == slots[j].client.fd)
    && (forall j, k :: 0 <= j < k < |slots| ==> slots[j].client.fd != slots[k].client.fd)
  }

  /** The connections by descriptor. */
  ghost function ByFd(slots: seq<Slot>): map<int, Slot> {
    if slots == [] then map[] else ByFd(slots[1..])[slots[0].client.fd := slots[0]]
  }

  ghost predicate Keyed(conns: map<int, Slot>) {
    forall fd :: fd in conns ==> conns[fd].client.fd == fd && conns[fd].pfd.fd == fd
  }

  /** The connections once those in `done` have been served: the ones that close are gone, the
      others are as serving leaves them, also one on which `send` has failed. */
  ghost function Served(cfg: Config, io: int -> Io, conns: map<int, Slot>, done: set<int>): map<int, Slot> {
    map fd | fd in conns && !(fd in done && Serve(cfg, conns[fd], io(fd)).fate == Closes)
      :: if fd in done then Serve(cfg, conns[fd], io(fd)).slot else conns[fd]
  }

  ghost function Among(conns: map<int, Slot>, done: set<int>): map<int, Slot> {
    map fd | fd in conns && fd in done :: conns[fd]
  }

  ghost function ClosingFds(cfg: Config, io: int -> Io, conns: map<int, Slot>): set<int> {
    set fd | fd in conns && Serve(cfg, conns[fd], io(fd)).fate == Closes
  }

  ghost function Ended(cfg: Config, io: int -> Io, conns: map<int, Slot>): set<Slot> {
    set fd | fd in conns && Serve(cfg, conns[fd], io(fd)).fate == Closes :: Serve(cfg, conns[fd], io(fd)).slot
  }

  ghost function Logged(cfg: Config, io: int -> Io, conns: map<int, Slot>): set<(int, string)> {
    set fd | fd in conns && Serve(cfg, conns[fd], io(fd)).logged.Some?
      :: (fd, Serve(cfg, conns[fd], io(fd)).logged.value)
  }

  ghost function TallyAll(cfg: Config, io: int -> Io, conns: map<int, Slot>): Tally {
    Tally(multiset(ClosingFds(cfg, io, conns)), multiset(Ended(cfg, io, conns)), multiset(Logged(cfg, io, conns)))
  }

  ghost function ExitingFds(cfg: Config, io: int -> Io, conns: map<int, Slot>): set<int> {
    set fd | fd in conns && Serve(cfg, conns[fd], io(fd)).fate == Exits
  }

  ghost predicate AtMostOne(fds: set<int>) {
    forall f, g :: f in fds && g in fds ==> f == g
  }

  /** Some `send` of the pass fails, and ends the process. */
  ghost predicate SomeoneExits(cfg: Config, io: int -> Io, conns: map<int, Slot>) {
    ExitingFds(cfg, io, conns) != {}
  }

  // ------------------------------------------------------------ agreement

  lemma ServeKeepsFd(cfg: Config, s: Slot, io: Io)
    ensures Serve(cfg, s, io).slot.client.fd == s.client.fd && Serve(cfg, s, io).slot.pfd.fd == s.pfd.fd
  {
    hide Scan;
    ReadKeepsFd(cfg, io.world, s.client, io.received);
    var c := ReadStep(cfg, io.world, s.client, io.received);
    SendKeepsFd(c, s.wire, io.sends);
    SendKeepsFd(s.client, s.wire, io.sends);
  }

  lemma ReadKeepsFd(cfg: Config, w: World, c: Client, ev: seq<RecvResult>)
    ensures ReadStep(cfg, w, c, ev).fd == c.fd
  {
    DrainKeeps(c, ev);
  }

  lemma {:induction false} SendKeepsFd(c: Client, wire: string, sends: seq<int>)
    ensures Send(c, wire, sends).client.fd == c.fd
    decreases |sends|
  {
    if c.outputSent < |c.outBuf| && sends != [] && sends[0] > 0 {
      var rest := |c.outBuf| - c.outputSent;
      var n := if sends[0] < rest then sends[0] else rest;
      SendKeepsFd(c.(outputSent := c.outputSent + n), wire + c.outBuf[c.outputSent..c.outputSent + n], sends[1..]);
    }
  }

  lemma ServedOneMore(cfg: Config, io: int -> Io, conns: map<int, Slot>, done: set<int>, fd: int, s: Slot)
    requires fd !in conns && done <= conns.Keys
    ensures var r := Serve(cfg, s, io(fd));
            var others := Served(cfg, io, conns, done);
            Served(cfg, io, conns[fd := s], done + {fd}) == if r.fate == Closes then others else others[fd := r.slot]
  {
    hide Serve;
    var all := conns[fd := s];
    assert forall g :: g in conns ==> all[g] == conns[g];
  }

  lemma AmongOneMore(conns: map<int, Slot>, done: set<int>, fd: int, s: Slot)
    requires fd !in conns && done <= conns.Keys
    ensures Among(conns[fd := s], done + {fd}) == Among(conns, done)[fd := s]
    ensures Keyed(conns) ==> Keyed(Among(conns, done))
  {
  }

  lemma ClosingOneMore(cfg: Config, io: int -> Io, conns: map<int, Slot>, fd: int, s: Slot)
    requires fd !in conns
    ensures var added := if Serve(cfg, s, io(fd)).fate == Closes then multiset{fd} else multiset{};
            multiset(ClosingFds(cfg, io, conns[fd := s])) == multiset(ClosingFds(cfg, io, conns)) + added
  {
    hide Serve;
    var all := conns[fd := s];
    var closing := ClosingFds(cfg, io, conns);
    assert fd !in closing;
    assert ClosingFds(cfg, io, all) == if Serve(cfg, s, io(fd)).fate == Closes then closing + {fd} else closing;
  }

  lemma EndedOneMore(cfg: Config, io: int -> Io, conns: map<int, Slot>, fd: int, s: Slot)
    requires fd !in conns && s.client.fd == fd && Keyed(conns)
    ensures var r := Serve(cfg, s, io(fd));
            var added := if r.fate == Closes then multiset{r.slot} else multiset{};
            multiset(Ended(cfg, io, conns[fd := s])) == multiset(Ended(cfg, io, conns)) + added
  {
    hide Serve;
    var r, all := Serve(cfg, s, io(fd)), conns[fd := s];
    assert forall g :: g in conns ==> all[g] == conns[g];
    ServeKeepsFd(cfg, s, io(fd));
    forall g | g in conns ensures Serve(cfg, conns[g], io(g)).slot.client.fd == g {
      ServeKeepsFd(cfg, conns[g], io(g));
    }
    var ended := Ended(cfg, io, conns);
    assert r.slot !in ended;
    if r.fate == Closes {
      assert all[fd] == s;
      assert Ended(cfg, io, all) == ended + {r.slot};
    } else {
      assert Ended(cfg, io, all) == ended;
    }
  }

  lemma LoggedOneMore(cfg: Config, io: int -> Io, conns: map<int, Slot>, fd: int, s: Slot)
    requires fd !in conns
    ensures var text := Serve(cfg, s, io(fd)).logged;
            var added := if text.Some? then multiset{(fd, text.value)} else multiset{};
            multiset(Logged(cfg, io, conns[fd := s])) == multiset(Logged(cfg, io, conns)) + added
  {
    hide Serve;
    var r, all := Serve(cfg, s, io(fd)), conns[fd := s];
    assert forall g :: g in conns ==> all[g] == conns[g];
    var logged := Logged(cfg, io, conns);
    if r.logged.Some? {
      assert all[fd] == s;
      assert (fd, r.logged.value) !in logged;
      assert Logged(cfg, io, all) == logged + {(fd, r.logged.value)};
    } else {
      assert Logged(cfg, io, all) == logged;
    }
  }

  lemma TallyOneMore(cfg: Config, io: int -> Io, conns: map<int, Slot>, fd: int, s: Slot)
    requires fd !in conns && s.client.fd == fd && Keyed(conns)
    ensures TallyAll(cfg, io, conns[fd := s]) == Plus(TallyAll(cfg, io, conns), TallyOne(Serve(cfg, s, io(fd))))
  {
    hide Serve, ClosingFds, Ended, Logged;
    ServeKeepsFd(cfg, s, io(fd));
    ClosingOneMore(cfg, io, conns, fd, s);
    EndedOneMore(cfg, io, conns, fd, s);
    LoggedOneMore(cfg, io, conns, fd, s);
  }

  lemma ExitsOneMore(cfg: Config, io: int -> Io, conns: map<int, Slot>, fd: int, s: Slot)
    requires fd !in conns
    ensures var (exits, others) := (Serve(cfg, s, io(fd)).fate == Exits, SomeoneExits(cfg, io, conns));
            && (SomeoneExits(cfg, io, conns[fd := s]) <==> exits || others)
            && (AtMostOne(ExitingFds(cfg, io, conns)) && (exits ==> !others)
                ==> AtMostOne(ExitingFds(cfg, io, conns[fd := s])))
  {
    hide Serve;
    var exiting := ExitingFds(cfg, io, conns);
    assert ExitingFds(cfg, io, conns[fd := s])
        == if Serve(cfg, s, io(fd)).fate == Exits then exiting + {fd} else exiting;
  }

  lemma {:induction false} ByFdHolds(slots: seq<Slot>)
    requires Synced(slots)
    ensures Keyed(ByFd(slots))
    ensures forall j :: 0 <= j < |slots| ==>
              slots[j].client.fd in ByFd(slots) && ByFd(slots)[slots[j].client.fd] == slots[j]
    ensures forall fd :: fd in ByFd(slots) ==> exists j :: 0 <= j < |slots| && slots[j].client.fd == fd
  {
    if slots != [] {
      var rest := slots[1..];
      assert forall j :: 0 <= j < |rest| ==> rest[j] == slots[j + 1];
      ByFdHolds(rest);
    }
  }

  lemma ByFdTail(slots: seq<Slot>, i: nat)
    requires Synced(slots) && i < |slots|
    ensures Synced(slots[i..]) && Synced(slots[i + 1..]) && Keyed(ByFd(slots[i + 1..]))
    ensures slots[i].client.fd !in ByFd(slots[i + 1..])
    ensures ByFd(slots[i..]) == ByFd(slots[i + 1..])[slots[i].client.fd := slots[i]]
  {
    var a, b := slots[i..], slots[i + 1..];
    assert forall j :: 0 <= j < |a| ==> a[j] == slots[i + j];
    assert forall j :: 0 <= j < |b| ==> b[j] == slots[i + 1 + j];
    assert a[0] == slots[i] && a[1..] == b;
    ByFdHolds(b);
  }

  lemma {:induction false} ByFdAppend(b: seq<Slot>, s: Slot)
    requires Synced(b + [s])
    ensures Synced(b) && ByFd(b + [s]) == ByFd(b)[s.client.fd := s]
  {
    var a := b + [s];
    assert forall j :: 0 <= j < |b| ==> b[j] == a[j];
    if b != [] {
      var rest := b[1..];
      assert a[1..] == rest + [s];
      assert forall j :: 0 <= j < |rest| + 1 ==> (rest + [s])[j] == a[j + 1];
      ByFdAppend(rest, s);
      assert a[0].client.fd != a[|b|].client.fd;
    } else {
      assert a == [s] && a[1..] == [];
    }
  }

  lemma {:induction false} ByFdConcat(slots: seq<Slot>, i: nat)
    requires Synced(slots) && i <= |slots|
    ensures ByFd(slots) == ByFd(slots[..i]) + ByFd(slots[i..])
  {
    if i == 0 {
      assert slots[..0] == [] && slots[0..] == slots;
    } else {
      var rest := slots[1..];
      assert forall j :: 0 <= j < |rest| ==> rest[j] == slots[j + 1];
      assert rest[..i - 1] == slots[..i][1..] && rest[i - 1..] == slots[i..];
      ByFdConcat(rest, i - 1);
      ByFdTail(slots, 0);
      assert slots[0..] == slots;
      HeadOutside(slots, i);
      AddAround(ByFd(rest[..i - 1]), ByFd(slots[i..]), slots[0].client.fd, slots[0]);
    }
  }

  lemma HeadOutside(slots: seq<Slot>, i: nat)
    requires Synced(slots) && 0 < i <= |slots|
    ensures slots[0].client.fd !in ByFd(slots[i..])
  {
    var b := slots[i..];
    assert forall j :: 0 <= j < |b| ==> b[j] == slots[i + j];
    ByFdHolds(b);
  }

  lemma AddAround(m: map<int, Slot>, n: map<int, Slot>, fd: int, s: Slot)
    requires fd !in n
    ensures (m + n)[fd := s] == m[fd := s] + n
  {
  }

  lemma ByFdHead(slots: seq<Slot>, i: nat, s: Slot)
    requires Synced(slots) && i < |slots| && s.client.fd == s.pfd.fd == slots[i].client.fd
    ensures Synced(slots[i := s]) && Synced(slots[i := s][..i + 1])
    ensures slots[i := s][i + 1..] == slots[i + 1..]
    ensures ByFd(slots[i := s][..i + 1]) == ByFd(slots[..i])[s.client.fd := s]
  {
    var t := slots[i := s];
    assert forall j :: 0 <= j < |t| ==> t[j] == if j == i then s else slots[j];
    assert t[..i + 1] == slots[..i] + [s];
    ByFdAppend(slots[..i], s);
  }

  lemma SwapSlices(slots: seq<Slot>, i: nat)
    requires i < |slots|
    ensures var (t, b) := (SwapRemove(slots, i), slots[i + 1..]);
            && |t| == |slots| - 1 && t[..i] == slots[..i]
            && t[i..] == if b == [] then [] else [b[|b| - 1]] + b[..|b| - 1]
  {
    var t, b, n := SwapRemove(slots, i), slots[i + 1..], |slots|;
    assert forall j :: 0 <= j < n - 1 ==> t[j] == if j == i then slots[n - 1] else slots[j];
    assert forall j :: 0 <= j < |b| ==> b[j] == slots[i + 1 + j];
  }

  lemma SwapSynced(slots: seq<Slot>, i: nat)
    requires Synced(slots) && i < |slots|
    ensures Synced(SwapRemove(slots, i))
  {
    var t, n := SwapRemove(slots, i), |slots|;
    assert forall j :: 0 <= j < n - 1 ==> t[j] == if j == i then slots[n - 1] else slots[j];
  }

  /** What `close_conn` leaves to be served is what was left without the removed slot. */
  lemma ByFdSwap(slots: seq<Slot>, i: nat)
    requires Synced(slots) && i < |slots|
    ensures var t := SwapRemove(slots, i);
            Synced(t) && |t| == |slots| - 1 && t[..i] == slots[..i] && ByFd(t[i..]) == ByFd(slots[i + 1..])
  {
    SwapSlices(slots, i);
    SwapSynced(slots, i);
    ByFdTail(slots, i);
    var b := slots[i + 1..];
    if b != [] {
      var init, x := b[..|b| - 1], b[|b| - 1];
      assert b == init + [x] && ([x] + init)[1..] == init;
      ByFdAppend(init, x);
    }
  }

  /** What a pass leaves that still had `todo` to serve and got as far as `done`: `todo` is
      served as far as that, what was there before is kept, and `send` failed if and only if
      it failed on one of `done`, and on no other; otherwise all of `todo` was served. */
  ghost predicate SweptAs(cfg: Config, io: int -> Io, r: Swept, before: map<int, Slot>, todo: map<int, Slot>, t: Tally,
                          done: set<int>) {
    && done <= todo.Keys && Synced(r.slots)
    && ByFd(r.slots) == before + Served(cfg, io, todo, done)
    && r.tally == Plus(t, TallyAll(cfg, io, Among(todo, done)))
    && (r.exited <==> SomeoneExits(cfg, io, Among(todo, done))) && AtMostOne(ExitingFds(cfg, io, Among(todo, done)))
    && (!r.exited ==> done == todo.Keys)
  }

  /** Walking the arrays from slot `i` on, removals and all, serves every connection from
      there on exactly once, unless a `send` fails on the way, and keeps the ones before. */
  lemma {:induction false} SweepServesEach(cfg: Config, io: int -> Io, slots: seq<Slot>, i: nat, t: Tally)
    returns (done: set<int>)
    requires Synced(slots) && i <= |slots|
    ensures SweptAs(cfg, io, SweepFrom(cfg, io, slots, i, t), ByFd(slots[..i]), ByFd(slots[i..]), t, done)
    decreases |slots| - i
  {
    hide Serve, Served, Among, TallyAll, SomeoneExits, Synced, SwapRemove, Plus, TallyOne, AtMostOne, ExitingFds;
    if i == |slots| {
      assert slots[..i] == slots && slots[i..] == [];
      NothingToServe(cfg, io, map[], t);
      done := {};
    } else {
      var fd, before, todo := slots[i].client.fd, ByFd(slots[..i]), ByFd(slots[i + 1..]);
      var s := Serve(cfg, slots[i], io(fd));
      var t' := Plus(t, TallyOne(s));
      ServeKeepsFd(cfg, slots[i], io(fd));
      ByFdTail(slots, i);
      match s.fate {
        case Exits =>
          done := {};
          ByFdHead(slots, i, s.slot);
          ByFdConcat(slots[i := s.slot], i + 1);
          NothingToServe(cfg, io, todo, t');
        case Closes =>
          ByFdSwap(slots, i);
          done := SweepServesEach(cfg, io, SwapRemove(slots, i), i, t');
        case Stays =>
          ByFdHead(slots, i, s.slot);
          done := SweepServesEach(cfg, io, slots[i := s.slot], i + 1, t');
      }
      ServedFirst(cfg, io, SweepFrom(cfg, io, slots, i, t), before, todo, t, slots[i], done);
      done := done + {fd};
    }
  }

  /** Serving connection `s` and then `done` of `todo` serves both. */
  lemma ServedFirst(cfg: Config, io: int -> Io, r: Swept, before: map<int, Slot>, todo: map<int, Slot>, t: Tally,
                    s: Slot, done: set<int>)
    requires s.client.fd !in todo && Keyed(todo) && done <= todo.Keys && Synced(r.slots)
    requires var fd := s.client.fd; var v := Serve(cfg, s, io(fd));
             && ByFd(r.slots)
                == (if v.fate == Closes then before else before[fd := v.slot]) + Served(cfg, io, todo, done)
             && r.tally == Plus(Plus(t, TallyOne(v)), TallyAll(cfg, io, Among(todo, done)))
             && (r.exited <==> v.fate == Exits || SomeoneExits(cfg, io, Among(todo, done)))
             && (!r.exited ==> done == todo.Keys)
             && AtMostOne(ExitingFds(cfg, io, Among(todo, done)))
             && (v.fate == Exits ==> !SomeoneExits(cfg, io, Among(todo, done)))
    ensures SweptAs(cfg, io, r, before, todo[s.client.fd := s], t, done + {s.client.fd})
  {
    hide Serve, Served, Among, TallyAll, SomeoneExits, Synced, ByFd, TallyOne, Plus, AtMostOne, ExitingFds;
    var fd := s.client.fd;
    ServedOneMore(cfg, io, todo, done, fd, s);
    AmongOneMore(todo, done, fd, s);
    AmongKeys(todo, done, fd);
    TallyOneMore(cfg, io, Among(todo, done), fd, s);
    ExitsOneMore(cfg, io, Among(todo, done), fd, s);
    ServedKeys(cfg, io, todo, done, fd);
    AddFirst(before, Served(cfg, io, todo, done), fd, Serve(cfg, s, io(fd)).slot);
    PlusReorder(t, TallyOne(Serve(cfg, s, io(fd))), TallyAll(cfg, io, Among(todo, done)));
    assert todo[fd := s].Keys == todo.Keys + {fd};
  }

  lemma PlusReorder(t: Tally, u: Tally, v: Tally)
    ensures Plus(Plus(t, u), v) == Plus(t, Plus(v, u))
  {
  }

  lemma NothingToServe(cfg: Config, io: int -> Io, conns: map<int, Slot>, t: Tally)
    ensures Served(cfg, io, conns, {}) == conns && Among(conns, {}) == map[]
    ensures Plus(t, TallyAll(cfg, io, map[])) == t
    ensures !SomeoneExits(cfg, io, map[]) && AtMostOne(ExitingFds(cfg, io, map[]))
  {
    hide Serve;
    assert ClosingFds(cfg, io, map[]) == {} && ExitingFds(cfg, io, map[]) == {};
    assert Ended(cfg, io, map[]) == {} && Logged(cfg, io, map[]) == {};
  }

  lemma ServedKeys(cfg: Config, io: int -> Io, conns: map<int, Slot>, done: set<int>, fd: int)
    requires fd !in conns
    ensures fd !in Served(cfg, io, conns, done)
  {
  }

  lemma AmongKeys(conns: map<int, Slot>, done: set<int>, fd: int)
    requires fd !in conns
    ensures fd !in Among(conns, done)
  {
  }

  lemma AddFirst(m: map<int, Slot>, n: map<int, Slot>, fd: int, s: Slot)
    requires fd !in n
    ensures m[fd := s] + n == m + n[fd := s]
  {
  }

  /** Two arrangements of the same connections in the arrays end in the same connections. */
  lemma SlotOrderIrrelevant(cfg: Config, io: int -> Io, a: seq<Slot>, b: seq<Slot>, t: Tally)
    requires Synced(a) && Synced(b) && ByFd(a) == ByFd(b)
    ensures var (r, q) := (SweepFrom(cfg, io, a, 0, t), SweepFrom(cfg, io, b, 0, t));
            && r.exited == q.exited
            && (!r.exited ==> ByFd(r.slots) == ByFd(q.slots) && r.tally == q.tally)
  {
    hide SweepFrom, Serve, Served, TallyAll, Plus, Synced;
    var d := SweepServesEach(cfg, io, a, 0, t);
    var e := SweepServesEach(cfg, io, b, 0, t);
    assert a[..0] == b[..0] == [] && a[0..] == a && b[0..] == b;
  }
}
