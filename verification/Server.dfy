/** The server itself: two parallel arrays that grow by doubling, are compacted by moving the
    last slot into the hole, and are walked while both happen. */
module ServerLoop {
  import opened Wrappers
  import opened Http
  import opened Connection
  import opened Growth
  import opened Reading
  import opened Writing
  import opened PollSweep
  import opened Machine

  const INITIAL_SIZE: nat := 32

  // ------------------------------------------------------------ the two arrays as one table

  /** The bytes the kernel has taken from a descriptor. */
  function Taken(wire: map<int, string>, fd: int): string {
    if fd in wire then wire[fd] else ""
  }

  function SlotAt(p: PollFd, c: Client, wire: map<int, string>): Slot {
    Slot(p, c, Taken(wire, c.fd))
  }

  ghost function Zip(ps: seq<PollFd>, cs: seq<Client>, wire: map<int, string>): (slots: seq<Slot>)
    requires |ps| == |cs|
    ensures |slots| == |ps| && forall j :: 0 <= j < |ps| ==> slots[j] == SlotAt(ps[j], cs[j], wire)
  {
    if ps == [] then [] else Zip(ps[..|ps| - 1], cs[..|ps| - 1], wire) + [SlotAt(ps[|ps| - 1], cs[|ps| - 1], wire)]
  }

  lemma ZipAppend(ps: seq<PollFd>, cs: seq<Client>, wire: map<int, string>, s: Slot)
    requires |ps| == |cs| && forall j :: 0 <= j < |cs| ==> cs[j].fd != s.client.fd
    ensures Zip(ps + [s.pfd], cs + [s.client], wire[s.client.fd := s.wire]) == Zip(ps, cs, wire) + [s]
  {
    var a, b := Zip(ps + [s.pfd], cs + [s.client], wire[s.client.fd := s.wire]), Zip(ps, cs, wire) + [s];
    assert forall j :: 0 <= j < |a| ==> a[j] == b[j];
  }

  lemma ZipSwap(ps: seq<PollFd>, cs: seq<Client>, wire: map<int, string>, i: nat)
    requires |ps| == |cs| && i < |cs|
    ensures var n := |ps| - 1;
            Zip(ps[i := ps[n]][..n], cs[i := cs[n]][..n], wire) == SwapRemove(Zip(ps, cs, wire), i)
  {
    var n := |ps| - 1;
    var a, b := Zip(ps[i := ps[n]][..n], cs[i := cs[n]][..n], wire), SwapRemove(Zip(ps, cs, wire), i);
    assert forall j :: 0 <= j < |a| ==> a[j] == b[j];
  }

  /** No descriptor twice, the arrays in step, and every connection in order. */
  ghost predicate TableOk(cfg: Config, slots: seq<Slot>) {
    Synced(slots) && forall j :: 0 <= j < |slots| ==> SlotOk(cfg, slots[j])
  }

  ghost predicate TableOkBut(cfg: Config, slots: seq<Slot>, k: int) {
    Synced(slots) && forall j :: 0 <= j < |slots| && j != k ==> SlotOk(cfg, slots[j])
  }

  function AfterRead(cfg: Config, s: Slot, io: Io): Slot {
    var c := ReadStep(cfg, io.world, s.client, io.received);
    Slot(if c.state == SendingHeader then s.pfd.(events := {POLLOUT}) else s.pfd, c, s.wire)
  }

  /** The first slots belong to the listeners. */
  ghost predicate Heads(ps: seq<PollFd>, listeners: seq<int>) {
    |ps| == |listeners| && forall j :: 0 <= j < |ps| ==> ps[j].fd == listeners[j]
  }

  class Server {
    const cfg: Config
    const listeners: seq<int>
    var pfds: array<PollFd>
    var clients: array<Client>
    var fdCount: nat
    var fdSize: nat

    // What the kernel has seen: the bytes taken from each descriptor, the descriptors handed
    // out by accept, and what was closed and logged.
    ghost var wire: map<int, string>
    ghost var accepted: multiset<int>
    ghost var tally: Tally

    // Slots copied by realloc so far, and the largest number of connections so far.
    ghost var copied: nat
    ghost var peak: nat

    /** The connections, slot by slot; the listeners before them are not clients. */
    ghost function View(): (slots: seq<Slot>)
      reads this, pfds, clients
      requires |listeners| <= fdCount <= pfds.Length && fdCount <= clients.Length
    {
      Zip(pfds[|listeners|..fdCount], clients[|listeners|..fdCount], wire)
    }

    /** The arrays, when `most` is the largest number of connections they have had to hold. */
    ghost predicate ArraysFit(most: nat)
      reads this
    {
      && pfds.Length == clients.Length == fdSize
      && 1 <= |listeners| <= 2 && |listeners| <= fdCount <= fdSize
      && DoubledFrom(INITIAL_SIZE, fdSize)
      && copied + INITIAL_SIZE == fdSize && fdCount <= |listeners| + most
      && (fdSize == INITIAL_SIZE || fdSize < 2 * (|listeners| + most))
    }

    ghost predicate ArraysOk()
      reads this
    {
      ArraysFit(peak)
    }

    ghost predicate Valid()
      reads this, pfds, clients
    {
      && ArraysOk()
      && Heads(pfds[..|listeners|], listeners)
      && TableOk(cfg, View())
    }

    /** The state of the machine that the arrays stand for. */
    ghost function Abs(): State
      reads this, pfds, clients
      requires ArraysOk()
    {
      State(ByFd(View()), accepted, tally, false, peak)
    }

    constructor (cfg: Config, listeners: seq<int>)
      requires 1 <= |listeners| <= 2
      ensures Valid() && Abs() == START && this.cfg == cfg && this.listeners == listeners
      ensures fresh(pfds) && fresh(clients)
    {
      this.cfg := cfg;
      this.listeners := listeners;
      var ps := new PollFd[INITIAL_SIZE](_ => PollFd(-1, {}, {}));
      var cs := new Client[INITIAL_SIZE](_ => NewClient(-1, ""));
      ps[0] := PollFd(listeners[0], {POLLIN}, {});
      if |listeners| > 1 {
        ps[1] := PollFd(listeners[1], {POLLIN}, {});
      }
      pfds, clients := ps, cs;
      fdCount, fdSize := |listeners|, INITIAL_SIZE;
      wire, accepted, tally := map[], multiset{}, START.tally;
      copied, peak := 0, 0;
    }

    /** The two `realloc` calls of `add_to_lists`. */
    method Grow()
      requires ArraysOk() && fdCount == fdSize
      modifies this`pfds, this`clients, this`fdSize, this`copied
      ensures ArraysFit(Max(peak, fdCount + 1 - |listeners|)) && fdSize == 2 * old(fdSize)
      ensures fresh(pfds) && fresh(clients)
      ensures pfds[..fdCount] == old(pfds[..fdCount]) && clients[..fdCount] == old(clients[..fdCount])
    {
      DoubleOnce(INITIAL_SIZE, fdSize);
      copied := copied + fdSize;
      fdSize := fdSize * 2;
      var ps := new PollFd[fdSize](_ => PollFd(-1, {}, {}));
      forall j | 0 <= j < pfds.Length { ps[j] := pfds[j]; }
      var cs := new Client[fdSize](_ => NewClient(-1, ""));
      forall j | 0 <= j < clients.Length { cs[j] := clients[j]; }
      assert ps[..fdCount] == pfds[..fdCount] && cs[..fdCount] == clients[..fdCount];
      pfds, clients := ps, cs;
    }

    /** `add_to_lists`: the new slot goes behind the others, after doubling when full. */
    method AddToLists(newfd: int) returns (index: nat)
      requires Valid() && newfd !in ByFd(View())
      modifies this`pfds, this`clients, this`fdCount, this`fdSize, this`wire, this`copied, this`peak, pfds, clients
      ensures Valid() && fdCount == old(fdCount) + 1 && index == fdCount - 1 && index >= |listeners|
      ensures View() == old(View()) + [NewSlot(newfd, Some(""))]
      ensures peak == Max(old(peak), fdCount - |listeners|)
      ensures copied == (if old(fdCount) < old(fdSize) then old(copied) else old(copied) + old(fdCount))
      ensures pfds[..|listeners|] == old(pfds[..|listeners|])
      ensures pfds == old(pfds) || fresh(pfds)
      ensures clients == old(clients) || fresh(clients)
    {
      hide TableOk, ByFd, DoubledFrom, Heads, Zip;
      ghost var L := |listeners|;
      if fdCount == fdSize {
        ghost var ps, cs, n := pfds[..fdCount], clients[..fdCount], fdCount;
        assert pfds[L..n] == ps[L..] && clients[L..n] == cs[L..] && pfds[..L] == ps[..L];
        Grow();
        assert pfds[L..n] == pfds[..n][L..] == ps[L..] && clients[L..n] == clients[..n][L..] == cs[L..];
        assert pfds[..L] == pfds[..n][..L] == ps[..L];
      }
      index := fdCount;
      StoreNew(newfd);
    }

    /** The new slot is written at `fd_count`. */
    method StoreNew(newfd: int)
      requires fdCount < fdSize && |listeners| <= fdCount && ArraysFit(Max(peak, fdCount + 1 - |listeners|))
      requires Heads(pfds[..|listeners|], listeners) && TableOk(cfg, View()) && newfd !in ByFd(View())
      modifies this`fdCount, this`wire, this`peak, pfds, clients
      ensures Valid() && fdCount == old(fdCount) + 1
      ensures View() == old(View()) + [NewSlot(newfd, Some(""))]
      ensures peak == Max(old(peak), fdCount - |listeners|)
      ensures pfds[..|listeners|] == old(pfds[..|listeners|])
    {
      hide TableOk, ByFd, DoubledFrom, Heads, Zip;
      ghost var before, s, n, L := View(), NewSlot(newfd, Some("")), fdCount, |listeners|;
      ghost var ps, cs := pfds[L..n], clients[L..n];
      pfds[fdCount] := PollFd(newfd, {POLLIN}, {});
      clients[fdCount] := NewClient(newfd, "");
      fdCount := fdCount + 1;
      wire := wire[newfd := ""];
      peak := Max(peak, fdCount - L);
      assert pfds[L..fdCount] == ps + [s.pfd] && clients[L..fdCount] == cs + [s.client];
      TableAppend(cfg, ps, cs, old(wire), s);
      TableOkAppend(cfg, before, newfd);
    }

    /** The array slots behind slot `k` of the view. */
    ghost predicate At(i: nat, k: nat)
      reads this
    {
      i == k + |listeners| && i < fdCount
    }

    lemma ViewAt(i: nat, k: nat)
      requires ArraysOk() && At(i, k)
      ensures k < |View()| && View()[k] == SlotAt(pfds[i], clients[i], wire)
    {
    }

    /** `close_conn`, with its guard against closing slot 0. */
    method CloseConn(i: nat, ghost k: nat)
      requires ArraysOk() && Heads(pfds[..|listeners|], listeners) && (i == 0 || At(i, k))
      requires TableOkBut(cfg, View(), if i == 0 then -1 else k)
      modifies this`fdCount, this`tally, pfds, clients
      ensures Valid() && pfds[..|listeners|] == old(pfds[..|listeners|])
      ensures i == 0 ==> View() == old(View()) && tally == old(tally) && fdCount == old(fdCount)
      ensures i != 0 ==>
                && fdCount == old(fdCount) - 1
                && k < |old(View())| && View() == SwapRemove(old(View()), k)
                && tally == Plus(old(tally), TallyOne(Service(old(View())[k], Closes, None)))
    {
      hide TableOk, TableOkBut, ByFd, DoubledFrom, Heads, Zip, SwapRemove, Plus, TallyOne;
      if i == 0 {
        NoneBad(cfg, View());
        return;
      }
      tally := Plus(tally, TallyOne(Service(View()[k], Closes, None)));
      Compact(i, k);
    }

    /** The last slot moves into the hole. */
    method Compact(i: nat, ghost k: nat)
      requires ArraysOk() && Heads(pfds[..|listeners|], listeners) && At(i, k) && TableOkBut(cfg, View(), k)
      modifies this`fdCount, pfds, clients
      ensures Valid() && fdCount == old(fdCount) - 1 && pfds[..|listeners|] == old(pfds[..|listeners|])
      ensures k < |old(View())| && View() == SwapRemove(old(View()), k)
    {
      hide TableOk, TableOkBut, ByFd, DoubledFrom, Heads, Zip, SwapRemove, Plus, TallyOne;
      ghost var before, n, L := View(), fdCount, |listeners|;
      ghost var ps, cs, allPfds, allClients := pfds[L..n], clients[L..n], pfds[..], clients[..];
      if i != fdCount - 1 {
        pfds[i] := pfds[fdCount - 1];
        clients[i] := clients[fdCount - 1];
      }
      fdCount := fdCount - 1;
      assert pfds[..] == allPfds[i := allPfds[n - 1]] && clients[..] == allClients[i := allClients[n - 1]];
      SliceSwap(allPfds, L, n, i);
      SliceSwap(allClients, L, n, i);
      assert pfds[..L] == allPfds[..L];
      ZipSwap(ps, cs, wire, k);
      assert View() == SwapRemove(before, k) by {
        assert pfds[L..fdCount] == pfds[..][L..fdCount] && clients[L..fdCount] == clients[..][L..fdCount];
      }
      SwapRemoveOk(cfg, before, k);
      assert ArraysOk();
    }

    /** The slot that poll reported readable is read. */
    method ReadClient(i: nat, ghost k: nat, io: Io)
      requires Valid() && At(i, k) && clients[i].state == Reading
      modifies this`tally, pfds, clients
      ensures View() == old(View())[k := AfterRead(cfg, old(View()[k]), io)]
      ensures pfds[..|listeners|] == old(pfds[..|listeners|])
      ensures var text := ReadLog(cfg, io.world, old(clients[i]), io.received);
              var lines := if text.Some? then multiset{(old(clients[i]).fd, text.value)} else multiset{};
              tally == old(tally).(logged := old(tally).logged + lines)
    {
      hide ByFd, DoubledFrom, Heads, Zip, ReadStep, ReadLog, SlotOk;
      ghost var s, n, L := View()[k], fdCount, |listeners|;
      ghost var ps, cs := pfds[L..n], clients[L..n];
      ghost var s' := AfterRead(cfg, s, io);
      assert cs[k] == clients[i] && ps[k] == pfds[i];
      ReadKeepsFd(cfg, io.world, clients[i], io.received);
      ReaderWaits(cfg, View(), k);
      var text := DoRead(cfg, clients, pfds, i, io.world, io.received);
      if text.Some? {
        tally := tally.(logged := tally.logged + multiset{(clients[i].fd, text.value)});
      }
      assert pfds[L..n] == ps[k := s'.pfd] && clients[L..n] == cs[k := s'.client];
      ViewUpdate(ps, cs, wire, wire, k, s');
    }

    /** The slot that poll reported writable is written. */
    method WriteClient(i: nat, ghost k: nat, sends: seq<int>) returns (exited: bool)
      requires ArraysOk() && At(i, k) && Synced(View())
      modifies this`wire, clients
      ensures var s := old(View())[k]; var r := WriteStep(s.client, s.wire, sends);
              View() == old(View())[k := Slot(s.pfd, r.client, r.wire)] && exited == r.exited
    {
      hide TableOk, ByFd, DoubledFrom, Heads, Zip, WriteStep;
      ghost var s, n, L := View()[k], fdCount, |listeners|;
      ghost var ps, cs, before := pfds[L..n], clients[L..n], wire;
      assert cs[k] == clients[i] && ps[k] == pfds[i];
      ghost var w;
      exited, w := DoWrite(clients, i, s.wire, sends);
      WriteKeepsFd(s.client, s.wire, sends);
      wire := wire[clients[i].fd := w];
      ghost var r := WriteStep(s.client, s.wire, sends);
      assert ps[k := s.pfd] == ps;
      assert pfds[L..n] == ps[k := s.pfd] && clients[L..n] == cs[k := r.client];
      ViewUpdate(ps, cs, before, wire, k, Slot(s.pfd, r.client, r.wire));
    }

    /** The reading part of the loop body, for a slot that is ready and not faulty. */
    method ReadIfReady(i: nat, ghost k: nat, io: int -> Io)
      requires Valid() && At(i, k) && pfds[i].revents != {} && !Faulty(pfds[i].revents)
      modifies this`tally, pfds, clients
      ensures pfds[..|listeners|] == old(pfds[..|listeners|]) && pfds[i].revents == old(pfds[i].revents)
      ensures var s := old(View())[k]; var traffic := io(s.client.fd); var v := Serve(cfg, s, traffic);
              && View() == old(View())[k := MidPass(cfg, s, traffic)] && Synced(View())
              && tally == Plus(old(tally), TallyOne(Service(v.slot, Stays, v.logged)))
    {
      hide TableOk, ByFd, DoubledFrom, Heads, Zip, ReadStep, WriteStep, ReadLog, SlotOk, PollSweep.Serve,
           Plus, TallyOne;
      ViewAt(i, k);
      TableOkSynced(cfg, View());
      ghost var before, s, t := View(), View()[k], tally;
      ghost var traffic := io(s.client.fd);
      ServeSteps(cfg, s, traffic);
      LogTallied(cfg, t, s, traffic);
      if POLLIN in pfds[i].revents && clients[i].state == Reading {
        ReadClient(i, k, io(clients[i].fd));
        SyncedUpdate(cfg, before, k, s, traffic);
      } else {
        assert before[k := s] == before;
      }
      ViewAt(i, k);
    }

    /** The loop body for such a slot: read it, or write it, or both; the connection is not
        removed yet. */
    method Transfer(i: nat, ghost k: nat, io: int -> Io) returns (exited: bool)
      requires Valid() && At(i, k) && pfds[i].revents != {} && !Faulty(pfds[i].revents)
      modifies this`tally, this`wire, pfds, clients
      ensures var s := Serve(cfg, old(View())[k], io(old(View())[k].client.fd));
              && View() == old(View())[k := s.slot] && exited == s.fate.Exits?
              && pfds[..|listeners|] == old(pfds[..|listeners|])
              && tally == Plus(old(tally), TallyOne(Service(s.slot, Stays, s.logged)))
    {
      hide TableOk, ByFd, DoubledFrom, Heads, Zip, ReadStep, WriteStep, ReadLog, SlotOk, PollSweep.Serve,
           Plus, TallyOne, MidPass, Synced;
      ViewAt(i, k);
      ghost var s := View()[k];
      ServeSteps(cfg, s, io(s.client.fd));
      MidPassFd(cfg, s, io(s.client.fd));
      ReadIfReady(i, k, io);
      ViewAt(i, k);
      exited := false;
      if POLLOUT in pfds[i].revents && (clients[i].state == SendingHeader || clients[i].state == SendingBody) {
        exited := WriteClient(i, k, io(clients[i].fd).sends);
      }
    }

    /** The loop body for a client slot. */
    method ServeClient(i: nat, ghost k: nat, io: int -> Io) returns (removed: bool, exited: bool)
      requires Valid() && At(i, k)
      modifies this`fdCount, this`tally, this`wire, pfds, clients
      ensures var s := Serve(cfg, old(View())[k], io(old(View())[k].client.fd));
              && exited == s.fate.Exits? && removed == s.fate.Closes?
              && ArraysOk() && tally == Plus(old(tally), TallyOne(s))
              && (exited ==> View() == old(View())[k := s.slot])
              && (!exited ==>
                    && Valid() && pfds[..|listeners|] == old(pfds[..|listeners|])
                    && fdCount == (if removed then old(fdCount) - 1 else old(fdCount))
                    && View() == if removed then SwapRemove(old(View()), k) else old(View())[k := s.slot])
    {
      hide TableOk, TableOkBut, ByFd, DoubledFrom, Heads, Zip, SwapRemove, ReadStep, WriteStep, ReadLog, SlotOk, Plus,
           TallyOne;
      ghost var before, s0, t0 := View(), View()[k], tally;
      ghost var s := Serve(cfg, s0, io(s0.client.fd));
      ViewAt(i, k);
      removed, exited := false, false;
      var revents := pfds[i].revents;
      if revents == {} {
        assert before[k := s0] == before;
        NothingTallied(t0, s);
        return;
      }
      if POLLERR in revents || POLLHUP in revents || POLLNVAL in revents {
        ButOne(cfg, before, k);
        CloseConn(i, k);
        return true, false;
      }
      exited := Transfer(i, k, io);
      if exited {
        TallySame(s);
        return;
      }
      ViewAt(i, k);
      ServedTable(cfg, before, k, io);
      ServeSteps(cfg, s0, io(s0.client.fd));
      if clients[i].state == ClientState.Closing {
        CloseConn(i, k);
        removed := true;
        TallySplit(t0, s);
        SwapForgets(before, k, s.slot);
      } else {
        TallySame(s);
      }
    }

    /** The peer's address is filled in behind `add_to_lists`. */
    method SetAddress(i: nat, ghost k: nat, addr: Option<Address>)
      requires Valid() && At(i, k) && View()[k] == NewSlot(clients[i].fd, Some(""))
      modifies clients
      ensures Valid() && View() == old(View())[k := NewSlot(old(clients[i].fd), addr)]
    {
      hide TableOk, ByFd, DoubledFrom, Heads, Zip, SlotOk;
      ViewAt(i, k);
      ghost var before, n, L, fd := View(), fdCount, |listeners|, clients[i].fd;
      ghost var ps, cs, s := pfds[L..n], clients[L..n], NewSlot(fd, addr);
      clients[i] := clients[i].(addr := addr.GetOr("Unknown IP"));
      assert ps[k := s.pfd] == ps && clients[L..n] == cs[k := s.client];
      TableOkSynced(cfg, before);
      ViewUpdate(ps, cs, wire, wire, k, s);
      NewInTable(cfg, before, k, fd, addr);
    }

    /** `accept_new_conn`: drains a listener into the table. */
    method AcceptNewConn(rs: seq<AcceptResult>)
      requires Valid() && Fresh(Abs(), listeners, rs)
      modifies this, pfds, clients
      ensures Valid() && Abs() == Admit(old(Abs()), rs)
      ensures pfds[..|listeners|] == old(pfds[..|listeners|])
      ensures (pfds == old(pfds) || fresh(pfds)) && (clients == old(clients) || fresh(clients))
    {
      hide TableOk, ByFd, DoubledFrom, Heads, Zip, SlotOk, NewSlot, Max, Plus;
      var k := 0;
      while k < |rs|
        invariant k <= |rs| && Valid()
        invariant pfds[..|listeners|] == old(pfds[..|listeners|])
        invariant (pfds == old(pfds) || fresh(pfds)) && (clients == old(clients) || fresh(clients))
        invariant Fresh(Abs(), listeners, rs[k..]) && Admit(Abs(), rs[k..]) == Admit(old(Abs()), rs)
      {
        var a := rs[k];
        assert rs[k..][0] == a && rs[k..][1..] == rs[k + 1..];
        if a.NothingPending? || a.AcceptError? {
          return;
        }
        k := k + 1;
        if a.AcceptInterrupted? {
          continue;
        }
        Enter(a);
      }
    }

    /** One accepted socket: it is added, or closed when it cannot be made non-blocking. */
    method Enter(a: AcceptResult)
      requires Valid() && a.Accepted? && a.fd !in Abs().conns
      modifies this, pfds, clients
      ensures Valid() && Abs() == AdmitOne(old(Abs()), a)
      ensures pfds[..|listeners|] == old(pfds[..|listeners|])
      ensures (pfds == old(pfds) || fresh(pfds)) && (clients == old(clients) || fresh(clients))
    {
      hide TableOk, ByFd, DoubledFrom, Heads, Zip, SlotOk, NewSlot, Max;
      accepted := accepted + multiset{a.fd};
      if !a.nonBlocking {
        tally := tally.(closed := tally.closed + multiset{a.fd});
        return;
      }
      AddNewcomer(a.fd, a.addr);
    }

    /** `add_to_lists` and the address, for one accepted socket. */
    method AddNewcomer(fd: int, addr: Option<Address>)
      requires Valid() && fd !in ByFd(View())
      modifies this`pfds, this`clients, this`fdCount, this`fdSize, this`wire, this`copied, this`peak, pfds, clients
      ensures Valid() && ByFd(View()) == old(ByFd(View()))[fd := NewSlot(fd, addr)]
      ensures peak == Max(old(peak), old(|ByFd(View())|) + 1)
      ensures pfds[..|listeners|] == old(pfds[..|listeners|])
      ensures (pfds == old(pfds) || fresh(pfds)) && (clients == old(clients) || fresh(clients))
    {
      hide TableOk, ByFd, DoubledFrom, Heads, Zip, SlotOk, NewSlot;
      ghost var before := View();
      TableOkSynced(cfg, before);
      ByFdSize(before);
      var index := AddToLists(fd);
      ghost var k := index - |listeners|;
      ViewAt(index, k);
      NewSlotFd(fd);
      SetAddress(index, k, addr);
      TableOkSynced(cfg, View());
      assert View() == before + [NewSlot(fd, addr)];
      ByFdAppend(before, NewSlot(fd, addr));
      NewSlotFd'(fd, addr);
    }

    /** What `poll` does to the table: it reports the ready events of every slot. */
    method Poll(revents: int -> set<PollFlag>)
      requires Valid()
      modifies pfds
      ensures Valid() && Abs() == old(Abs()).(conns := Polled(old(Abs()).conns, revents))
      ensures forall j :: 0 <= j < |listeners| ==> pfds[j].revents == revents(listeners[j])
    {
      hide ByFd, DoubledFrom, TableOk, Zip;
      ghost var before, n, L := View(), fdCount, |listeners|;
      ghost var ps, cs := pfds[L..n], clients[L..n];
      forall j | 0 <= j < fdCount {
        pfds[j] := pfds[j].(revents := revents(pfds[j].fd));
      }
      assert forall j :: 0 <= j < n - L ==> pfds[L..n][j] == ps[j].(revents := revents(ps[j].fd));
      assert clients[L..n] == cs;
      assert forall j :: 0 <= j < |before| ==> View()[j] == Machine.Poll(before[j], revents);
      PolledTable(cfg, before, View(), revents);
    }

    /** The listener part of the loop body. */
    method ServeListener(i: nat, r: Round)
      requires Valid() && r.Ready? && i < |listeners| && pfds[i].revents == r.revents(listeners[i])
      requires Fresh(Abs(), listeners, Arrivals(listeners[i], r))
      modifies this, pfds, clients
      ensures Valid() && Abs() == Admit(old(Abs()), Arrivals(listeners[i], r))
      ensures pfds[..|listeners|] == old(pfds[..|listeners|])
      ensures (pfds == old(pfds) || fresh(pfds)) && (clients == old(clients) || fresh(clients))
    {
      hide TableOk, ByFd, DoubledFrom, Heads, Zip;
      if POLLIN in pfds[i].revents {
        AcceptNewConn(r.accepts(listeners[i]));
      }
    }

    /** The listeners from `i` on are still to be drained, on the way to `goal`. */
    ghost predicate Admitting(r: Round, i: nat, goal: State)
      reads this, pfds, clients
      requires ArraysOk() && r.Ready?
    {
      FreshFrom(Abs(), listeners, r, i) && AdmitFrom(Abs(), listeners, r, i) == goal
    }

    /** All listeners are drained, which led to `goal` with the connections `served`; the
        slots from the `k`-th client on are still to be served. */
    ghost predicate Serving(r: Round, k: nat, goal: State, served: seq<Slot>)
      reads this, pfds, clients
      requires ArraysOk() && r.Ready?
    {
      && Synced(served) && goal == Abs().(conns := ByFd(served), tally := goal.tally)
      && SweepFrom(cfg, r.io, View(), k, tally) == SweepFrom(cfg, r.io, served, 0, goal.tally)
    }

    /** What is left of a pass that has reached slot `i`. */
    ghost predicate Pending(r: Round, i: nat, goal: State, served: seq<Slot>)
      reads this, pfds, clients
      requires ArraysOk() && r.Ready?
    {
      if i < |listeners| then Admitting(r, i, goal) else Serving(r, i - |listeners|, goal, served)
    }

    /** One step of the loop on a client slot. */
    method ServeNext(i: nat, ghost k: nat, r: Round, ghost goal: State, ghost served: seq<Slot>)
      returns (removed: bool, exited: bool)
      requires Valid() && r.Ready? && At(i, k) && Pending(r, i, goal, served)
      modifies this`fdCount, this`tally, this`wire, pfds, clients
      ensures ArraysOk() && (exited ==> Serves(cfg, r.io, goal, Abs().(exited := true)))
      ensures !exited ==>
                && Valid() && Pending(r, if removed then i else i + 1, goal, served)
                && fdCount == (if removed then old(fdCount) - 1 else old(fdCount))
                && pfds[..|listeners|] == old(pfds[..|listeners|])
    {
      hide TableOk, ByFd, DoubledFrom, Heads, Zip, PollSweep.Serve, SomeoneExits, SwapRemove, Plus, TallyOne, SweepFrom,
           Synced, Serves;
      SweepUnfold(cfg, r.io, View(), k, tally);
      removed, exited := ServeClient(i, k, r.io);
      if exited {
        SweptAll(cfg, r.io, served, goal);
      }
    }

    lemma PassStarts(r: Round)
      requires ArraysOk() && r.Ready? && FreshFrom(Abs(), listeners, r, 0)
      ensures Pending(r, 0, AdmitFrom(Abs(), listeners, r, 0), View())
    {
    }

    /** Past the last slot, the pass is complete. */
    lemma PassOver(r: Round, goal: State, served: seq<Slot>)
      requires ArraysOk() && r.Ready? && Pending(r, fdCount, goal, served)
      ensures Serves(cfg, r.io, goal, Abs())
    {
      hide ByFd, Zip, SweepFrom, Synced, Serves;
      SweepOver(cfg, r.io, View(), fdCount - |listeners|, tally);
      SweptAll(cfg, r.io, served, goal);
    }

    /** One step of the loop on a listener slot. */
    method DrainNext(i: nat, r: Round, ghost goal: State, ghost served: seq<Slot>)
      requires Valid() && r.Ready? && i < |listeners| && pfds[i].revents == r.revents(listeners[i])
      requires Pending(r, i, goal, served)
      modifies this, pfds, clients
      ensures Valid() && pfds[..|listeners|] == old(pfds[..|listeners|])
      ensures (pfds == old(pfds) || fresh(pfds)) && (clients == old(clients) || fresh(clients))
      ensures Pending(r, i + 1, goal, View())
    {
      hide TableOk, ByFd, DoubledFrom, Heads, Zip, Admit, Arrivals, Fresh, AdmitFrom, FreshFrom, SweepFrom, Synced;
      AdmitUnfold(Abs(), listeners, r, i);
      ServeListener(i, r);
      if i + 1 == |listeners| {
        AdmitDone(Abs(), listeners, r);
        TableOkSynced(cfg, View());
      }
    }

    /** The `for` loop over the slots: listeners first, then clients, which are removed, and
        new ones added, on the way. It ends: each step leaves fewer listeners, or, from then
        on, fewer slots from `i` on, whether `i` moves on or a slot disappears. */
    method Sweep(r: Round) returns (exited: bool)
      requires Valid() && r.Ready? && FreshFrom(Abs(), listeners, r, 0)
      requires forall j :: 0 <= j < |listeners| ==> pfds[j].revents == r.revents(listeners[j])
      modifies this, pfds, clients
      ensures ArraysOk() && Serves(cfg, r.io, AdmitFrom(old(Abs()), listeners, r, 0), Abs().(exited := exited))
      ensures !exited ==> Valid()
      ensures (pfds == old(pfds) || fresh(pfds)) && (clients == old(clients) || fresh(clients))
    {
      hide TableOk, ByFd, DoubledFrom, Heads, Zip, Serves, Admit, Arrivals, Fresh, AdmitFrom, FreshFrom,
           SweepFrom, Synced, Pending;
      PassStarts(r);
      ghost var goal, heads, served := AdmitFrom(Abs(), listeners, r, 0), pfds[..|listeners|], View();
      assert forall j :: 0 <= j < |listeners| ==> heads[j] == pfds[j];
      var i := 0;
      while i < fdCount
        invariant 0 <= i <= fdCount && Valid() && pfds[..|listeners|] == heads
        invariant (pfds == old(pfds) || fresh(pfds)) && (clients == old(clients) || fresh(clients))
        invariant Pending(r, i, goal, served)
        decreases if i < |listeners| then |listeners| - i else 0, fdCount - i
      {
        if i < |listeners| {
          assert pfds[i] == heads[i];
          DrainNext(i, r, goal, served);
          served := View();
        } else {
          var removed;
          removed, exited := ServeNext(i, i - |listeners|, r, goal, served);
          if exited {
            return;
          }
          if removed {
            i := i - 1;
          }
        }
        i := i + 1;
      }
      exited := false;
      PassOver(r, goal, served);
    }

    /** One iteration of the event loop; `exited` when the process ends in it. */
    method DoRound(r: Round) returns (exited: bool)
      requires Valid() && FreshTurn(listeners, Abs(), r)
      modifies this, pfds, clients
      ensures ArraysOk() && Turns(cfg, listeners, old(Abs()), r, Abs().(exited := exited))
      ensures !exited ==> Valid()
      ensures (pfds == old(pfds) || fresh(pfds)) && (clients == old(clients) || fresh(clients))
    {
      hide TableOk, ByFd, DoubledFrom, Heads, Zip, SlotOk, Serves, AdmitFrom, FreshFrom;
      if r.PollInterrupted? {
        return false;
      }
      if r.PollFailed? {
        return true;
      }
      Poll(r.revents);
      exited := Sweep(r);
    }

    /** The event loop: it runs until the last round, or until the process exits. */
    method EventLoop(rounds: seq<Round>) returns (exited: bool)
      requires Valid() && FreshRun(cfg, listeners, Abs(), rounds)
      modifies this, pfds, clients
      ensures ArraysOk() && Reaches(cfg, listeners, old(Abs()), rounds, Abs().(exited := exited))
      ensures !exited ==> Valid()
      ensures (pfds == old(pfds) || fresh(pfds)) && (clients == old(clients) || fresh(clients))
    {
      hide TableOk, ByFd, DoubledFrom, Heads, Zip, SlotOk, Turns, FreshTurn;
      ghost var start := Abs();
      var k := 0;
      while k < |rounds|
        invariant k <= |rounds| && Valid()
        invariant (pfds == old(pfds) || fresh(pfds)) && (clients == old(clients) || fresh(clients))
        invariant FreshRun(cfg, listeners, Abs(), rounds[k..])
        invariant forall t ::
                    Reaches(cfg, listeners, Abs(), rounds[k..], t) ==> Reaches(cfg, listeners, start, rounds, t)
      {
        assert rounds[k..][0] == rounds[k] && rounds[k..][1..] == rounds[k + 1..];
        ghost var before := Abs();
        exited := DoRound(rounds[k]);
        ghost var after := Abs().(exited := exited);
        forall t | Reaches(cfg, listeners, after, rounds[k + 1..], t)
          ensures Reaches(cfg, listeners, before, rounds[k..], t)
        {
          TurnFirst(cfg, listeners, before, rounds[k..], after, t);
        }
        if exited {
          return;
        }
        k := k + 1;
      }
      exited := false;
    }

    /** The loop after the event loop: close what is left. The slot index never moves, and is
        never 0, so each call removes one slot. */
    method Shutdown()
      requires Valid()
      modifies this`fdCount, this`tally, pfds, clients
      ensures Valid() && fdCount == |listeners| && View() == []
      ensures tally.closed + multiset(Abs().conns.Keys) == old(tally.closed) + multiset(old(Abs()).conns.Keys)
      ensures tally.ended == old(tally.ended) + multiset(old(View()))
      ensures tally.logged == old(tally.logged)
    {
      hide TableOk, ByFd, DoubledFrom, Heads, Zip, SlotOk, Plus, TallyOne, SwapRemove;
      var i := |listeners|;
      while i < fdCount
        invariant i == |listeners| <= fdCount && Valid()
        invariant tally.logged == old(tally.logged)
        invariant tally.closed + multiset(ByFd(View()).Keys) == old(tally.closed) + multiset(old(ByFd(View())).Keys)
        invariant tally.ended + multiset(View()) == old(tally.ended) + multiset(old(View()))
        decreases fdCount
      {
        ButOne(cfg, View(), 0);
        TableOkSynced(cfg, View());
        RemoveFirst(View());
        ClosedTally(tally, View()[0]);
        CloseConn(i, 0);
        i := i - 1;
        i := i + 1;
      }
    }
  }

  /** The server from its start to its end, for any behaviour of its environment. The event
      loop leaves a state `end` that the machine reaches, so that all that holds of those
      holds of it, also when the process exits. Otherwise the shutdown follows, and then every
      accepted socket has been closed as often as it was handed out. All slots that growing
      has copied are fewer than twice the largest number of slots in use at once. */
  method RunServer(cfg: Config, listeners: seq<int>, rounds: seq<Round>)
    returns (exited: bool, ghost end: State, ghost last: State, ghost copied: nat)
    requires 1 <= |listeners| <= 2 && FreshRun(cfg, listeners, START, rounds)
    ensures Reaches(cfg, listeners, START, rounds, end) && Invariant(cfg, end) && exited == end.exited
    ensures copied == 0 || copied + INITIAL_SIZE < 2 * (|listeners| + end.peak)
    ensures exited ==> last == end
    ensures !exited ==>
              && last.conns == map[] && last.accepted == end.accepted == last.tally.closed
              && last.tally.logged == end.tally.logged
              && forall e :: e in last.tally.ended ==> EndedOk(cfg, e)
  {
    hide Reaches, FreshRun, SlotOk, EndedOk, CutOk, DoubledFrom, Heads, Zip, TableOk;
    var server := new Server(cfg, listeners);
    exited := server.EventLoop(rounds);
    end, copied := server.Abs().(exited := exited), server.copied;
    last := end;
    EveryReachableState(cfg, listeners, rounds, end);
    if !exited {
      ghost var left := server.View();
      server.Shutdown();
      last := server.Abs();
      assert last.conns == map[] && multiset(last.conns.Keys) == multiset{};
      LeftoversOk(cfg, left);
      NothingLeft(last.tally.closed, end.tally.closed, multiset(end.conns.Keys));
    }
  }

  /** Swap-removal in an array is swap-removal in the part of it that is in use. */
  lemma SliceSwap<T>(a: seq<T>, lo: nat, n: nat, i: nat)
    requires lo <= i < n <= |a|
    ensures a[i := a[n - 1]][lo..n - 1] == a[lo..n][i - lo := a[lo..n][n - lo - 1]][..n - lo - 1]
  {
  }

  lemma NothingLeft(a: multiset<int>, b: multiset<int>, c: multiset<int>)
    requires a + multiset{} == b + c
    ensures a == c + b
  {
    assert a + multiset{} == a && b + c == c + b;
  }

  lemma LeftoversOk(cfg: Config, slots: seq<Slot>)
    requires TableOk(cfg, slots)
    ensures forall e :: e in multiset(slots) ==> EndedOk(cfg, e)
  {
    hide EndedOk, SlotOk;
    forall j | 0 <= j < |slots| ensures EndedOk(cfg, slots[j]) {
      OpenSlotOk(cfg, slots[j]);
    }
  }

  lemma OpenSlotOk(cfg: Config, s: Slot)
    requires SlotOk(cfg, s)
    ensures EndedOk(cfg, s)
  {
  }

  lemma {:induction false} ByFdSize(slots: seq<Slot>)
    requires Synced(slots)
    ensures |ByFd(slots)| == |slots|
  {
    if slots != [] {
      ByFdTail(slots, 0);
      assert slots[0..] == slots;
      ByFdSize(slots[1..]);
    }
  }

  lemma RemoveFirst(slots: seq<Slot>)
    requires Synced(slots) && slots != []
    ensures var rest := SwapRemove(slots, 0);
            && multiset(ByFd(slots).Keys) == multiset(ByFd(rest).Keys) + multiset{slots[0].client.fd}
            && multiset(slots) == multiset(rest) + multiset{slots[0]}
  {
    hide SwapRemove, Synced;
    var rest, tail := SwapRemove(slots, 0), slots[1..];
    ByFdSwap(slots, 0);
    ByFdTail(slots, 0);
    assert slots[0..] == slots && rest[0..] == rest;
    KeysAdd(ByFd(tail), slots[0].client.fd, slots[0]);
    SwapContents(slots);
  }

  lemma SwapContents(slots: seq<Slot>)
    requires slots != []
    ensures multiset(slots) == multiset(SwapRemove(slots, 0)) + multiset{slots[0]}
  {
    hide SwapRemove;
    var rest, tail := SwapRemove(slots, 0), slots[1..];
    SwapSlices(slots, 0);
    assert rest[0..] == rest;
    assert slots == [slots[0]] + tail;
    if tail != [] {
      assert tail == tail[..|tail| - 1] + [tail[|tail| - 1]];
    }
  }

  lemma ClosedTally(t: Tally, s: Slot)
    ensures Plus(t, TallyOne(Service(s, Closes, None)))
         == Tally(t.closed + multiset{s.client.fd}, t.ended + multiset{s}, t.logged)
  {
  }

  lemma AdmitUnfold(s: State, listeners: seq<int>, r: Round, k: nat)
    requires r.Ready? && k < |listeners|
    ensures AdmitFrom(s, listeners, r, k) == AdmitFrom(Admit(s, Arrivals(listeners[k], r)), listeners, r, k + 1)
    ensures FreshFrom(s, listeners, r, k) ==>
              && Fresh(s, listeners, Arrivals(listeners[k], r))
              && FreshFrom(Admit(s, Arrivals(listeners[k], r)), listeners, r, k + 1)
  {
  }

  lemma AdmitDone(s: State, listeners: seq<int>, r: Round)
    requires r.Ready?
    ensures AdmitFrom(s, listeners, r, |listeners|) == s
  {
  }

  lemma SweepUnfold(cfg: Config, io: int -> Io, slots: seq<Slot>, k: nat, t: Tally)
    requires k < |slots|
    ensures var s := Serve(cfg, slots[k], io(slots[k].client.fd)); var t' := Plus(t, TallyOne(s));
            var r := SweepFrom(cfg, io, slots, k, t);
            match s.fate
            case Exits => r == Swept(slots[k := s.slot], t', true)
            case Closes => r == SweepFrom(cfg, io, SwapRemove(slots, k), k, t')
            case Stays => r == SweepFrom(cfg, io, slots[k := s.slot], k + 1, t')
  {
    hide Serve, Plus, TallyOne, SwapRemove;
  }

  lemma SweepOver(cfg: Config, io: int -> Io, slots: seq<Slot>, k: nat, t: Tally)
    requires k >= |slots|
    ensures SweepFrom(cfg, io, slots, k, t) == Swept(slots, t, false)
  {
    hide Serve;
  }

  /** The whole pass over the slots, as a step of the machine. */
  lemma SweptAll(cfg: Config, io: int -> Io, slots: seq<Slot>, s: State)
    requires Synced(slots) && s.conns == ByFd(slots)
    ensures var r := SweepFrom(cfg, io, slots, 0, s.tally);
            Serves(cfg, io, s, s.(conns := ByFd(r.slots), tally := r.tally, exited := r.exited))
  {
    hide SweepFrom, Served, TallyAll, SomeoneExits, Plus, Synced, Among;
    var done := SweepServesEach(cfg, io, slots, 0, s.tally);
    assert slots[..0] == [] && slots[0..] == slots;
    assert map[] + Served(cfg, io, s.conns, done) == Served(cfg, io, s.conns, done);
    var r := SweepFrom(cfg, io, slots, 0, s.tally);
    assert ServesUpTo(cfg, io, s, done, s.(conns := ByFd(r.slots), tally := r.tally, exited := r.exited));
  }

  lemma NewInTable(cfg: Config, slots: seq<Slot>, k: nat, fd: int, addr: Option<Address>)
    requires TableOk(cfg, slots) && k < |slots| && slots[k] == NewSlot(fd, Some(""))
    ensures TableOk(cfg, slots[k := NewSlot(fd, addr)])
  {
    hide SlotOk;
    NewSlotOk(cfg, fd, addr);
  }

  lemma NewSlotFd(fd: int)
    ensures NewSlot(fd, Some("")).client.fd == fd
  {
  }

  lemma NewSlotFd'(fd: int, addr: Option<Address>)
    ensures NewSlot(fd, addr).client.fd == fd
  {
  }

  lemma PolledTable(cfg: Config, slots: seq<Slot>, slots': seq<Slot>, revents: int -> set<PollFlag>)
    requires TableOk(cfg, slots) && |slots'| == |slots|
    requires forall j :: 0 <= j < |slots| ==> slots'[j] == Machine.Poll(slots[j], revents)
    ensures TableOk(cfg, slots') && ByFd(slots') == Polled(ByFd(slots), revents)
  {
    hide SlotOk;
    forall j | 0 <= j < |slots| ensures SlotOk(cfg, slots'[j]) {
      PollKeepsSlot(cfg, slots[j], revents);
    }
    PolledByFd(slots, slots', revents);
  }

  lemma {:induction false} PolledByFd(slots: seq<Slot>, slots': seq<Slot>, revents: int -> set<PollFlag>)
    requires |slots'| == |slots| && forall j :: 0 <= j < |slots| ==> slots'[j] == Machine.Poll(slots[j], revents)
    ensures ByFd(slots') == Polled(ByFd(slots), revents)
  {
    if slots != [] {
      PolledByFd(slots[1..], slots'[1..], revents);
    }
  }

  lemma ReaderWaits(cfg: Config, slots: seq<Slot>, k: nat)
    requires TableOk(cfg, slots) && k < |slots| && slots[k].client.state == Reading
    ensures Waiting(slots[k].client)
  {
  }

  lemma TableOkSynced(cfg: Config, slots: seq<Slot>)
    requires TableOk(cfg, slots)
    ensures Synced(slots)
  {
  }

  lemma SyncedUpdate(cfg: Config, slots: seq<Slot>, k: nat, s: Slot, io: Io)
    requires Synced(slots) && k < |slots| && slots[k] == s
    ensures Synced(slots[k := AfterRead(cfg, s, io)])
  {
    hide ReadStep;
    ReadKeepsFd(cfg, io.world, s.client, io.received);
  }

  /** A connection between the reading and the writing part of the loop body. */
  function MidPass(cfg: Config, s: Slot, io: Io): Slot {
    if POLLIN in s.pfd.revents && s.client.state == Reading then AfterRead(cfg, s, io) else s
  }

  lemma MidPassFd(cfg: Config, s: Slot, io: Io)
    ensures MidPass(cfg, s, io).client.fd == s.client.fd && MidPass(cfg, s, io).pfd.revents == s.pfd.revents
  {
    hide ReadStep;
    ReadKeepsFd(cfg, io.world, s.client, io.received);
  }

  /** `Serve` as reading, then writing. */
  lemma ServeSteps(cfg: Config, s: Slot, io: Io)
    requires s.pfd.revents != {} && !Faulty(s.pfd.revents)
    ensures var revents, m := s.pfd.revents, MidPass(cfg, s, io);
            var reading := POLLIN in revents && s.client.state == Reading;
            var writing := POLLOUT in revents && (m.client.state == SendingHeader || m.client.state == SendingBody);
            var r := WriteStep(m.client, m.wire, io.sends);
            var last := if writing then Slot(m.pfd, r.client, r.wire) else m;
            var fate := if writing && r.exited then Exits
                        else if last.client.state == ClientState.Closing then Closes else Stays;
            var text := if reading then ReadLog(cfg, io.world, s.client, io.received) else None;
            Serve(cfg, s, io) == Service(last, fate, text)
  {
    hide ReadStep, WriteStep, ReadLog;
  }

  lemma ServedTable(cfg: Config, slots: seq<Slot>, k: nat, io: int -> Io)
    requires TableOk(cfg, slots) && k < |slots|
    ensures var s := Serve(cfg, slots[k], io(slots[k].client.fd));
            && TableOkBut(cfg, slots[k := s.slot], k)
            && (s.fate == Stays ==> TableOk(cfg, slots[k := s.slot]))
  {
    hide SlotOk, Serve;
    var io' := io(slots[k].client.fd);
    ServeOutcome(cfg, slots[k], io');
    ServeKeepsFd(cfg, slots[k], io');
  }

  lemma LogTallied(cfg: Config, t: Tally, s: Slot, io: Io)
    ensures var r := Serve(cfg, s, io);
            var lines := if r.logged.Some? then multiset{(s.client.fd, r.logged.value)} else multiset{};
            Plus(t, TallyOne(Service(r.slot, Stays, r.logged))) == t.(logged := t.logged + lines)
  {
    hide Serve;
    ServeKeepsFd(cfg, s, io);
  }

  lemma TallySplit(t: Tally, s: Service)
    requires s.fate == Closes
    ensures Plus(t, TallyOne(s))
         == Plus(Plus(t, TallyOne(Service(s.slot, Stays, s.logged))), TallyOne(Service(s.slot, Closes, None)))
  {
  }

  lemma TallySame(s: Service)
    requires s.fate != Closes
    ensures TallyOne(s) == TallyOne(Service(s.slot, Stays, s.logged))
  {
  }

  lemma SwapForgets(slots: seq<Slot>, k: nat, s: Slot)
    requires k < |slots|
    ensures SwapRemove(slots[k := s], k) == SwapRemove(slots, k)
  {
    var n := |slots| - 1;
    if k < n {
      assert slots[k := s][n] == slots[n];
      assert slots[k := s][k := slots[n]] == slots[k := slots[n]];
    } else {
      assert slots[k := s][..n] == slots[..n];
    }
  }

  lemma WriteKeepsFd(c: Client, wire: string, sends: seq<int>)
    ensures WriteStep(c, wire, sends).client.fd == c.fd
  {
    SendKeepsFd(c, wire, sends);
  }

  lemma NothingTallied(t: Tally, s: Service)
    requires s.fate == Stays && s.logged.None?
    ensures Plus(t, TallyOne(s)) == t
  {
  }

  lemma ButOne(cfg: Config, slots: seq<Slot>, k: nat)
    requires TableOk(cfg, slots)
    ensures TableOkBut(cfg, slots, k)
  {
    hide SlotOk;
  }

  /** Updating slot `k` of both arrays, and the wire of its descriptor, updates the view. */
  lemma ViewUpdate(ps: seq<PollFd>, cs: seq<Client>, wire: map<int, string>, wire': map<int, string>,
                   k: nat, s: Slot)
    requires |ps| == |cs| && k < |cs| && cs[k].fd == s.client.fd && Synced(Zip(ps, cs, wire))
    requires (wire' == wire && Taken(wire, s.client.fd) == s.wire) || wire' == wire[s.client.fd := s.wire]
    ensures Zip(ps[k := s.pfd], cs[k := s.client], wire') == Zip(ps, cs, wire)[k := s]
  {
    var slots := Zip(ps, cs, wire);
    var a, b := Zip(ps[k := s.pfd], cs[k := s.client], wire'), slots[k := s];
    assert forall j :: 0 <= j < |slots| ==> slots[j].client == cs[j];
    assert forall j :: 0 <= j < |slots| && j != k ==> cs[j].fd != cs[k].fd;
    assert forall j :: 0 <= j < |a| ==> a[j] == b[j];
  }

  lemma NoneBad(cfg: Config, slots: seq<Slot>)
    requires TableOkBut(cfg, slots, -1)
    ensures TableOk(cfg, slots)
  {
    hide SlotOk;
  }

  lemma SwapRemoveOk(cfg: Config, slots: seq<Slot>, k: nat)
    requires k < |slots| && TableOkBut(cfg, slots, k)
    ensures TableOk(cfg, SwapRemove(slots, k))
  {
    hide SlotOk;
    SwapSynced(slots, k);
    var t, n := SwapRemove(slots, k), |slots|;
    assert forall j :: 0 <= j < n - 1 ==> t[j] == if j == k then slots[n - 1] else slots[j];
  }

  lemma TableAppend(cfg: Config, ps: seq<PollFd>, cs: seq<Client>, wire: map<int, string>, s: Slot)
    requires |ps| == |cs| && TableOk(cfg, Zip(ps, cs, wire)) && s.client.fd !in ByFd(Zip(ps, cs, wire))
    ensures Zip(ps + [s.pfd], cs + [s.client], wire[s.client.fd := s.wire]) == Zip(ps, cs, wire) + [s]
  {
    hide SlotOk;
    var slots := Zip(ps, cs, wire);
    ByFdHolds(slots);
    assert forall j :: 0 <= j < |slots| ==> slots[j].client == cs[j];
    ZipAppend(ps, cs, wire, s);
  }

  lemma TableOkAppend(cfg: Config, slots: seq<Slot>, fd: int)
    requires TableOk(cfg, slots) && fd !in ByFd(slots)
    ensures TableOk(cfg, slots + [NewSlot(fd, Some(""))])
  {
    hide SlotOk;
    ByFdHolds(slots);
    NewSlotOk(cfg, fd, Some(""));
  }
}
