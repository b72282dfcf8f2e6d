/** Sending a response. */
module Writing {
  import opened Connection

  /** The outcome of `do_write`: the client, and all bytes the kernel has taken from it so
      far. When a `send` fails the process exits, and `exited` is set. */
  datatype Written = Written(client: Client, wire: string, exited: bool)

  /** The `send` loop on the results of the calls; a call can take no more than it is given,
      and running out of results means that the next call fails. */
  function Send(c: Client, wire: string, sends: seq<int>): Written
    decreases |sends|
  {
    if c.outputSent >= |c.outBuf| then Written(c.(state := Closing), wire, false)
    else if sends == [] || sends[0] <= 0 then Written(c, wire, true)
    else
      var rest := |c.outBuf| - c.outputSent;
      var n := if sends[0] < rest then sends[0] else rest;
      Send(c.(outputSent := c.outputSent + n), wire + c.outBuf[c.outputSent..c.outputSent + n], sends[1..])
  }

  function WriteStep(c: Client, wire: string, sends: seq<int>): Written {
    if c.outBuf == "" then Written(c.(state := Closing), wire, false) else Send(c, wire, sends)
  }

  /** The calls, up to the first failure, take at least `need` bytes. */
  predicate Suffices(sends: seq<int>, need: int) {
    need <= 0 || (sends != [] && sends[0] > 0 && Suffices(sends[1..], need - sends[0]))
  }

  /** Whatever the sizes of the partial sends, the bytes go out in order: all of them, and the
      client closes, exactly when the calls suffice; otherwise the process exits with a proper
      part of the rest sent. */
  lemma {:induction false} SentInOrder(c: Client, wire: string, sends: seq<int>)
    requires c.outputSent <= |c.outBuf|
    ensures var r := Send(c, wire, sends);
            && c.outputSent <= r.client.outputSent <= |c.outBuf|
            && r.wire == wire + c.outBuf[c.outputSent..r.client.outputSent]
            && r.exited == !Suffices(sends, |c.outBuf| - c.outputSent)
            && (if r.exited then r.client.outputSent < |c.outBuf| && r.client == c.(outputSent := r.client.outputSent)
                else r.client == c.(outputSent := |c.outBuf|, state := Closing))
    decreases |sends|
  {
    if c.outputSent < |c.outBuf| && sends != [] && sends[0] > 0 {
      var rest := |c.outBuf| - c.outputSent;
      var n := if sends[0] < rest then sends[0] else rest;
      var piece := c.outBuf[c.outputSent..c.outputSent + n];
      var c' := c.(outputSent := c.outputSent + n);
      SentInOrder(c', wire + piece, sends[1..]);
      var r := Send(c', wire + piece, sends[1..]);
      Pieces(wire, c.outBuf, c.outputSent, c'.outputSent, r.client.outputSent);
    }
  }

  lemma Pieces(wire: string, s: string, i: nat, j: nat, k: nat)
    requires i <= j <= k <= |s|
    ensures wire + s[i..j] + s[j..k] == wire + s[i..k]
  {
    assert s[i..j] + s[j..k] == s[i..k];
  }

  /** `do_write`; `wire` is what the kernel has already taken from this connection. */
  method DoWrite(clients: array<Client>, i: nat, ghost wire: string, sends: seq<int>)
    returns (exited: bool, ghost wire': string)
    requires i < clients.Length
    modifies clients
    ensures var r := WriteStep(old(clients[i]), wire, sends);
            && clients[..] == old(clients[..])[i := r.client] && wire' == r.wire && exited == r.exited
  {
    wire' := wire;
    if clients[i].outBuf == "" {
      clients[i] := clients[i].(state := Closing);
      return false, wire';
    }
    var k := 0;
    while clients[i].outputSent < |clients[i].outBuf|
      invariant k <= |sends|
      invariant clients[..] == old(clients[..])[i := clients[i]]
      invariant Send(old(clients[i]), wire, sends) == Send(clients[i], wire', sends[k..])
      decreases |sends| - k
    {
      if k == |sends| || sends[k] <= 0 {
        return true, wire';
      }
      var rest := |clients[i].outBuf| - clients[i].outputSent;
      var n := if sends[k] < rest then sends[k] else rest;
      assert sends[k..][1..] == sends[k + 1..];
      wire' := wire' + clients[i].outBuf[clients[i].outputSent..clients[i].outputSent + n];
      clients[i] := clients[i].(outputSent := clients[i].outputSent + n);
      k := k + 1;
    }
    clients[i] := clients[i].(state := Closing);
    return false, wire';
  }
}
