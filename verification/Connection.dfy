/** A connection as the poll loop keeps it: one slot of `pfds` and one of `clients`. Both
    are arrays of structs in the source, so a slot holds the struct itself. */
module Connection {
  import opened Http

  datatype ClientState = Reading | Processing | SendingHeader | SendingBody | Closing

  datatype Client = Client(
    fd: int, state: ClientState, resp: Status, addr: Address,
    inBuf: string, inputCapacity: nat,
    outBuf: string, outputSent: nat,
    headerLen: nat, bodyLen: nat, fileSize: nat)

  datatype PollFlag = POLLIN | POLLOUT | POLLERR | POLLHUP | POLLNVAL

  datatype PollFd = PollFd(fd: int, events: set<PollFlag>, revents: set<PollFlag>)

  /** The record `add_to_lists` writes. */
  function NewClient(fd: int, addr: Address): Client {
    Client(fd, Reading, Unset, addr, "", 0, "", 0, 0, 0, 0)
  }
}
