/** One log line, assembled piece by piece in a fixed buffer. */
module Logging {
  import opened CString
  import opened Http
  import opened Numbers

  const LOG_BUF_SIZE: nat := MAX_REQUEST_SIZE + 128

  class LogEntry {
    const buf: array<char>
    var offset: nat

    ghost predicate Valid()
      reads this, buf
    {
      buf.Length == LOG_BUF_SIZE && offset < LOG_BUF_SIZE && buf[offset] == NUL
    }

    ghost function Contents(): string
      reads this, buf
      requires Valid()
    {
      buf[..offset]
    }

    constructor ()
      ensures Valid() && fresh(buf) && Contents() == ""
    {
      buf := new char[LOG_BUF_SIZE](_ => NUL);
      offset := 0;
    }

    /** `vsnprintf` writes what fits and a NUL, but reports the untruncated length. */
    method Append(text: string)
      requires Valid()
      modifies this, buf
      ensures offset == old(offset) + |text|
      ensures offset < LOG_BUF_SIZE ==> Valid() && Contents() == old(Contents()) + text
      ensures offset >= LOG_BUF_SIZE ==>
                buf[..] == old(Contents()) + text[..LOG_BUF_SIZE - 1 - old(offset)] + [NUL]
    {
      var room := buf.Length - offset;
      var n := if |text| < room then |text| else room - 1;
      ghost var before := buf[..];
      forall k | 0 <= k < n { buf[offset + k] := text[k]; }
      buf[offset + n] := NUL;
      assert buf[..offset] == before[..offset];
      assert buf[offset..offset + n] == text[..n];
      offset := offset + |text|;
    }
  }

  function PeerText(addr: Address): string { addr + " " }

  function RequestText(time: Timestamp, line: string): string { time + " \"" + line + "\" " }

  function StatusText(resp: Status, bodyLen: nat): string {
    StatusString(resp) + " " + Signed(AsInt32(bodyLen)) + "\n"
  }

  /** The three pieces of one request's log line fit the buffer with room to spare, so
      `LOG_BUF_SIZE - offset` never wraps round and nothing is cut off. */
  lemma LogLineFits(addr: Address, time: Timestamp, line: string, resp: Status, bodyLen: nat)
    requires |line| <= MAX_REQUEST_SIZE - 4
    ensures |PeerText(addr)| <= 46
    ensures |PeerText(addr)| + |RequestText(time, line)| <= 8269
    ensures |PeerText(addr)| + |RequestText(time, line)| + |StatusText(resp, bodyLen)| <= 8285 < LOG_BUF_SIZE
  {
    Int32Width(bodyLen);
  }
}
