/** The request line: section 5.1 of RFC 1945, as the server reads it. */
module RequestParser {
  import opened Wrappers
  import opened CString
  import opened Http
  import opened Logging

  /** The line before the first CRLF of a head that holds a blank line. */
  function FirstLine(head: string): (line: string)
    requires StrNStr(head, BLANK_LINE).Some?
    ensures |line| + 4 <= |head| && NUL !in line && line <= head
  {
    LineEnds(head);
    head[..StrNStr(head, CRLF).value]
  }

  lemma LineEnds(head: string)
    requires StrNStr(head, BLANK_LINE).Some?
    ensures var r := StrNStr(head, CRLF); r.Some? && r.value <= StrNStr(head, BLANK_LINE).value
  {
    var k := StrNStr(head, BLANK_LINE).value;
    assert head[k..k + 2] == head[k..k + 4][..2] == CRLF;
    assert OccursAt(head, CRLF, k);
  }

  predicate HasTraversal(path: string) {
    StrNStr(path, "../").Some?
  }

  /** Why a request line with these words is refused; None when it is accepted. */
  function Verdict(cfg: Config, w: seq<string>): Option<Status>
  {
    if |w| != 3 then Some(BadRequest)
    else
      var (path, version) := (w[1], VersionFromToken(w[2]));
      if |path| >= cfg.pathMax then Some(UriTooLong)
      else if path == "" || path[0] != '/' || version == UnknownVersion then Some(BadRequest)
      else if version == UnsupportedVersion then Some(VersionNotSupported)
      else if HasTraversal(path) then Some(Forbidden)
      else if MethodFromToken(w[0]) !in {Get, Head} then Some(NotImplemented)
      else None
  }

  datatype Parsed = Parsed(ok: bool, req: Request, resp: Status)

  /** What `parse_request` leaves in `*out` and `*resp`. A 400 erases method and version. */
  function Parse(cfg: Config, head: string, now: Timestamp, req: Request, resp: Status): Parsed {
    if StrNStr(head, BLANK_LINE).None? then
      Parsed(false, req.(httpMethod := UnknownMethod, version := UnknownVersion), BadRequest)
    else
      var w := Words(FirstLine(head), ' ');
      var v := Verdict(cfg, w);
      var path := if |w| != 3 then req.path else if |w[1]| < cfg.pathMax then w[1] else w[1][..cfg.pathMax - 1];
      Parsed(v.None?,
             if v == Some(BadRequest) then Request(UnknownMethod, UnknownVersion, now, path)
             else Request(MethodFromToken(w[0]), VersionFromToken(w[2]), now, path),
             v.GetOr(resp))
  }

  // ------------------------------------------------------------ the code

  /** The tokens at offsets `toks` are the first words of `line`; the rest is still unsplit. */
  ghost predicate SplitSoFar(line: string, now: string, next: nat, stop: nat, d: char, toks: seq<nat>) {
    && CStringAt(now, next, stop)
    && (forall k :: 0 <= k < |toks| ==> TokenEndsBy(now, toks[k], next))
    && Words(line, d) == Texts(now, toks) + Words(now[next..stop], d)
  }

  ghost function Texts(now: string, toks: seq<nat>): (ts: seq<string>)
    ensures |ts| == |toks|
  {
    if toks == [] then [] else Texts(now, toks[..|toks| - 1]) + [CStr(now, toks[|toks| - 1])]
  }

  lemma {:induction false} TextsKept(was: string, now: string, start: nat, stop: nat, d: char,
                                     tok: Option<nat>, next: nat, toks: seq<nat>)
    requires Tokenised(was, now, start, stop, d, tok, next)
    requires forall k :: 0 <= k < |toks| ==> TokenEndsBy(was, toks[k], start)
    ensures Texts(now, toks) == Texts(was, toks)
    ensures forall k :: 0 <= k < |toks| ==> TokenEndsBy(now, toks[k], next)
  {
    if toks != [] {
      TextsKept(was, now, start, stop, d, tok, next, toks[..|toks| - 1]);
      TokenKept(was, now, start, stop, d, tok, next, toks[|toks| - 1]);
    }
  }

  lemma TextsAppend(now: string, toks: seq<nat>, t: nat)
    ensures Texts(now, toks + [t]) == Texts(now, toks) + [CStr(now, t)]
  {
    assert (toks + [t])[..|toks|] == toks;
  }

  lemma Regroup<T>(a: seq<T>, x: T, b: seq<T>)
    ensures a + ([x] + b) == a + [x] + b
  {
  }

  lemma SplitStep(line: string, was: string, now: string, start: nat, stop: nat, d: char, toks: seq<nat>,
                  tok: Option<nat>, next: nat)
    requires SplitSoFar(line, was, start, stop, d, toks)
    requires Tokenised(was, now, start, stop, d, tok, next)
    ensures SplitSoFar(line, now, next, stop, d, if tok.Some? then toks + [tok.value] else toks)
    ensures |Words(line, d)| >= |if tok.Some? then toks + [tok.value] else toks|
    ensures tok.None? ==> |Words(line, d)| == |toks|
  {
    TextsKept(was, now, start, stop, d, tok, next, toks);
    if tok.Some? {
      TextsAppend(now, toks, tok.value);
      Regroup(Texts(now, toks), CStr(now, tok.value), Words(now[next..stop], d));
    } else {
      assert now[next..stop] == "";
    }
  }

  lemma Unsplit(line: string, now: string, d: char)
    requires |line| < |now| && now[..|line|] == line && CStringAt(now, 0, |line|)
    ensures SplitSoFar(line, now, 0, |line|, d, [])
  {
    assert now[0..|line|] == line;
  }

  lemma ThreeWords(line: string, now: string, next: nat, toks: seq<nat>)
    requires SplitSoFar(line, now, next, |line|, ' ', toks) && |Words(line, ' ')| == |toks| == 3
    ensures Words(line, ' ') == [CStr(now, toks[0]), CStr(now, toks[1]), CStr(now, toks[2])]
  {
    assert toks[..2] == [toks[0], toks[1]] && toks[..2][..1] == [toks[0]] && toks[..2][..1][..0] == [];
    assert Texts(now, toks[..2][..1]) == [CStr(now, toks[0])];
    assert Texts(now, toks[..2]) == [CStr(now, toks[0]), CStr(now, toks[1])];
  }

  /** One `strtok` call on the line buffer. */
  method NextToken(buf: array<char>, start: nat, ghost line: string, ghost toks: seq<nat>)
    returns (tok: Option<nat>, next: nat, ghost found: seq<nat>)
    requires SplitSoFar(line, buf[..], start, |line|, ' ', toks)
    modifies buf
    ensures SplitSoFar(line, buf[..], next, |line|, ' ', found)
    ensures found == if tok.Some? then toks + [tok.value] else toks
    ensures |Words(line, ' ')| >= |found| && (tok.None? ==> |Words(line, ' ')| == |found|)
  {
    ghost var was := buf[..];
    tok, next := StrTok(buf, start, ' ', |line|);
    found := if tok.Some? then toks + [tok.value] else toks;
    SplitStep(line, was, buf[..], start, |line|, ' ', toks, tok, next);
  }

  /** The four `strtok` calls: the offsets of the first four words of the line, the first
      three still readable as C strings after all the calls. */
  method SplitLine(buf: array<char>, ghost line: string)
    returns (a: Option<nat>, b: Option<nat>, c: Option<nat>, extra: Option<nat>)
    requires |line| < buf.Length && buf[..|line|] == line && CStringAt(buf[..], 0, |line|)
    modifies buf
    ensures a.Some? && b.Some? && c.Some? && extra.None? <==> |Words(line, ' ')| == 3
    ensures a.Some? && b.Some? && c.Some? && extra.None? ==>
              && Words(line, ' ') == [CStr(buf[..], a.value), CStr(buf[..], b.value), CStr(buf[..], c.value)]
  {
    hide Words, CStr, Texts, StrEnd;
    Unsplit(line, buf[..], ' ');
    ghost var t1, t2, t3, t4;
    var n1, n2, n3, n4;
    a, n1, t1 := NextToken(buf, 0, line, []);
    b, n2, t2 := NextToken(buf, n1, line, t1);
    c, n3, t3 := NextToken(buf, n2, line, t2);
    extra, n4, t4 := NextToken(buf, n3, line, t3);
    if a.Some? && b.Some? && c.Some? && extra.None? {
      ThreeWords(line, buf[..], n4, t4);
    }
  }

  /** The checks on the three words, in the order the code makes them. */
  method CheckWords(cfg: Config, methodTok: string, pathTok: string, versionTok: string, req0: Request, resp0: Status)
    returns (ok: bool, req: Request, resp: Status)
    ensures var v := Verdict(cfg, [methodTok, pathTok, versionTok]);
            && ok == v.None?
            && resp == v.GetOr(resp0)
            && req.time == req0.time
            && req.path == (if |pathTok| < cfg.pathMax then pathTok else pathTok[..cfg.pathMax - 1])
            && (v == Some(BadRequest) ==> req.httpMethod == UnknownMethod && req.version == UnknownVersion)
            && (v != Some(BadRequest) ==>
                  req.httpMethod == MethodFromToken(methodTok) && req.version == VersionFromToken(versionTok))
  {
    ok, req, resp := false, req0, resp0;
    req := req.(httpMethod := MethodFromToken(methodTok), version := VersionFromToken(versionTok));
    var pathLen := |pathTok|;
    req := req.(path := if pathLen < cfg.pathMax then pathTok else pathTok[..cfg.pathMax - 1]);
    if pathLen >= cfg.pathMax {
      resp := UriTooLong;
      return;
    }
    if req.path == "" || req.path[0] != '/' || req.version == UnknownVersion {
      resp := BadRequest;
      req := req.(httpMethod := UnknownMethod, version := UnknownVersion);
      return;
    }
    if req.version == UnsupportedVersion {
      resp := VersionNotSupported;
      return;
    }
    if HasTraversal(req.path) {
      resp := Forbidden;
      return;
    }
    if req.httpMethod == UnknownMethod || req.httpMethod == Post {
      resp := NotImplemented;
      return;
    }
    ok := true;
  }

  /** The `memcpy` of the line into `line_buf`, and its NUL. */
  method CopyLine(head: string, n: nat) returns (buf: array<char>)
    requires n <= |head| && n <= MAX_REQUEST_SIZE
    ensures fresh(buf) && buf.Length == MAX_REQUEST_SIZE + 1 && buf[..n] == head[..n] && buf[n] == NUL
  {
    buf := new char[MAX_REQUEST_SIZE + 1](_ => NUL);
    forall k | 0 <= k < n { buf[k] := head[k]; }
    buf[n] := NUL;
  }

  /** `parse_request`: copies the line, splits it in place, and classifies its words. */
  method ParseRequest(cfg: Config, head: string, now: Timestamp, req0: Request, resp0: Status, le: LogEntry)
    returns (ok: bool, req: Request, resp: Status)
    requires |head| <= MAX_REQUEST_SIZE && le.Valid() && le.offset <= 46
    modifies le, le.buf
    ensures Parsed(ok, req, resp) == Parse(cfg, head, now, req0, resp0)
    ensures le.Valid() && le.Contents() == old(le.Contents()) + RequestLog(cfg, head, now)
  {
    hide Words, StrEnd, CString.Run;
    ok, req, resp := false, req0, resp0;
    var blank := StrNStr(head, BLANK_LINE);
    if blank.None? {
      resp := BadRequest;
      req := req.(httpMethod := UnknownMethod, version := UnknownVersion);
      return;
    }
    req := req.(time := now);

    var firstLine := StrNStr(head, CRLF);
    var lineLength := if firstLine.Some? then firstLine.value else |head|;
    LineEnds(head);
    ghost var line := FirstLine(head);
    var lineBuf := CopyLine(head, lineLength);
    LineBytes(head, lineBuf[..], lineLength);

    if cfg.logging {
      LogLineFits("", now, line, Unset, 0);
      le.Append(RequestText(now, CStr(lineBuf[..], 0)));
    }

    var a, b, c, extra := SplitLine(lineBuf, line);
    ghost var w := Words(line, ' ');
    if a.Some? && b.Some? && c.Some? && extra.None? {
      ok, req, resp := CheckWords(cfg, CStr(lineBuf[..], a.value), CStr(lineBuf[..], b.value),
                                  CStr(lineBuf[..], c.value), req, resp);
    } else {
      assert |w| != 3;
      resp := BadRequest;
      req := req.(httpMethod := UnknownMethod, version := UnknownVersion);
    }
  }

  ghost function RequestLog(cfg: Config, head: string, now: Timestamp): string {
    if cfg.logging && StrNStr(head, BLANK_LINE).Some? then RequestText(now, FirstLine(head)) else ""
  }

  lemma LineBytes(head: string, b: string, n: nat)
    requires StrNStr(head, BLANK_LINE).Some? && n == |FirstLine(head)| < |b|
    requires b[..n] == FirstLine(head) && b[n] == NUL
    ensures CStringAt(b, 0, n) && CStr(b, 0) == FirstLine(head)
  {
    assert forall k :: 0 <= k < n ==> b[k] == FirstLine(head)[k];
    CStringIs(b, 0, n);
    assert b[0..n] == b[..n];
  }
}
