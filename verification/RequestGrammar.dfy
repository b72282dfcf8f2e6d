/** Exactly which requests `parse_request` accepts, and with which code it refuses the others. */
module RequestGrammar {
  import opened CString
  import opened Http
  import opened MessageHead
  import opened RequestParser

  // ------------------------------------------------------------ printing

  function MethodToken(m: HttpMethod): string {
    match m case Get => "GET" case Post => "POST" case Head => "HEAD" case UnknownMethod => ""
  }

  function VersionToken(v: HttpVersion): string {
    match v case Http10 => "HTTP/1.0" case Http11 => "HTTP/1.1" case _ => ""
  }

  /** The requests the server is willing to serve. */
  predicate Servable(cfg: Config, req: Request) {
    && req.httpMethod in {Get, Head}
    && req.version in {Http10, Http11}
    && req.path != "" && req.path[0] == '/' && |req.path| < cfg.pathMax
    && !HasTraversal(req.path)
    && Without(req.path, ' ') && PrintableLine(req.path)
  }

  function Spaces(n: nat): (s: string)
    ensures |s| == n && Only(s, ' ')
  {
    if n == 0 then "" else " " + Spaces(n - 1)
  }

  lemma {:induction false} OnlySpaces(s: string)
    requires Only(s, ' ')
    ensures s == Spaces(|s|)
  {
    if s != "" { OnlySpaces(s[1..]); }
  }

  /** Numbers of extra spaces before, between and after the three words. */
  datatype Layout = Layout(before: nat, afterMethod: nat, afterPath: nat, after: nat)

  function LineOf(l: Layout, m: string, p: string, v: string): string {
    Spaces(l.before) + m + (" " + (Spaces(l.afterMethod) + p + (" " + (Spaces(l.afterPath) + v + Spaces(l.after)))))
  }

  function PrintLine(l: Layout, req: Request): string {
    LineOf(l, MethodToken(req.httpMethod), req.path, VersionToken(req.version))
  }

  // ------------------------------------------------- words of a laid-out line

  predicate IsWord(w: string) { w != "" && Without(w, ' ') }

  lemma LaidOutWords(l: Layout, m: string, p: string, v: string)
    requires IsWord(m) && IsWord(p) && IsWord(v)
    ensures Words(LineOf(l, m, p, v), ' ') == [m, p, v]
  {
    var r3 := Spaces(l.after);
    var s3 := Spaces(l.afterPath) + v + r3;
    var s2 := Spaces(l.afterMethod) + p + (" " + s3);
    FirstWord(Spaces(l.before), m, " " + s2, ' ');
    assert (" " + s2)[1..] == s2;
    FirstWord(Spaces(l.afterMethod), p, " " + s3, ' ');
    assert (" " + s3)[1..] == s3;
    FirstWord(Spaces(l.afterPath), v, r3, ' ');
    var tail := if r3 == "" then "" else r3[1..];
    assert tail + "" == tail;
    WordsSkip(tail, "", ' ');
  }

  /** A nonempty list of words comes from spaces, a word, and a rest that starts with a space. */
  lemma {:induction false} PeelWord(s: string) returns (n: nat, rest: string)
    requires Words(s, ' ') != []
    ensures s == Spaces(n) + Words(s, ' ')[0] + rest && IsWord(Words(s, ' ')[0])
    ensures rest == "" || rest[0] == ' '
    ensures Words(s, ' ')[1..] == Words(if rest == "" then "" else rest[1..], ' ')
  {
    if s[0] == ' ' {
      n, rest := PeelWord(s[1..]);
      OneMoreSpace(s, n, Words(s, ' ')[0], rest);
      n := n + 1;
    } else {
      var e := Run(s, ' ');
      n, rest := 0, s[e..];
      assert s == s[..e] + s[e..] == Spaces(0) + s[..e] + s[e..];
    }
  }

  lemma OneMoreSpace(s: string, n: nat, w: string, rest: string)
    requires s != "" && s[0] == ' ' && s[1..] == Spaces(n) + w + rest
    ensures s == Spaces(n + 1) + w + rest
  {
    assert s == " " + (Spaces(n) + w + rest);
  }

  lemma {:induction false} NoWordsOnlySpaces(s: string)
    requires Words(s, ' ') == []
    ensures s == Spaces(|s|)
  {
    if s != "" { NoWordsOnlySpaces(s[1..]); }
  }

  lemma ThreeWordsLaidOut(s: string) returns (l: Layout)
    requires |Words(s, ' ')| == 3
    ensures var w := Words(s, ' '); s == LineOf(l, w[0], w[1], w[2]) && IsWord(w[0]) && IsWord(w[1]) && IsWord(w[2])
  {
    var w := Words(s, ' ');
    var a, r1 := PeelWord(s);
    var s2 := r1[1..];
    assert r1 == " " + s2 && Words(s2, ' ') == w[1..];
    var b, r2 := PeelWord(s2);
    var s3 := r2[1..];
    assert r2 == " " + s3 && Words(s3, ' ') == w[2..];
    var c, r3 := PeelWord(s3);
    assert Words(if r3 == "" then "" else r3[1..], ' ') == [];
    if r3 != "" {
      NoWordsOnlySpaces(r3[1..]);
      OnlySpaces(r3);
    }
    l := Layout(a, b, c, |r3|);
  }

  // ------------------------------------------------------------ the first line

  lemma FirstLineIs(line: string, rest: string)
    requires PrintableLine(line) && StrNStr(line + CRLF + rest, BLANK_LINE).Some?
    ensures FirstLine(line + CRLF + rest) == line
  {
    hide StrNStr, PrintableLine;
    FirstCrlf(line, rest);
    LineBefore(line, CRLF + rest);
    Grouped(line, rest);
  }

  lemma LineBefore(line: string, rest: string)
    ensures (line + rest)[..|line|] == line
  {
  }

  lemma FirstLineOfPrinted(line: string, fields: seq<string>, body: string)
    requires PrintableLine(line) && forall k :: 0 <= k < |fields| ==> Without(fields[k], NUL)
    ensures var head := PrintHead([line] + fields) + body;
            StrNStr(head, BLANK_LINE).Some? && FirstLine(head) == line
  {
    hide StrNStr, PrintHead;
    assert forall k :: 0 <= k < |[line] + fields| ==> Without(([line] + fields)[k], NUL);
    BlankLineFound([line] + fields, body);
    PrintHeadCons(line, fields, body);
    FirstLineIs(line, PrintHead(fields) + body);
  }

  lemma FirstLinePrintable(head: string)
    requires StrNStr(head, BLANK_LINE).Some?
    ensures PrintableLine(FirstLine(head))
  {
    LineEnds(head);
    SearchOfPrefix(FirstLine(head), head, CRLF);
  }

  lemma LaidOutPrintable(l: Layout, m: string, p: string, v: string)
    requires Clean(m) && Clean(v)
    ensures PrintableLine(LineOf(l, m, p, v)) <==> PrintableLine(p)
  {
    var x := Spaces(l.before) + m + " " + Spaces(l.afterMethod);
    var y := " " + Spaces(l.afterPath) + v + Spaces(l.after);
    assert LineOf(l, m, p, v) == x + p + y;
    CleanAround(x, p, y);
  }

  /** A blank between two texts keeps a CR before it from meeting an LF after it. */
  lemma BlankBetween(a: string, b: string)
    requires PrintableLine(a) && PrintableLine(b)
    ensures PrintableLine(a + (" " + b))
  {
    hide StrNStr;
    var s := a + (" " + b);
    PrintableByBytes(a);
    PrintableByBytes(b);
    PrintableByBytes(s);
    assert forall k :: 0 <= k < |s| ==> s[k] == if k < |a| then a[k] else if k == |a| then ' ' else b[k - |a| - 1];
    forall k: nat ensures !CrlfAt(s, k) {
      if k < |a| { assert !CrlfAt(a, k); } else if k > |a| { assert !CrlfAt(b, k - |a| - 1); }
    }
  }

  lemma WordsPrintable(l: Layout, m: string, p: string, v: string)
    requires PrintableLine(m) && PrintableLine(p) && PrintableLine(v)
    ensures PrintableLine(LineOf(l, m, p, v))
  {
    hide PrintableLine;
    var a, b, c := Spaces(l.before), Spaces(l.afterMethod), Spaces(l.afterPath);
    CleanAround(a, m, "");
    CleanAround(b, p, "");
    CleanAround(c, v, Spaces(l.after));
    assert a + m + "" == a + m && b + p + "" == b + p;
    BlankBetween(b + p, c + v + Spaces(l.after));
    BlankBetween(a + m, b + p + (" " + (c + v + Spaces(l.after))));
  }

  // ------------------------------------------------------------ main results

  /** Parsing inverts printing: a servable request, laid out with any number of spaces and
      followed by any NUL-free lines, is accepted as itself, and `*resp` is left alone. */
  lemma PrintedIsAccepted(cfg: Config, l: Layout, req: Request, fields: seq<string>, body: string,
                          now: Timestamp, req0: Request, resp: Status)
    requires Servable(cfg, req) && forall k :: 0 <= k < |fields| ==> Without(fields[k], NUL)
    ensures Parse(cfg, PrintHead([PrintLine(l, req)] + fields) + body, now, req0, resp)
         == Parsed(true, req.(time := now), resp)
  {
    var m, v := MethodToken(req.httpMethod), VersionToken(req.version);
    TokensPrinted(req);
    LaidOutPrintable(l, m, req.path, v);
    FirstLineOfPrinted(PrintLine(l, req), fields, body);
    LaidOutWords(l, m, req.path, v);
    ServableWords(cfg, PrintHead([PrintLine(l, req)] + fields) + body, req, now, req0, resp);
  }

  /** A request without extra spaces and without header lines. */
  function PlainRequest(m: string, path: string): string {
    m + " " + AfterMethod(path)
  }

  function AfterMethod(path: string): string {
    path + " HTTP/1.0" + CRLF + CRLF
  }

  /** Such a request is a printed head, whose one line has no extra spaces. */
  lemma PlainIsPrinted(m: string, path: string)
    ensures PrintHead([LineOf(Layout(0, 0, 0, 0), m, path, "HTTP/1.0")] + []) + "" == PlainRequest(m, path)
  {
    var line := LineOf(Layout(0, 0, 0, 0), m, path, "HTTP/1.0");
    assert line == m + " " + path + " HTTP/1.0";
    assert [line] + [] == [line] && PrintHead([line]) == line + CRLF + CRLF;
  }

  lemma PlainIsAccepted(cfg: Config, req: Request)
    requires Servable(cfg, req) && req.version == Http10
    ensures StrNStr(PlainRequest(MethodToken(req.httpMethod), req.path), BLANK_LINE).Some?
    ensures Parse(cfg, PlainRequest(MethodToken(req.httpMethod), req.path), req.time, ZERO_REQUEST, Unset)
         == Parsed(true, req, Unset)
  {
    hide StrNStr, Parse, Words, FirstLine, PrintableLine, PlainRequest, PrintHead, LineOf;
    var l, m := Layout(0, 0, 0, 0), MethodToken(req.httpMethod);
    PlainIsPrinted(m, req.path);
    PrintedIsAccepted(cfg, l, req, [], "", req.time, ZERO_REQUEST, Unset);
    TokensPrinted(req);
    LaidOutPrintable(l, m, req.path, VersionToken(req.version));
    FirstLineOfPrinted(PrintLine(l, req), [], "");
  }

  lemma ServableWords(cfg: Config, head: string, req: Request, now: Timestamp, req0: Request, resp: Status)
    requires StrNStr(head, BLANK_LINE).Some? && Servable(cfg, req)
    requires Words(FirstLine(head), ' ') == [MethodToken(req.httpMethod), req.path, VersionToken(req.version)]
    ensures Parse(cfg, head, now, req0, resp) == Parsed(true, req.(time := now), resp)
  {
    TokensPrinted(req);
  }

  lemma TokensPrinted(req: Request)
    requires req.httpMethod in {Get, Head} && req.version in {Http10, Http11}
    ensures var (m, v) := (MethodToken(req.httpMethod), VersionToken(req.version));
            && IsWord(m) && Clean(m) && MethodFromToken(m) == req.httpMethod
            && IsWord(v) && Clean(v) && VersionFromToken(v) == req.version
  {
  }

  /** Printing inverts parsing: what is accepted is a servable request, and the request line
      is that request laid out with some number of spaces. */
  lemma AcceptedIsPrinted(cfg: Config, head: string, now: Timestamp, req0: Request, resp: Status) returns (l: Layout)
    requires Parse(cfg, head, now, req0, resp).ok
    ensures var req := Parse(cfg, head, now, req0, resp).req;
            Servable(cfg, req) && FirstLine(head) == PrintLine(l, req) && req.time == now
  {
    var line, req := FirstLine(head), Parse(cfg, head, now, req0, resp).req;
    var w := Words(line, ' ');
    l := ThreeWordsLaidOut(line);
    TokensRead(w[0], w[2]);
    FirstLinePrintable(head);
    LaidOutPrintable(l, w[0], w[1], w[2]);
  }

  lemma TokensRead(m: string, v: string)
    ensures MethodFromToken(m) in {Get, Head} ==> MethodToken(MethodFromToken(m)) == m && Clean(m)
    ensures VersionFromToken(v) in {Http10, Http11} ==> VersionToken(VersionFromToken(v)) == v && Clean(v)
  {
  }

  /** The grammar of acceptance: `parse_request` succeeds on exactly the heads whose first
      line is some servable request, whatever the spacing. */
  lemma AcceptsExactly(cfg: Config, head: string, now: Timestamp, req0: Request, resp: Status)
    requires StrNStr(head, BLANK_LINE).Some?
    ensures Parse(cfg, head, now, req0, resp).ok
       <==> exists l: Layout, req: Request :: Servable(cfg, req) && FirstLine(head) == PrintLine(l, req)
  {
    if Parse(cfg, head, now, req0, resp).ok {
      var l := AcceptedIsPrinted(cfg, head, now, req0, resp);
    }
    if exists l: Layout, req: Request :: Servable(cfg, req) && FirstLine(head) == PrintLine(l, req) {
      var l: Layout, req: Request :| Servable(cfg, req) && FirstLine(head) == PrintLine(l, req);
      TokensPrinted(req);
      LaidOutWords(l, MethodToken(req.httpMethod), req.path, VersionToken(req.version));
      ServableWords(cfg, head, req, now, req0, resp);
    }
  }

  /** Only the words of the first line matter: not the spacing, not the later lines. */
  lemma SpacingAndFieldsIgnored(cfg: Config, l: Layout, l': Layout, m: string, p: string, v: string,
                                fields: seq<string>, fields': seq<string>, body: string, body': string,
                                now: Timestamp, req0: Request, resp: Status)
    requires IsWord(m) && IsWord(p) && IsWord(v) && PrintableLine(m) && PrintableLine(p) && PrintableLine(v)
    requires forall k :: 0 <= k < |fields| ==> Without(fields[k], NUL)
    requires forall k :: 0 <= k < |fields'| ==> Without(fields'[k], NUL)
    ensures Parse(cfg, PrintHead([LineOf(l, m, p, v)] + fields) + body, now, req0, resp)
         == Parse(cfg, PrintHead([LineOf(l', m, p, v)] + fields') + body', now, req0, resp)
  {
    WordsPrintable(l, m, p, v);
    WordsPrintable(l', m, p, v);
    FirstLineOfPrinted(LineOf(l, m, p, v), fields, body);
    FirstLineOfPrinted(LineOf(l', m, p, v), fields', body');
    LaidOutWords(l, m, p, v);
    LaidOutWords(l', m, p, v);
  }

  // ------------------------------------------------------------ precedence

  /** The seven defects a request line can have, each judged on its own. */
  datatype Defect = WrongShape | LongPath | NoSlash | StrangeVersion | OldOrNewVersion | Traversal | OtherMethod

  const CHECKS: seq<Defect> := [WrongShape, LongPath, NoSlash, StrangeVersion, OldOrNewVersion, Traversal, OtherMethod]

  predicate Has(cfg: Config, w: seq<string>, d: Defect) {
    match d
    case WrongShape => |w| != 3
    case LongPath => |w| == 3 && |w[1]| >= cfg.pathMax
    case NoSlash => |w| == 3 && !("/" <= w[1])
    case StrangeVersion => |w| == 3 && w[2] !in {"HTTP/1.0", "HTTP/1.1", "HTTP/0.9", "HTTP/2.0", "HTTP/3.0"}
    case OldOrNewVersion => |w| == 3 && w[2] in {"HTTP/0.9", "HTTP/2.0", "HTTP/3.0"}
    case Traversal => |w| == 3 && StrNStr(w[1], "../").Some?
    case OtherMethod => |w| == 3 && w[0] !in {"GET", "HEAD"}
  }

  function Code(d: Defect): Status {
    match d
    case WrongShape => BadRequest
    case LongPath => UriTooLong
    case NoSlash => BadRequest
    case StrangeVersion => BadRequest
    case OldOrNewVersion => VersionNotSupported
    case Traversal => Forbidden
    case OtherMethod => NotImplemented
  }

  /** A line is refused with the code of the first defect in the list that it has, and a 400
      erases method and version; a line without defects is accepted. */
  lemma FirstDefectDecides(cfg: Config, head: string, now: Timestamp, req0: Request, resp: Status, k: nat)
    requires StrNStr(head, BLANK_LINE).Some? && k <= |CHECKS|
    requires forall j :: 0 <= j < k ==> !Has(cfg, Words(FirstLine(head), ' '), CHECKS[j])
    requires k < |CHECKS| ==> Has(cfg, Words(FirstLine(head), ' '), CHECKS[k])
    ensures var p := Parse(cfg, head, now, req0, resp);
            && p.ok == (k == |CHECKS|)
            && p.resp == (if k < |CHECKS| then Code(CHECKS[k]) else resp)
            && (if k < |CHECKS| && Code(CHECKS[k]) == BadRequest
                then p.req.httpMethod == UnknownMethod && p.req.version == UnknownVersion
                else var w := Words(FirstLine(head), ' ');
                     p.req.httpMethod == MethodFromToken(w[0]) && p.req.version == VersionFromToken(w[2]))
  {
    var w := Words(FirstLine(head), ' ');
    assert CHECKS[0] == WrongShape && CHECKS[1] == LongPath && CHECKS[2] == NoSlash && CHECKS[3] == StrangeVersion;
    assert CHECKS[4] == OldOrNewVersion && CHECKS[5] == Traversal && CHECKS[6] == OtherMethod;
    assert |w| == 3 ==> ("/" <= w[1] <==> w[1] != "" && w[1][0] == '/');
  }
}
