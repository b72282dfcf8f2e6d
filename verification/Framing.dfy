/** What a recipient makes of the staged bytes (sections 6, 7.2.2, 8.2 and 10.4 of RFC 1945). */
module Framing {
  import opened Wrappers
  import opened CString
  import opened Numbers
  import opened Http
  import opened MessageHead
  import opened RequestParser
  import opened World
  import opened PathResolver
  import opened Responses

  /** A message as a recipient decodes it: the lines of its head, and as many bytes of what
      follows as Content-Length announces. */
  datatype Message = Message(lines: seq<string>, body: string)

  function Decode(out: string): Option<Message> {
    match ReadHead(out)
    case None => None
    case Some((lines, rest)) =>
      match FieldValue(lines, "Content-Length")
      case None => None
      case Some(v) =>
        match ReadDecimal(v)
        case None => None
        case Some(n) => if n <= |rest| then Some(Message(lines, rest[..n])) else None
  }

  // ------------------------------------------------------------ heads

  /** The optional lines between Server and Content-Type. */
  predicate ExtraOk(extra: seq<string>) {
    extra == [] || (|extra| == 1 && Clean(extra[0]) && "Last-Modified: " <= extra[0])
  }

  lemma CleanAppend(s: string, t: string)
    requires Clean(s) && Clean(t)
    ensures Clean(s + t)
  {
  }

  lemma StatusLineClean(resp: Status)
    ensures Clean(StatusLine(resp))
  {
    match resp
    case Ok => assert Clean("200 OK");
    case BadRequest => assert Clean("400 Bad Request");
    case Forbidden => assert Clean("403 Forbidden");
    case NotFound => assert Clean("404 Not Found");
    case UriTooLong => assert Clean("414 URI Too Long");
    case ServerError => assert Clean("500 Internal Server Error");
    case NotImplemented => assert Clean("501 Not Implemented");
    case VersionNotSupported => assert Clean("505 HTTP Version Not Supported");
    case Unset =>
  }

  lemma StatusLineCode(resp: Status)
    requires resp != Unset
    ensures |StatusLine(resp)| > 3 && StatusLine(resp)[..3] == StatusString(resp)
  {
  }

  lemma DecimalClean(n: nat)
    ensures Clean(Decimal(n))
  {
  }

  lemma HeadLinesProper(resp: Status, time: Timestamp, extra: seq<string>, mime: FieldText, n: nat)
    requires ExtraOk(extra)
    ensures ProperLines(HeadLines(resp, time, extra, mime, n))
  {
    StatusLineClean(resp);
    CleanAppend("HTTP/1.0 ", StatusLine(resp));
    CleanAppend("Date: ", time);
    CleanAppend("Server: ", SERVER_VERSION);
    CleanAppend("Content-Type: ", mime);
    DecimalClean(n);
    CleanAppend("Content-Length: ", Decimal(n));
    var a := ["HTTP/1.0 " + StatusLine(resp), "Date: " + time, "Server: " + SERVER_VERSION];
    var b := ["Content-Type: " + mime, "Content-Length: " + Decimal(n), "Connection: close"];
    ProperJoin(a, extra);
    ProperJoin(a + extra, b);
  }

  lemma ProperJoin(a: seq<string>, b: seq<string>)
    requires ProperLines(a) && ProperLines(b)
    ensures ProperLines(a + b)
  {
  }

  ghost predicate NoField(lines: seq<string>, name: string) {
    forall k :: 0 <= k < |lines| ==> !(name + ": " <= lines[k])
  }

  lemma {:induction false} SkipLines(before: seq<string>, lines: seq<string>, name: string)
    requires NoField(before, name)
    ensures FieldValue(before + lines, name) == FieldValue(lines, name)
  {
    if before == [] {
      assert before + lines == lines;
    } else {
      assert (before + lines)[1..] == before[1..] + lines;
      SkipLines(before[1..], lines, name);
    }
  }

  lemma OtherField(line: string, name: string, k: nat)
    requires k < |name| && k < |line| && line[k] != name[k]
    ensures !(name + ": " <= line)
  {
  }

  lemma ContentLengthPrinted(resp: Status, time: Timestamp, extra: seq<string>, mime: string, n: nat)
    requires ExtraOk(extra)
    ensures FieldValue(HeadLines(resp, time, extra, mime, n), "Content-Length") == Some(Decimal(n))
  {
    hide StatusLine, Decimal, FieldValue;
    var name := "Content-Length";
    var first := ["HTTP/1.0 " + StatusLine(resp), "Date: " + time, "Server: " + SERVER_VERSION];
    var kind, length := "Content-Type: " + mime, "Content-Length: " + Decimal(n);
    OtherField(first[0], name, 0);
    OtherField(first[1], name, 0);
    OtherField(first[2], name, 0);
    if extra != [] { OtherField(extra[0], name, 0); }
    OtherField(kind, name, 8);
    var before, last := first + extra + [kind], [length, "Connection: close"];
    SkipLines(before, last, name);
    assert HeadLines(resp, time, extra, mime, n) == before + last;
    LengthFirst(n);
  }

  lemma LengthFirst(n: nat)
    ensures FieldValue(["Content-Length: " + Decimal(n), "Connection: close"], "Content-Length") == Some(Decimal(n))
  {
    var name, line := "Content-Length", "Content-Length: " + Decimal(n);
    assert name + ": " == "Content-Length: ";
    assert line[|name| + 2..] == Decimal(n);
  }

  /** A printed head followed by `body`, with Content-Length `n`: the recipient gets back the
      lines and the body exactly when `n` is the length of the body; it always finds the end
      of the head, at the first blank line. */
  lemma PrintedResponse(resp: Status, time: Timestamp, extra: seq<string>, mime: FieldText, n: nat, body: string)
    requires ExtraOk(extra)
    ensures var lines := HeadLines(resp, time, extra, mime, n); var out := PrintHead(lines) + body;
            && (Decode(out) == Some(Message(lines, body)) <==> n == |body|)
            && ReadHead(out) == Some((lines, body))
            && |PrintHead(lines)| >= 4 && StrNStr(out, BLANK_LINE) == Some(|PrintHead(lines)| - 4)
  {
    hide StatusLine, PrintHead, ReadHead, FieldValue, Decimal, ReadDecimal;
    var lines := HeadLines(resp, time, extra, mime, n);
    HeadLinesProper(resp, time, extra, mime, n);
    ReadPrinted(lines, body);
    BlankLineExact(lines, body);
    ContentLengthPrinted(resp, time, extra, mime, n);
    DecimalRoundTrip(n);
    if n < |body| { assert |body[..n]| < |body|; }
    if n == |body| { assert body[..n] == body; }
  }

  // ------------------------------------------------------------ every staged response

  /** The response a request deserves, before any byte is printed: `announced` is the
      Content-Length, `omitBody` tells that a HEAD request gets the head alone. */
  datatype Answer = Answer(resp: Status, extra: seq<string>, mime: FieldText, announced: nat, body: string,
                           omitBody: bool)

  function ErrorAnswer(resp: Status, req: Request): Answer {
    ErrorMimeClean(resp);
    Answer(resp, [], ErrorMime(resp), |ErrorBody(resp)|, ErrorBody(resp), req.httpMethod == Head)
  }

  lemma ErrorMimeClean(resp: Status)
    ensures Clean(ErrorMime(resp))
  {
  }

  function OkayAnswer(cfg: Config, w: World, rp: ResolvedPath, req: Request): Answer
    requires OkayPage(cfg, w, rp, req).Built?
  {
    match rp.pathType
    case IsFile =>
      Answer(Ok, LastModified(rp.modTime.value), rp.mime, rp.fileSize, rp.content, req.httpMethod == Head)
    case IsDir =>
      var body := ListingBody(Items(cfg, ListedDir(req.path), w.dirs[ListedDir(req.path)]));
      Answer(Ok, LastModified(rp.modTime.value), "text/html", |body|, body, req.httpMethod == Head)
    case IsCgi =>
      var body := PipeOutput(w.scripts[ScriptFile(req.path)].output).value;
      Answer(Ok, [], "text/html", |body|, body, false)
  }

  function ParsedAnswer(cfg: Config, w: World, p: Parsed): Answer {
    if !p.ok then ErrorAnswer(p.resp, p.req)
    else
      match Resolve(cfg, w, p.req.path)
      case Unresolved(s) => ErrorAnswer(s, p.req)
      case Found(rp) =>
        match OkayPage(cfg, w, rp, p.req)
        case Built(_, _, _) => OkayAnswer(cfg, w, rp, p.req)
        case Failed(s) => ErrorAnswer(if s == Ok then ServerError else s, p.req)
  }

  function AnswerTo(cfg: Config, w: World, head: string): Answer {
    ParsedAnswer(cfg, w, Parse(cfg, head, w.now, ZERO_REQUEST, Unset))
  }

  function AnswerLines(time: Timestamp, a: Answer): seq<string> {
    HeadLines(a.resp, time, a.extra, a.mime, a.announced)
  }

  function PrintAnswer(time: Timestamp, a: Answer): string {
    PrintHead(AnswerLines(time, a)) + if a.omitBody then "" else a.body
  }

  /** The staged bytes are the printed answer, `header_len` is where its body starts. */
  ghost predicate Prints(s: Staged, time: Timestamp, a: Answer) {
    && s.resp == a.resp && a.resp != Unset && ExtraOk(a.extra)
    && s.out == PrintAnswer(time, a) && s.headerLen == |PrintHead(AnswerLines(time, a))|
    && (!a.omitBody ==> s.bodyLen == |a.body|)
  }

  lemma ErrorStagePrints(w: World, resp: Status, req: Request, headerLen: nat)
    requires IsError(resp) && ErrorStage(w, resp, req, headerLen).out != ""
    ensures Prints(ErrorStage(w, resp, req, headerLen), req.time, ErrorAnswer(resp, req))
  {
    hide StatusLine, StatusString, PrintHead, ErrorBody, ErrorMime;
    var head := PrintHead(AnswerLines(req.time, ErrorAnswer(resp, req)));
    assert head + "" == head;
  }

  lemma OkayPagePrints(cfg: Config, w: World, rp: ResolvedPath, req: Request)
    requires OkayPage(cfg, w, rp, req).Built?
    ensures var b := OkayPage(cfg, w, rp, req);
            Prints(Staged(Ok, b.out, b.headerLen, b.bodyLen, rp.fileSize), req.time, OkayAnswer(cfg, w, rp, req))
  {
    var head := PrintHead(AnswerLines(req.time, OkayAnswer(cfg, w, rp, req)));
    assert head + "" == head;
  }

  lemma ParsedStagePrints(cfg: Config, w: World, p: Parsed, headerLen: nat)
    requires ParsedStage(cfg, w, p, headerLen).out != "" && (!p.ok ==> IsError(p.resp))
    ensures Prints(ParsedStage(cfg, w, p, headerLen), p.req.time, ParsedAnswer(cfg, w, p))
  {
    if !p.ok {
      ErrorStagePrints(w, p.resp, p.req, headerLen);
    } else {
      match Resolve(cfg, w, p.req.path)
      case Unresolved(s) => ErrorStagePrints(w, s, p.req, headerLen);
      case Found(rp) =>
        match OkayPage(cfg, w, rp, p.req)
        case Built(_, _, _) => OkayPagePrints(cfg, w, rp, p.req);
        case Failed(s) =>
          OkayFailure(cfg, w, rp, p.req);
          ErrorStagePrints(w, if s == Ok then ServerError else s, p.req, 0);
    }
  }

  /** A builder that gives up says 414, 500 or 501, or leaves the 200 that becomes a 500. */
  lemma OkayFailure(cfg: Config, w: World, rp: ResolvedPath, req: Request)
    ensures var b := OkayPage(cfg, w, rp, req); b.Failed? ==> b.status in {Ok, UriTooLong, ServerError, NotImplemented}
  {
  }

  /** What a recipient can rely on: the head decodes to the lines of the answer, the status
      line carries the staged (and logged) status, the head ends at the first blank line,
      `header_len` bytes in, and what follows is the intended body. A recipient that trusts
      Content-Length gets exactly that body if and only if that is the body's length. */
  ghost predicate Framed(s: Staged, time: Timestamp, a: Answer) {
    var lines := AnswerLines(time, a);
    && s.resp != Unset && 4 <= s.headerLen <= |s.out|
    && 12 <= |lines[0]| && lines[0][9..12] == StatusString(s.resp)
    && StrNStr(s.out, BLANK_LINE) == Some(s.headerLen - 4)
    && ReadHead(s.out) == Some((lines, s.out[s.headerLen..]))
    && s.out[s.headerLen..] == (if a.omitBody then "" else a.body)
    && (!a.omitBody ==> s.bodyLen == |a.body|)
    && (!a.omitBody ==> (Decode(s.out) == Some(Message(lines, a.body)) <==> a.announced == |a.body|))
  }

  lemma PrintedIsFramed(s: Staged, time: Timestamp, a: Answer)
    requires Prints(s, time, a)
    ensures Framed(s, time, a)
  {
    hide StatusLine, StatusString, PrintHead, ReadHead, FieldValue;
    var sent := if a.omitBody then "" else a.body;
    PrintedResponse(a.resp, time, a.extra, a.mime, a.announced, sent);
    StatusInLine(a.resp);
    var h := PrintHead(AnswerLines(time, a));
    assert (h + sent)[|h|..] == sent;
    assert AnswerLines(time, a)[0] == "HTTP/1.0 " + StatusLine(a.resp);
  }

  lemma ErrorPageNotEmpty(w: World, resp: Status, req: Request, headerLen: nat)
    requires IsError(resp) && w.errorMemoryOk
    ensures ErrorStage(w, resp, req, headerLen).out != ""
  {
    hide StatusLine, ErrorBody, ErrorMime;
    HeadNotEmpty(HeadLines(resp, req.time, [], ErrorMime(resp), |ErrorBody(resp)|));
  }

  lemma HeadNotEmpty(lines: seq<string>)
    ensures PrintHead(lines) != ""
  {
  }

  /** When the error builder gets its memory, something is always staged: every failure on
      the way leaves a status that the error builder accepts. */
  lemma SomethingIsStaged(cfg: Config, w: World, p: Parsed, headerLen: nat)
    requires w.errorMemoryOk && (!p.ok ==> IsError(p.resp))
    ensures ParsedStage(cfg, w, p, headerLen).out != ""
  {
    hide StatusLine, ErrorBody, ErrorMime, ErrorStage, HeadLines;
    if !p.ok {
      ErrorPageNotEmpty(w, p.resp, p.req, headerLen);
    } else {
      match Resolve(cfg, w, p.req.path)
      case Unresolved(s) => ErrorPageNotEmpty(w, s, p.req, headerLen);
      case Found(rp) =>
        match OkayPage(cfg, w, rp, p.req)
        case Built(out, _, _) => OkayPageNotEmpty(cfg, w, rp, p.req);
        case Failed(s) =>
          OkayFailure(cfg, w, rp, p.req);
          ErrorPageNotEmpty(w, if s == Ok then ServerError else s, p.req, 0);
    }
  }

  lemma OkayPageNotEmpty(cfg: Config, w: World, rp: ResolvedPath, req: Request)
    requires OkayPage(cfg, w, rp, req).Built?
    ensures OkayPage(cfg, w, rp, req).out != ""
  {
    OkayPagePrints(cfg, w, rp, req);
    HeadNotEmpty(AnswerLines(req.time, OkayAnswer(cfg, w, rp, req)));
  }

  /** Every response that is staged is framed. */
  lemma StagedIsFramed(cfg: Config, w: World, head: string)
    requires Stage(cfg, w, head).out != "" && StrNStr(head, BLANK_LINE).Some?
    ensures Framed(Stage(cfg, w, head), w.now, AnswerTo(cfg, w, head))
  {
    var p := Parse(cfg, head, w.now, ZERO_REQUEST, Unset);
    ParsedStagePrints(cfg, w, p, |head|);
    PrintedIsFramed(ParsedStage(cfg, w, p, |head|), w.now, ParsedAnswer(cfg, w, p));
  }

  /** `fstat` and `fread` tell the same length. */
  ghost predicate SizesAgree(w: World) {
    forall f :: f in w.files && w.files[f].Readable? ==> w.files[f].size == |w.files[f].content|
  }

  /** Only a file whose size and content disagree can get a wrong Content-Length. */
  lemma AnnouncedIsLength(cfg: Config, w: World, head: string)
    requires SizesAgree(w)
    ensures AnswerTo(cfg, w, head).announced == |AnswerTo(cfg, w, head).body|
  {
  }

  lemma StatusInLine(resp: Status)
    requires resp != Unset
    ensures var line := "HTTP/1.0 " + StatusLine(resp); |line| > 12 && line[9..12] == StatusString(resp)
  {
    StatusLineCode(resp);
    var line := "HTTP/1.0 " + StatusLine(resp);
    assert line[9..12] == StatusLine(resp)[..3];
  }
}
