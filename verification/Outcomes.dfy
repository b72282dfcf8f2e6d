/** What a recipient reads for which request, in literal status lines and field values, and
    in terms of the file system and the resources that are granted. */
module Outcomes {
  import opened Wrappers
  import opened CString
  import opened Numbers
  import opened Http
  import opened MessageHead
  import opened RequestParser
  import opened RequestGrammar
  import opened World
  import opened PathResolver
  import opened PathProperties
  import opened Responses
  import opened Framing
  import opened HeadAndGet

  // ------------------------------------------------------------ reading a response

  /** A recipient reads this status line, these fields and this body, and `header_len` is
      where the body starts. */
  ghost predicate Says(s: Staged, status: string, date: string, modified: Option<string>, kind: string, length: nat,
                       body: string)
  {
    var m := ReadHead(s.out);
    && m.Some? && m.value.1 == body && s.headerLen + |body| == |s.out|
    && var lines := m.value.0;
       && lines != [] && lines[0] == status && |lines| == (if modified.Some? then 7 else 6)
       && FieldValue(lines, "Date") == Some(date)
       && FieldValue(lines, "Server") == Some("Simple_Server V2")
       && FieldValue(lines, "Last-Modified") == modified
       && FieldValue(lines, "Content-Type") == Some(kind)
       && FieldValue(lines, "Content-Length") == Some(Decimal(length))
       && FieldValue(lines, "Connection") == Some("close")
  }

  lemma FieldAt(lines: seq<string>, k: nat, name: string, value: string)
    requires k < |lines| && NoField(lines[..k], name) && lines[k] == name + ": " + value
    ensures FieldValue(lines, name) == Some(value)
  {
    assert lines == lines[..k] + lines[k..];
    SkipLines(lines[..k], lines[k..], name);
    assert lines[k..][0] == lines[k];
    assert name + ": " <= lines[k] && lines[k][|name| + 2..] == value;
  }

  lemma {:induction false} FieldMissing(lines: seq<string>, name: string)
    requires NoField(lines, name)
    ensures FieldValue(lines, name) == None
  {
    if lines != [] { FieldMissing(lines[1..], name); }
  }

  /** The lines of a response, with and without a modification time. */
  lemma FieldsFound(status: string, date: string, modified: Option<string>, kind: string, length: string,
                    lines: seq<string>)
    requires "HTTP/1.0 " <= status
    requires lines == [status, "Date: " + date, "Server: " + "Simple_Server V2"]
                      + (if modified.Some? then ["Last-Modified: " + modified.value] else [])
                      + ["Content-Type: " + kind, "Content-Length: " + length, "Connection: " + "close"]
    ensures FieldValue(lines, "Date") == Some(date)
    ensures FieldValue(lines, "Server") == Some("Simple_Server V2")
    ensures FieldValue(lines, "Last-Modified") == modified
    ensures FieldValue(lines, "Content-Type") == Some(kind)
    ensures FieldValue(lines, "Content-Length") == Some(length)
    ensures FieldValue(lines, "Connection") == Some("close")
  {
    hide FieldValue, NoField;
    var n := if modified.Some? then 4 else 3;
    assert status[0] == 'H';
    DateFound(lines, date);
    ServerFound(lines);
    ModifiedFound(lines, modified);
    ContentFound(lines, n, kind, length);
  }

  lemma DateFound(lines: seq<string>, date: string)
    requires |lines| >= 2 && lines[0] != "" && lines[0][0] == 'H' && lines[1] == "Date: " + date
    ensures FieldValue(lines, "Date") == Some(date)
  {
    OtherField(lines[0], "Date", 0);
    FieldAt(lines, 1, "Date", date);
  }

  lemma ServerFound(lines: seq<string>)
    requires |lines| >= 3 && lines[0] != "" && lines[0][0] == 'H' && lines[1] != "" && lines[1][0] == 'D'
    requires lines[2] == "Server: " + "Simple_Server V2"
    ensures FieldValue(lines, "Server") == Some("Simple_Server V2")
  {
    OtherField(lines[0], "Server", 0);
    OtherField(lines[1], "Server", 0);
    FieldAt(lines, 2, "Server", "Simple_Server V2");
  }

  lemma ModifiedFound(lines: seq<string>, modified: Option<string>)
    requires |lines| >= 3 && lines[0] != "" && lines[0][0] == 'H' && lines[1] != "" && lines[1][0] == 'D'
    requires lines[2] != "" && lines[2][0] == 'S'
    requires modified.Some? ==> |lines| > 3 && lines[3] == "Last-Modified: " + modified.value
    requires modified.None? ==> forall k :: 3 <= k < |lines| ==> lines[k] != "" && lines[k][0] == 'C'
    ensures FieldValue(lines, "Last-Modified") == modified
  {
    OtherField(lines[0], "Last-Modified", 0);
    OtherField(lines[1], "Last-Modified", 0);
    OtherField(lines[2], "Last-Modified", 0);
    if modified.Some? {
      FieldAt(lines, 3, "Last-Modified", modified.value);
    } else {
      forall k | 3 <= k < |lines| ensures !("Last-Modified" + ": " <= lines[k]) {
        OtherField(lines[k], "Last-Modified", 0);
      }
      FieldMissing(lines, "Last-Modified");
    }
  }

  ghost predicate Before(lines: seq<string>, n: nat) {
    n <= |lines| && forall k :: 0 <= k < n ==> lines[k] != "" && lines[k][0] in {'H', 'D', 'S', 'L'}
  }

  lemma NoneBefore(lines: seq<string>, n: nat, name: string)
    requires Before(lines, n) && name != "" && name[0] == 'C'
    ensures NoField(lines[..n], name)
  {
    forall k | 0 <= k < n ensures !(name + ": " <= lines[..n][k]) {
      OtherField(lines[k], name, 0);
    }
  }

  lemma ContentFound(lines: seq<string>, n: nat, kind: string, length: string)
    requires |lines| == n + 3 && Before(lines, n)
    requires lines[n] == "Content-Type: " + kind && lines[n + 1] == "Content-Length: " + length
    requires lines[n + 2] == "Connection: " + "close"
    ensures FieldValue(lines, "Content-Type") == Some(kind)
    ensures FieldValue(lines, "Content-Length") == Some(length)
    ensures FieldValue(lines, "Connection") == Some("close")
  {
    hide FieldValue, NoField, Before;
    NoneBefore(lines, n, "Content-Type");
    FieldAt(lines, n, "Content-Type", kind);
    NoneBefore(lines, n, "Content-Length");
    OtherField(lines[n], "Content-Length", 8);
    OneMoreBefore(lines, n, "Content-Length");
    FieldAt(lines, n + 1, "Content-Length", length);
    NoneBefore(lines, n, "Connection");
    OtherField(lines[n], "Connection", 3);
    OneMoreBefore(lines, n, "Connection");
    OtherField(lines[n + 1], "Connection", 3);
    OneMoreBefore(lines, n + 1, "Connection");
    FieldAt(lines, n + 2, "Connection", "close");
  }

  lemma OneMoreBefore(lines: seq<string>, n: nat, name: string)
    requires n < |lines| && NoField(lines[..n], name) && !(name + ": " <= lines[n])
    ensures NoField(lines[..n + 1], name)
  {
    assert forall k :: 0 <= k < n ==> lines[..n + 1][k] == lines[..n][k];
  }

  /** A printed head with a body behind it. */
  lemma PrintedSays(s: Staged, resp: Status, date: Timestamp, modified: Option<Timestamp>, kind: FieldText, length: nat,
                    body: string)
    requires var h := PrintHead(HeadLines(resp, date, if modified.Some? then LastModified(modified.value) else [],
                                          kind, length));
             s.out == h + body && s.headerLen == |h|
    ensures Says(s, "HTTP/1.0 " + StatusLine(resp), date, modified, kind, length, body)
  {
    hide PrintHead, ReadHead, FieldValue, StatusLine, Decimal;
    var extra := if modified.Some? then LastModified(modified.value) else [];
    assert ExtraOk(extra) by {
      if modified.Some? { CleanAppend("Last-Modified: ", modified.value); }
    }
    var lines := HeadLines(resp, date, extra, kind, length);
    assert lines == ["HTTP/1.0 " + StatusLine(resp), "Date: " + date, "Server: " + "Simple_Server V2"]
                    + (if modified.Some? then ["Last-Modified: " + modified.value] else [])
                    + ["Content-Type: " + kind, "Content-Length: " + Decimal(length), "Connection: " + "close"] by {
      assert "Connection: close" == "Connection: " + "close";
    }
    assert "HTTP/1.0 " <= "HTTP/1.0 " + StatusLine(resp);
    PrintedResponse(resp, date, extra, kind, length, body);
    FieldsFound("HTTP/1.0 " + StatusLine(resp), date, modified, kind, Decimal(length), lines);
  }

  // ------------------------------------------------------------ the request

  /** The head is accepted, asks for `path`, and is a HEAD request or not. */
  predicate Asks(cfg: Config, head: string, path: string, headOnly: bool) {
    && StrNStr(head, BLANK_LINE).Some?
    && var w := Words(FirstLine(head), ' ');
       && Verdict(cfg, w) == None && w[1] == path && headOnly == (w[0] == "HEAD")
  }

  lemma StageOf(cfg: Config, w: World, head: string, path: string, headOnly: bool) returns (req: Request)
    requires Asks(cfg, head, path, headOnly)
    ensures Stage(cfg, w, head) == ParsedStage(cfg, w, Parsed(true, req, Unset), |head|)
    ensures req.path == path && req.time == w.now && (headOnly <==> req.httpMethod == Head) && path != ""
  {
    hide ParsedStage;
    req := Parse(cfg, head, w.now, ZERO_REQUEST, Unset).req;
  }

  // ------------------------------------------------------------ errors

  /** An error response: with memory for it, it says so and has this body, but for HEAD; without
      memory nothing is staged. */
  ghost predicate Reports(w: World, s: Staged, resp: Status, status: string, kind: string, body: string, headOnly: bool)
  {
    && s.resp == resp
    && if w.errorMemoryOk then
         Says(s, status, w.now, None, kind, |body|, if headOnly then "" else body) && s.bodyLen == |body|
       else s.out == "" && s.bodyLen == 0
  }

  lemma ErrorReports(w: World, resp: Status, req: Request, headerLen: nat)
    requires IsError(resp) && req.time == w.now
    ensures Reports(w, ErrorStage(w, resp, req, headerLen), resp, "HTTP/1.0 " + StatusLine(resp), ErrorMime(resp),
                    ErrorBody(resp), req.httpMethod == Head)
  {
    hide StatusLine, ErrorBody, ErrorMime, HeadLines, Says;
    var s := ErrorStage(w, resp, req, headerLen);
    ErrorMimeClean(resp);
    var body := if req.httpMethod == Head then "" else ErrorBody(resp);
    var h := PrintHead(HeadLines(resp, req.time, [], ErrorMime(resp), |ErrorBody(resp)|));
    assert h + "" == h;
    if w.errorMemoryOk { PrintedSays(s, resp, req.time, None, ErrorMime(resp), |ErrorBody(resp)|, body); }
  }

  lemma ClientErrorLines()
    ensures "HTTP/1.0 " + StatusLine(BadRequest) == "HTTP/1.0 400 Bad Request"
    ensures "HTTP/1.0 " + StatusLine(Forbidden) == "HTTP/1.0 403 Forbidden"
    ensures "HTTP/1.0 " + StatusLine(NotFound) == "HTTP/1.0 404 Not Found"
    ensures "HTTP/1.0 " + StatusLine(UriTooLong) == "HTTP/1.0 414 URI Too Long"
  {
  }

  lemma Line500()
    ensures "HTTP/1.0 " + StatusLine(ServerError) == "HTTP/1.0 500 Internal Server Error"
  {
  }

  lemma Line501()
    ensures "HTTP/1.0 " + StatusLine(NotImplemented) == "HTTP/1.0 501 Not Implemented"
  {
  }

  lemma Line505()
    ensures "HTTP/1.0 " + StatusLine(VersionNotSupported) == "HTTP/1.0 505 HTTP Version Not Supported"
  {
  }

  lemma ServerErrorLines()
    ensures "HTTP/1.0 " + StatusLine(ServerError) == "HTTP/1.0 500 Internal Server Error"
    ensures "HTTP/1.0 " + StatusLine(NotImplemented) == "HTTP/1.0 501 Not Implemented"
    ensures "HTTP/1.0 " + StatusLine(VersionNotSupported) == "HTTP/1.0 505 HTTP Version Not Supported"
  {
    hide StatusLine;
    Line500();
    Line501();
    Line505();
  }

  lemma OkLine()
    ensures "HTTP/1.0 " + StatusLine(Ok) == "HTTP/1.0 200 OK"
  {
  }

  lemma Starts(a: string, b: string, c: string, d: string, e: string)
    ensures a <= a + b + c + d && a <= a + b + c + d + e
  {
  }

  lemma ErrorBodies()
    ensures "<html><body><h1>404 Not Found</h1>" <= ErrorBody(NotFound)
    ensures "<html><body><h1>501 CGI Not Enabled on Server</h1>" <= ErrorBody(NotImplemented)
    ensures forall resp :: resp != NotFound && resp != NotImplemented ==> ErrorBody(resp) == ""
  {
    Starts("<html><body><h1>404 Not Found</h1>",
           "<h3>Sorry, the file you are looking for doesn't exist</h3>",
           "<br><br><p>Or does it?!?!</p><br><br><br><br>",
           "<p>No... it doesn't</p></body></html>", "");
    Starts("<html><body><h1>501 CGI Not Enabled on Server</h1>",
           "<h3>CGI application requires the server to be run with the CGI flag</h3>",
           "<p>Please restart the simple_server application with the -c flag ",
           "and the location of the cgi-bin directory</p>",
           "<p><b>Eg:<br/></b> ./simple_server -c ./cgi-bin</p></body></html>");
  }

  lemma ErrorKinds()
    ensures forall resp ::
              ErrorMime(resp) == if resp == NotFound || resp == NotImplemented then "text/html" else "text/plain"
  {
  }

  /** 500, which has no body. */
  ghost predicate Reports500(w: World, s: Staged) {
    Reports(w, s, ServerError, "HTTP/1.0 500 Internal Server Error", "text/plain", "", false)
  }

  lemma Error500(w: World, req: Request, headerLen: nat)
    requires req.time == w.now
    ensures Reports500(w, ErrorStage(w, ServerError, req, headerLen))
  {
    hide Says, HeadLines, StatusLine, ErrorBody, ErrorMime, ErrorStage;
    ServerErrorLines();
    ErrorBodies();
    ErrorKinds();
    ErrorReports(w, ServerError, req, headerLen);
  }

  // ------------------------------------------------------------ what stands at a path

  /** The file of this name can be opened. */
  predicate Opens(w: World, name: string) { name in w.files && w.files[name].Readable? }

  /** No such file: 404. No permission: 403. No `fstat`: 500. A script without leave: 501. */
  lemma NotServed(cfg: Config, w: World, head: string, path: string, headOnly: bool)
    requires Asks(cfg, head, path, headOnly)
    ensures var (s, local, scripted) := (Stage(cfg, w, head), LocalPath(cfg, path), "/cgi-bin/" <= BeforeQuery(path));
            && (local !in w.files ==>
                  "<html><body><h1>404 Not Found</h1>" <= ErrorBody(NotFound)
                  && Reports(w, s, NotFound, "HTTP/1.0 404 Not Found", "text/html", ErrorBody(NotFound), headOnly))
            && (local in w.files && w.files[local].Denied? ==>
                  Reports(w, s, Forbidden, "HTTP/1.0 403 Forbidden", "text/plain", "", headOnly))
            && (Opens(w, local) && !w.files[local].statOk ==> Reports500(w, s))
            && (Opens(w, local) && w.files[local].statOk && scripted && !cfg.cgi ==>
                  "<html><body><h1>501 CGI Not Enabled on Server</h1>" <= ErrorBody(NotImplemented)
                  && Reports(w, s, NotImplemented, "HTTP/1.0 501 Not Implemented", "text/html",
                             ErrorBody(NotImplemented), headOnly))
  {
    hide Stage, LocalPath, BeforeQuery, Says, HeadLines, ErrorStage, StatusLine, ErrorBody, ErrorMime, Reports,
         QueryString, ServeDirectory, OkayStage;
    ClientErrorLines();
    ServerErrorLines();
    ErrorBodies();
    ErrorKinds();
    var req := StageOf(cfg, w, head, path, headOnly);
    CgiByPath(cfg, path);
    CgiIsPrefix(LocalPath(cfg, path));
    ErrorReports(w, NotFound, req, |head|);
    ErrorReports(w, Forbidden, req, |head|);
    ErrorReports(w, NotImplemented, req, |head|);
    Error500(w, req, |head|);
  }

  // ------------------------------------------------------------ files

  /** A file is sent: 200, its MIME type, modification time and size, and its content. */
  ghost predicate Sends(w: World, s: Staged, n: Node, kind: string, headOnly: bool)
    requires n.Readable?
  {
    && n.modTime.Some? && s.resp == Ok
    && Says(s, "HTTP/1.0 200 OK", w.now, n.modTime, kind, n.size, if headOnly then "" else n.content)
    && s.bodyLen == (if headOnly then n.size else |n.content|)
  }

  /** A file is sent if its modification time can be told and there is memory; otherwise the
      answer is 500. */
  ghost predicate SendsOr500(w: World, s: Staged, n: Node, kind: string, headOnly: bool)
    requires n.Readable?
  {
    if n.modTime.Some? && w.memoryOk then Sends(w, s, n, kind, headOnly) else Reports500(w, s)
  }

  lemma FileStaged(cfg: Config, w: World, n: Node, kind: FieldText, query: string, req: Request)
    requires n.Readable? && req.time == w.now
    ensures var rp := ResolvedPath(query, n.content, n.size, kind, n.modTime, IsFile);
            SendsOr500(w, OkayStage(cfg, w, rp, req), n, kind, req.httpMethod == Head)
  {
    hide Says, HeadLines, ErrorStage, StatusLine, PrintHead;
    OkLine();
    var s := OkayStage(cfg, w, ResolvedPath(query, n.content, n.size, kind, n.modTime, IsFile), req);
    Error500(w, req, 0);
    if n.modTime.Some? && w.memoryOk {
      var h := PrintHead(HeadLines(Ok, req.time, LastModified(n.modTime.value), kind, n.size));
      assert h + "" == h;
      PrintedSays(s, Ok, req.time, n.modTime, kind, n.size, if req.httpMethod == Head then "" else n.content);
    }
  }

  /** An accepted request for a file that can be opened, that is no directory and no script:
      the answer is 200 with that file, or 500, exactly as `SendsOr500` says. */
  lemma FileIsSent(cfg: Config, w: World, head: string, path: string, headOnly: bool)
    requires Asks(cfg, head, path, headOnly) && !("/cgi-bin/" <= BeforeQuery(path))
    requires Opens(w, LocalPath(cfg, path))
    requires w.files[LocalPath(cfg, path)].statOk && !w.files[LocalPath(cfg, path)].isDir
    ensures var n := w.files[LocalPath(cfg, path)]; SendsOr500(w, Stage(cfg, w, head), n, n.mime, headOnly)
  {
    hide Stage, LocalPath, BeforeQuery, QueryString, OkayStage, SendsOr500;
    var req := StageOf(cfg, w, head, path, headOnly);
    CgiByPath(cfg, path);
    CgiIsPrefix(LocalPath(cfg, path));
    var n := w.files[LocalPath(cfg, path)];
    FileStaged(cfg, w, n, n.mime, QueryString(cfg, path), req);
  }

  // ------------------------------------------------------------ directories

  /** `dir` is the path of a directory, written without or with a slash at its end. */
  predicate IsPathOf(dir: string, path: string) {
    path == dir + "/" || (path == dir && (dir == "" || dir[|dir| - 1] != '/'))
  }

  /** What fits a PATH_MAX buffer. */
  function Cut(cfg: Config, s: string): string { s[..Min(|s|, cfg.pathMax - 1)] }

  /** Index files are looked for in the directory, however its path is written. */
  lemma IndexIsInside(cfg: Config, path: string, dir: string, index: string)
    requires IsPathOf(dir, BeforeQuery(path)) && |BeforeQuery(path)| <= cfg.pathMax - 2 && path != ""
    ensures IndexPath(cfg, LocalPath(cfg, path), index) == Cut(cfg, "." + dir + "/" + index)
  {
    hide LocalPath;
    LocalPathIs(cfg, path);
    var local := LocalPath(cfg, path);
    assert local == "." + BeforeQuery(path);
    if BeforeQuery(path) == dir + "/" {
      assert local[|local| - 1] == '/';
      assert local + index == "." + dir + "/" + index;
    } else {
      assert local == "." + dir && local[|local| - 1] != '/';
      assert local + "/" + index == "." + dir + "/" + index;
    }
  }

  /** A listing is sent. */
  ghost predicate Lists(cfg: Config, w: World, s: Staged, dirPath: string, modified: Timestamp, headOnly: bool)
    requires dirPath in w.dirs
  {
    var body := ListingBody(Items(cfg, dirPath, w.dirs[dirPath]));
    && s.resp == Ok
    && Says(s, "HTTP/1.0 200 OK", w.now, Some(modified), "text/html", |body|, if headOnly then "" else body)
    && s.bodyLen == (if headOnly then 0 else |body|)
  }

  /** A listing is sent if the directory can be read, its modification time can be told, and
      there is memory; otherwise the answer is 500. */
  ghost predicate ListsOr500(cfg: Config, w: World, s: Staged, dirPath: string, n: Node, headOnly: bool)
    requires n.Readable?
  {
    if dirPath in w.dirs && n.modTime.Some? && w.memoryOk then Lists(cfg, w, s, dirPath, n.modTime.value, headOnly)
    else Reports500(w, s)
  }

  lemma ListingStaged(cfg: Config, w: World, n: Node, query: string, req: Request)
    requires n.Readable? && req.time == w.now && req.path != ""
    ensures var rp := ResolvedPath(query, "", 0, "", n.modTime, IsDir);
            ListsOr500(cfg, w, OkayStage(cfg, w, rp, req), req.path[1..], n, req.httpMethod == Head)
  {
    hide Says, HeadLines, ErrorStage, StatusLine, PrintHead, Items;
    OkLine();
    var s, dirPath := OkayStage(cfg, w, ResolvedPath(query, "", 0, "", n.modTime, IsDir), req), req.path[1..];
    Error500(w, req, 0);
    if dirPath in w.dirs && n.modTime.Some? && w.memoryOk {
      var body := ListingBody(Items(cfg, dirPath, w.dirs[dirPath]));
      var h := PrintHead(HeadLines(Ok, req.time, LastModified(n.modTime.value), "text/html", |body|));
      assert h + "" == h;
      PrintedSays(s, Ok, req.time, n.modTime, "text/html", |body|, if req.httpMethod == Head then "" else body);
    }
  }

  /** An accepted request for a directory is answered with its index.htm, or else with its
      index.html, and with a listing if and only if neither can be opened. */
  lemma DirectoryIsSent(cfg: Config, w: World, head: string, path: string, dir: string, headOnly: bool)
    requires Asks(cfg, head, path, headOnly) && (cfg.cgi || !("/cgi-bin/" <= BeforeQuery(path)))
    requires IsPathOf(dir, BeforeQuery(path)) && |BeforeQuery(path)| <= cfg.pathMax - 2
    requires Opens(w, LocalPath(cfg, path))
    requires w.files[LocalPath(cfg, path)].statOk && w.files[LocalPath(cfg, path)].isDir
    ensures var s := Stage(cfg, w, head);
            var (first, second) := (Cut(cfg, "." + dir + "/index.htm"), Cut(cfg, "." + dir + "/index.html"));
            if Opens(w, first) || Opens(w, second) then
              var n := w.files[if Opens(w, first) then first else second];
              if n.statOk then SendsOr500(w, s, n, "text/html", headOnly) else Reports500(w, s)
            else ListsOr500(cfg, w, s, path[1..], w.files[LocalPath(cfg, path)], headOnly)
  {
    hide Stage, LocalPath, BeforeQuery, QueryString, OkayStage, ErrorStage, SendsOr500, ListsOr500, Reports,
         IndexPath, Cut;
    var req := StageOf(cfg, w, head, path, headOnly);
    CgiByPath(cfg, path);
    CgiIsPrefix(LocalPath(cfg, path));
    var query := QueryString(cfg, path);
    IndexNames(cfg, path, dir);
    var first, second := Cut(cfg, "." + dir + "/index.htm"), Cut(cfg, "." + dir + "/index.html");
    Error500(w, req, |head|);
    if Opens(w, first) { FileStaged(cfg, w, w.files[first], "text/html", query, req); }
    if Opens(w, second) { FileStaged(cfg, w, w.files[second], "text/html", query, req); }
    ListingStaged(cfg, w, w.files[LocalPath(cfg, path)], query, req);
  }

  lemma IndexNames(cfg: Config, path: string, dir: string)
    requires IsPathOf(dir, BeforeQuery(path)) && |BeforeQuery(path)| <= cfg.pathMax - 2 && path != ""
    ensures IndexPath(cfg, LocalPath(cfg, path), DIR_INDEX) == Cut(cfg, "." + dir + "/index.htm")
    ensures IndexPath(cfg, LocalPath(cfg, path), DIR_INDEX2) == Cut(cfg, "." + dir + "/index.html")
  {
    hide LocalPath, BeforeQuery, IndexPath, Cut, IsPathOf;
    IndexIsInside(cfg, path, dir, DIR_INDEX);
    IndexIsInside(cfg, path, dir, DIR_INDEX2);
    assert "." + dir + "/" + DIR_INDEX == "." + dir + "/index.htm";
    assert "." + dir + "/" + DIR_INDEX2 == "." + dir + "/index.html";
  }

  // ------------------------------------------------------------ scripts

  /** The script can be started, its output read to the end, and it ends with 0. */
  predicate Runs(w: World, script: string) {
    && w.pipeOk && w.forkOk && w.memoryOk && script in w.scripts
    && PipeOutput(w.scripts[script].output).Some? && w.scripts[script].waitOk && w.scripts[script].exitStatus == Some(0)
  }

  /** An accepted request for a script is answered with its output, also to HEAD, if it runs;
      otherwise with 500. */
  lemma ScriptIsRun(cfg: Config, w: World, head: string, path: string, headOnly: bool)
    requires Asks(cfg, head, path, headOnly) && cfg.cgi && "/cgi-bin/" <= BeforeQuery(path)
    requires Opens(w, LocalPath(cfg, path))
    requires w.files[LocalPath(cfg, path)].statOk && !w.files[LocalPath(cfg, path)].isDir
    ensures var (s, script) := (Stage(cfg, w, head), "." + BeforeQuery(path));
            if Runs(w, script) then
              var output := PipeOutput(w.scripts[script].output).value;
              && s.resp == Ok && s.bodyLen == |output|
              && Says(s, "HTTP/1.0 200 OK", w.now, None, "text/html", |output|, output)
            else Reports500(w, s)
  {
    hide Stage, LocalPath, BeforeQuery, QueryString, ErrorStage, Says, Reports, HeadLines, StatusLine, PrintHead,
         PipeOutput;
    var req := StageOf(cfg, w, head, path, headOnly);
    CgiByPath(cfg, path);
    CgiIsPrefix(LocalPath(cfg, path));
    QueryFits(cfg, path);
    Error500(w, req, 0);
    OkLine();
    var script := "." + BeforeQuery(path);
    if Runs(w, script) {
      var output := PipeOutput(w.scripts[script].output).value;
      PrintedSays(Stage(cfg, w, head), Ok, w.now, None, "text/html", |output|, output);
    }
  }

  // ------------------------------------------------------------ refused requests

  lemma RefusalParsed(cfg: Config, w: World, head: string, k: nat)
    requires StrNStr(head, BLANK_LINE).Some? && k < |CHECKS|
    requires forall j :: 0 <= j < k ==> !Has(cfg, Words(FirstLine(head), ' '), CHECKS[j])
    requires Has(cfg, Words(FirstLine(head), ' '), CHECKS[k])
    ensures var p := Parse(cfg, head, w.now, ZERO_REQUEST, Unset);
            && !p.ok && p.resp == Code(CHECKS[k]) && p.req.time == w.now
            && (CHECKS[k] == OtherMethod ==> p.req.httpMethod != Head)
  {
    hide Words, FirstLine, Parse;
    FirstDefectDecides(cfg, head, w.now, ZERO_REQUEST, Unset, k);
    ParsedTime(cfg, head, w.now);
  }

  /** A request that is not accepted is told so by the code of its first defect. */
  lemma RefusalIsReported(cfg: Config, w: World, head: string, k: nat)
    requires StrNStr(head, BLANK_LINE).Some? && k < |CHECKS|
    requires forall j :: 0 <= j < k ==> !Has(cfg, Words(FirstLine(head), ' '), CHECKS[j])
    requires Has(cfg, Words(FirstLine(head), ' '), CHECKS[k])
    ensures var s := Stage(cfg, w, head);
            match CHECKS[k]
            case WrongShape => Reports(w, s, BadRequest, "HTTP/1.0 400 Bad Request", "text/plain", "", false)
            case LongPath => Reports(w, s, UriTooLong, "HTTP/1.0 414 URI Too Long", "text/plain", "", false)
            case NoSlash => Reports(w, s, BadRequest, "HTTP/1.0 400 Bad Request", "text/plain", "", false)
            case StrangeVersion => Reports(w, s, BadRequest, "HTTP/1.0 400 Bad Request", "text/plain", "", false)
            case OldOrNewVersion =>
              Reports(w, s, VersionNotSupported, "HTTP/1.0 505 HTTP Version Not Supported", "text/plain", "", false)
            case Traversal => Reports(w, s, Forbidden, "HTTP/1.0 403 Forbidden", "text/plain", "", false)
            case OtherMethod =>
              Reports(w, s, NotImplemented, "HTTP/1.0 501 Not Implemented", "text/html", ErrorBody(NotImplemented),
                      false)
  {
    hide Words, FirstLine, Parse, Says, ErrorStage, ErrorBody, StatusLine, ErrorMime, HeadLines, Has;
    var p := Parse(cfg, head, w.now, ZERO_REQUEST, Unset);
    RefusalParsed(cfg, w, head, k);
    ClientErrorLines();
    ServerErrorLines();
    ErrorBodies();
    ErrorKinds();
    ErrorReports(w, p.resp, p.req, |head|);
    assert Stage(cfg, w, head) == ErrorStage(w, p.resp, p.req, |head|);
  }

  lemma ParsedTime(cfg: Config, head: string, now: Timestamp)
    requires StrNStr(head, BLANK_LINE).Some?
    ensures Parse(cfg, head, now, ZERO_REQUEST, Unset).req.time == now
  {
  }

  // ------------------------------------------------------------ the pipe

  /** Reads that deliver bytes or are interrupted. */
  predicate Pours(got: seq<PipeRead>) {
    forall k :: 0 <= k < |got| ==> got[k].PipeInterrupted? || (got[k].Chunk? && got[k].bytes != "")
  }

  function Poured(got: seq<PipeRead>): string {
    if got == [] then "" else (if got[0].Chunk? then got[0].bytes else "") + Poured(got[1..])
  }

  /** The output of a script is what the pipe delivers up to its end, an interrupted read
      makes no difference, and a failed one spoils all. */
  lemma {:induction false} PipeEnds(got: seq<PipeRead>, rest: seq<PipeRead>)
    requires Pours(got)
    ensures PipeOutput(got) == Some(Poured(got))
    ensures PipeOutput(got + [PipeRead.End] + rest) == Some(Poured(got))
    ensures PipeOutput(got + [ReadFailed] + rest) == None
  {
    var ends, fails := got + [PipeRead.End] + rest, got + [ReadFailed] + rest;
    if got == [] {
      assert ends[0] == PipeRead.End && fails[0] == ReadFailed;
    } else {
      assert ends[0] == fails[0] == got[0];
      assert ends[1..] == got[1..] + [PipeRead.End] + rest && fails[1..] == got[1..] + [ReadFailed] + rest;
      PipeEnds(got[1..], rest);
      assert "" + Poured(got[1..]) == Poured(got[1..]);
    }
  }
}
