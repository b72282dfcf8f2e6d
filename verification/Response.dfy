/** The response builders: which bytes are staged in `out_buf`, with which lengths. */
module Responses {
  import opened Wrappers
  import opened Numbers
  import opened Http
  import opened MessageHead
  import opened RequestParser
  import opened World
  import opened PathResolver
  import opened Connection

  /** What a builder leaves: the staged bytes and the two lengths, or the status it failed with. */
  datatype Built = Built(out: string, headerLen: nat, bodyLen: nat) | Failed(status: Status)

  // ------------------------------------------------------------ error pages

  function StatusLine(resp: Status): string {
    match resp
    case Ok => "200 OK"
    case BadRequest => "400 Bad Request"
    case Forbidden => "403 Forbidden"
    case NotFound => "404 Not Found"
    case UriTooLong => "414 URI Too Long"
    case ServerError => "500 Internal Server Error"
    case NotImplemented => "501 Not Implemented"
    case VersionNotSupported => "505 HTTP Version Not Supported"
    case Unset => ""
  }

  function ErrorMime(resp: Status): string {
    if resp == NotFound || resp == NotImplemented then "text/html" else "text/plain"
  }

  function ErrorBody(resp: Status): string {
    match resp
    case NotFound =>
      "<html><body><h1>404 Not Found</h1>"
      + "<h3>Sorry, the file you are looking for doesn't exist</h3>"
      + "<br><br><p>Or does it?!?!</p><br><br><br><br>"
      + "<p>No... it doesn't</p></body></html>"
    case NotImplemented =>
      "<html><body><h1>501 CGI Not Enabled on Server</h1>"
      + "<h3>CGI application requires the server to be run with the CGI flag</h3>"
      + "<p>Please restart the simple_server application with the -c flag "
      + "and the location of the cgi-bin directory</p>"
      + "<p><b>Eg:<br/></b> ./simple_server -c ./cgi-bin</p></body></html>"
    case _ => ""
  }

  /** The head lines common to all responses; `extra` holds Last-Modified where it is sent. */
  function HeadLines(resp: Status, time: Timestamp, extra: seq<string>, mime: string, length: nat): seq<string> {
    ["HTTP/1.0 " + StatusLine(resp), "Date: " + time, "Server: " + SERVER_VERSION]
    + extra
    + ["Content-Type: " + mime, "Content-Length: " + Decimal(length), "Connection: close"]
  }

  function ErrorPage(w: World, resp: Status, req: Request): Built {
    if !IsError(resp) || !w.errorMemoryOk then Failed(resp)
    else
      var head := PrintHead(HeadLines(resp, req.time, [], ErrorMime(resp), |ErrorBody(resp)|));
      Built(if req.httpMethod == Head then head else head + ErrorBody(resp), |head|, |ErrorBody(resp)|)
  }

  // ------------------------------------------------------------ 200 pages

  function LastModified(time: Timestamp): seq<string> { ["Last-Modified: " + time] }

  function FilePage(w: World, rp: ResolvedPath, req: Request): Built {
    if rp.modTime.None? then Failed(ServerError)
    else if !w.memoryOk then Failed(Ok)
    else
      var head := PrintHead(HeadLines(Ok, req.time, LastModified(rp.modTime.value), rp.mime, rp.fileSize));
      if req.httpMethod == Head then Built(head, |head|, rp.fileSize)
      else Built(head + rp.content, |head|, |rp.content|)
  }

  const START_HTML: string := "<html><body><h1>Directory:</h1><ul>"
  const END_HTML: string := "</ul></body></html>"
  const EMPTY_DIR_HTML: string := "<h2>Empty directory</h2>"

  function Item(cfg: Config, dirPath: string, e: DirEntry): string {
    var icon := if e.isDir then cfg.dirIcon else cfg.fileIcon;
    "<li>" + icon + " <a href=\"/" + dirPath + "/" + e.name + "\">" + e.name + "</a></li>"
  }

  /** One item per entry whose name does not start with a dot, in order. */
  function Items(cfg: Config, dirPath: string, es: seq<DirEntry>): string {
    if es == [] then ""
    else
      var init := Items(cfg, dirPath, es[..|es| - 1]);
      var e := es[|es| - 1];
      if "." <= e.name then init else init + Item(cfg, dirPath, e)
  }

  function ListingBody(items: string): string {
    START_HTML + (if items == "" then EMPTY_DIR_HTML else items) + END_HTML
  }

  /** What `opendir` is given. */
  function ListedDir(path: string): string {
    if path == "" then "" else path[1..]
  }

  function DirPage(cfg: Config, w: World, rp: ResolvedPath, req: Request): Built {
    var dirPath := ListedDir(req.path);
    if rp.pathType != IsDir || dirPath !in w.dirs || !w.memoryOk || rp.modTime.None? then Failed(ServerError)
    else
      var body := ListingBody(Items(cfg, dirPath, w.dirs[dirPath]));
      var head := PrintHead(HeadLines(Ok, req.time, LastModified(rp.modTime.value), "text/html", |body|));
      if req.httpMethod == Head then Built(head, |head|, 0) else Built(head + body, |head|, |body|)
  }

  /** Everything the pipe delivers until end of file; None when a read fails. */
  function PipeOutput(output: seq<PipeRead>): Option<string> {
    if output == [] then Some("")
    else
      match output[0]
      case End => Some("")
      case ReadFailed => None
      case PipeInterrupted => PipeOutput(output[1..])
      case Chunk(bytes) => if bytes == "" then Some("") else Prepend(bytes, PipeOutput(output[1..]))
  }

  function Prepend(s: string, t: Option<string>): Option<string> {
    if t.Some? then Some(s + t.value) else None
  }

  /** SCRIPT_NAME, the file the child process executes. */
  function ScriptFile(path: string): string { "." + BeforeQuery(path) }

  function CgiPage(cfg: Config, w: World, rp: ResolvedPath, req: Request): Built {
    if !cfg.cgi then Failed(NotImplemented)
    else if !w.pipeOk then Failed(ServerError)
    else if |rp.query| > cfg.pathMax then Failed(UriTooLong)
    else if !w.forkOk || !w.memoryOk || ScriptFile(req.path) !in w.scripts then Failed(ServerError)
    else
      var run := w.scripts[ScriptFile(req.path)];
      var body := PipeOutput(run.output);
      if body.None? || !run.waitOk || run.exitStatus != Some(0) then Failed(ServerError)
      else
        var head := PrintHead(HeadLines(Ok, req.time, [], "text/html", |body.value|));
        Built(head + body.value, |head|, |body.value|)
  }

  function OkayPage(cfg: Config, w: World, rp: ResolvedPath, req: Request): Built {
    match rp.pathType
    case IsCgi => CgiPage(cfg, w, rp, req)
    case IsDir => DirPage(cfg, w, rp, req)
    case IsFile => FilePage(w, rp, req)
  }

  // ------------------------------------------------------------ the pipeline

  /** What one request leaves in the client: parse, resolve, build. */
  datatype Staged = Staged(resp: Status, out: string, headerLen: nat, bodyLen: nat, fileSize: nat)

  function ErrorStage(w: World, resp: Status, req: Request, headerLen: nat): Staged {
    match ErrorPage(w, resp, req)
    case Built(out, h, b) => Staged(resp, out, h, b, 0)
    case Failed(_) => Staged(resp, "", headerLen, 0, 0)
  }

  function OkayStage(cfg: Config, w: World, rp: ResolvedPath, req: Request): Staged {
    match OkayPage(cfg, w, rp, req)
    case Built(out, h, b) => Staged(Ok, out, h, b, rp.fileSize)
    case Failed(s) => ErrorStage(w, if s == Ok then ServerError else s, req, 0)
  }

  function ParsedStage(cfg: Config, w: World, p: Parsed, headerLen: nat): Staged {
    if !p.ok then ErrorStage(w, p.resp, p.req, headerLen)
    else
      match Resolve(cfg, w, p.req.path)
      case Unresolved(s) => ErrorStage(w, s, p.req, headerLen)
      case Found(rp) => OkayStage(cfg, w, rp, p.req)
  }

  function Stage(cfg: Config, w: World, head: string): Staged {
    ParsedStage(cfg, w, Parse(cfg, head, w.now, ZERO_REQUEST, Unset), |head|)
  }

  function Place(c: Client, s: Staged): Client {
    c.(resp := s.resp, outBuf := s.out, headerLen := s.headerLen, bodyLen := s.bodyLen, fileSize := s.fileSize)
  }

  function PlaceBuilt(c: Client, b: Built): Client {
    match b
    case Built(out, h, n) => c.(outBuf := out, headerLen := h, bodyLen := n)
    case Failed(s) => c.(resp := s)
  }
}
