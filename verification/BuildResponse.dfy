/** The builders as the code runs them: they append to streams and write the lengths and
    the staged bytes into one slot of the client array. */
module Builders {
  import opened Wrappers
  import opened CString
  import opened Numbers
  import opened Http
  import opened MessageHead
  import opened World
  import opened PathResolver
  import opened Connection
  import opened Growth
  import opened Responses

  /** `build_error_response` */
  method BuildErrorResponse(clients: array<Client>, i: nat, w: World, req: Request) returns (ok: bool)
    requires i < clients.Length
    modifies clients
    ensures var page := ErrorPage(w, old(clients[i]).resp, req);
            && ok == page.Built?
            && clients[..] == old(clients[..])[i := PlaceBuilt(old(clients[i]), page)]
  {
    hide StatusLine, ErrorBody, ErrorMime, HeadLines, PrintHead;
    var resp := clients[i].resp;
    if resp == Ok || resp == Unset || !w.errorMemoryOk {
      return false;
    }
    var body := ErrorBody(resp);
    var out := PrintHead(HeadLines(resp, req.time, [], ErrorMime(resp), |body|));
    clients[i] := clients[i].(outBuf := out, headerLen := |out|);
    if req.httpMethod == Head {
      clients[i] := clients[i].(bodyLen := |body|);
      return true;
    }
    out := out + body;
    clients[i] := clients[i].(outBuf := out, bodyLen := |out| - clients[i].headerLen);
    return true;
  }

  /** `build_response_file` */
  method BuildResponseFile(clients: array<Client>, i: nat, w: World, rp: ResolvedPath, req: Request) returns (ok: bool)
    requires i < clients.Length && clients[i].resp == Ok && clients[i].fileSize == rp.fileSize
    modifies clients
    ensures var page := FilePage(w, rp, req);
            && ok == page.Built?
            && clients[..] == old(clients[..])[i := PlaceBuilt(old(clients[i]), page)]
  {
    if rp.modTime.None? {
      clients[i] := clients[i].(resp := ServerError);
      return false;
    }
    if !w.memoryOk {
      return false;
    }
    var out := PrintHead(HeadLines(Ok, req.time, LastModified(rp.modTime.value), rp.mime, rp.fileSize));
    ghost var head := out;
    clients[i] := clients[i].(outBuf := out, headerLen := |out|);
    if req.httpMethod == Head {
      clients[i] := clients[i].(bodyLen := clients[i].fileSize);
      return true;
    }
    var pos := 0;
    while pos < |rp.content|
      invariant pos <= |rp.content| && out == head + rp.content[..pos]
    {
      var n := if |rp.content| - pos < 8192 then |rp.content| - pos else 8192;
      assert rp.content[..pos + n] == rp.content[..pos] + rp.content[pos..pos + n];
      out := out + rp.content[pos..pos + n];
      pos := pos + n;
    }
    assert rp.content[..pos] == rp.content;
    clients[i] := clients[i].(outBuf := out, bodyLen := |out| - clients[i].headerLen);
    return true;
  }

  /** The `readdir` loop that writes the items into the memory stream. */
  method WriteItems(cfg: Config, dirPath: string, es: seq<DirEntry>) returns (items: string)
    ensures items == Items(cfg, dirPath, es)
  {
    items := "";
    var k := 0;
    while k < |es|
      invariant k <= |es| && items == Items(cfg, dirPath, es[..k])
    {
      assert es[..k + 1][..k] == es[..k];
      var e := es[k];
      k := k + 1;
      if "." <= e.name {
        continue;
      }
      var icon := if e.isDir then cfg.dirIcon else cfg.fileIcon;
      items := items + ("<li>" + icon + " <a href=\"/" + dirPath + "/" + e.name + "\">" + e.name + "</a></li>");
    }
    assert es[..k] == es;
  }

  /** `build_response_dir`. The length is printed from the pieces before the body is written. */
  method BuildResponseDir(cfg: Config, clients: array<Client>, i: nat, w: World, rp: ResolvedPath, req: Request)
    returns (ok: bool)
    requires i < clients.Length && clients[i].resp == Ok && clients[i].bodyLen == 0 && req.path != ""
    modifies clients
    ensures var page := DirPage(cfg, w, rp, req);
            && ok == page.Built?
            && clients[..] == old(clients[..])[i := PlaceBuilt(old(clients[i]), page)]
  {
    hide PrintHead, HeadLines, Items;
    var dirPath := req.path[1..];
    if rp.pathType != IsDir || dirPath !in w.dirs || !w.memoryOk {
      clients[i] := clients[i].(resp := ServerError);
      return false;
    }
    var items := WriteItems(cfg, dirPath, w.dirs[dirPath]);
    if rp.modTime.None? {
      clients[i] := clients[i].(resp := ServerError);
      return false;
    }
    var frame := |START_HTML| + |END_HTML|;
    var bodyLength := if |items| > 0 then |items| + frame else frame + |EMPTY_DIR_HTML|;
    ListingLength(items);
    var out := PrintHead(HeadLines(Ok, req.time, LastModified(rp.modTime.value), "text/html", bodyLength));
    clients[i] := clients[i].(outBuf := out, headerLen := |out|);
    if req.httpMethod == Head {
      return true;
    }
    var body := START_HTML;
    if |items| > 0 {
      body := body + items;
    } else {
      body := body + EMPTY_DIR_HTML;
    }
    body := body + END_HTML;
    out := out + body;
    clients[i] := clients[i].(outBuf := out, bodyLen := |out| - clients[i].headerLen);
    return true;
  }

  /** The length computed from the pieces is the length of the listing. */
  lemma ListingLength(items: string)
    ensures |ListingBody(items)| == |START_HTML| + |END_HTML| + if |items| > 0 then |items| else |EMPTY_DIR_HTML|
  {
  }

  function Weight(output: seq<PipeRead>): nat {
    if output == [] then 0
    else 1 + (if output[0].Chunk? then |output[0].bytes| else 0) + Weight(output[1..])
  }

  /** The read loop on the CGI pipe: whatever the sizes of the chunks and of the buffer, it
      collects the whole output; the buffer is 8192 doubled, and at most twice the output. */
  method CollectOutput(output: seq<PipeRead>) returns (r: Option<string>, capacity: nat)
    ensures r == PipeOutput(output)
    ensures r.Some? ==>
              DoubledFrom(8192, capacity) && |r.value| <= capacity && (capacity == 8192 || capacity <= 2 * |r.value|)
  {
    capacity := 8192;
    var buf := "";
    var pending := output;
    PrependNothing(PipeOutput(output));
    while true
      invariant DoubledFrom(8192, capacity) && |buf| <= capacity && (capacity == 8192 || capacity <= 2 * |buf|)
      invariant PipeOutput(output) == Prepend(buf, PipeOutput(pending))
      decreases Weight(pending)
    {
      if |buf| == capacity {
        DoubleOnce(8192, capacity);
        capacity := capacity * 2;
      }
      if pending == [] || pending[0].End? {
        assert buf + "" == buf;
        return Some(buf), capacity;
      }
      if pending[0].ReadFailed? {
        return None, capacity;
      }
      if pending[0].PipeInterrupted? {
        pending := pending[1..];
        continue;
      }
      var bytes, room := pending[0].bytes, capacity - |buf|;
      var n := if |bytes| < room then |bytes| else room;
      if n == 0 {
        assert buf + "" == buf;
        return Some(buf), capacity;
      }
      TakeBytes(pending, n, buf);
      buf := buf + bytes[..n];
      pending := if n < |bytes| then [Chunk(bytes[n..])] + pending[1..] else pending[1..];
    }
  }

  lemma PrependNothing(t: Option<string>)
    ensures Prepend("", t) == t
  {
    if t.Some? { assert "" + t.value == t.value; }
  }

  lemma TakeBytes(pending: seq<PipeRead>, n: nat, buf: string)
    requires pending != [] && pending[0].Chunk? && 0 < n <= |pending[0].bytes|
    ensures var bytes := pending[0].bytes;
            var left := if n < |bytes| then [Chunk(bytes[n..])] + pending[1..] else pending[1..];
            && Prepend(buf, PipeOutput(pending)) == Prepend(buf + bytes[..n], PipeOutput(left))
            && Weight(left) < Weight(pending)
  {
    var bytes := pending[0].bytes;
    var rest := PipeOutput(pending[1..]);
    if n < |bytes| {
      var left := [Chunk(bytes[n..])] + pending[1..];
      assert left[1..] == pending[1..];
      if rest.Some? {
        assert buf + (bytes + rest.value) == buf + bytes[..n] + (bytes[n..] + rest.value);
      }
    } else if rest.Some? {
      assert bytes[..n] == bytes;
      assert buf + (bytes + rest.value) == buf + bytes[..n] + rest.value;
    }
  }

  /** The child copies the path up to '?' behind a dot; the name and its NUL fit PATH_MAX + 1. */
  method ScriptName(cfg: Config, path: string) returns (name: string)
    requires Without(path, NUL) && |path| < cfg.pathMax
    ensures name == ScriptFile(path) && |name| + 1 <= cfg.pathMax + 1
  {
    name := ".";
    var i := 1;
    while i - 1 < |path| && path[i - 1] != '?'
      invariant 1 <= i <= |path| + 1
      invariant name == "." + path[..i - 1] && Without(path[..i - 1], '?')
      decreases |path| - i
    {
      assert path[..i] == path[..i - 1] + [path[i - 1]];
      name := name + [path[i - 1]];
      i := i + 1;
    }
    RunIs(path, '?', i - 1);
  }

  const MAX_HEADER_BUF: nat := 750

  /** The CGI header fits its 750-byte buffer, for any length a 64-bit `size_t` can hold. */
  lemma CgiHeaderFits(time: Timestamp, n: nat)
    requires n < 0x1_0000_0000_0000_0000
    ensures |PrintHead(HeadLines(Ok, time, [], "text/html", n))| < MAX_HEADER_BUF
  {
    assert Pow10(7) == 10_000_000;
    assert Pow10(14) == 100_000_000_000_000;
    assert Pow10(20) == 100_000_000_000_000_000_000;
    DecimalWidth(n, 20);
    HeadWidth(HeadLines(Ok, time, [], "text/html", n), 60);
  }

  lemma {:induction false} HeadWidth(lines: seq<string>, width: nat)
    requires forall k :: 0 <= k < |lines| ==> |lines[k]| <= width
    ensures |PrintHead(lines)| <= |lines| * (width + 2) + 2
  {
    if lines != [] { HeadWidth(lines[1..], width); }
  }

  /** `build_response_cgi`; HEAD makes no difference to it. */
  method BuildResponseCgi(cfg: Config, clients: array<Client>, i: nat, w: World, rp: ResolvedPath, req: Request)
    returns (ok: bool)
    requires i < clients.Length && clients[i].resp == Ok
    requires Without(req.path, NUL) && |req.path| < cfg.pathMax
    modifies clients
    ensures var page := CgiPage(cfg, w, rp, req);
            && ok == page.Built?
            && clients[..] == old(clients[..])[i := PlaceBuilt(old(clients[i]), page)]
  {
    if !cfg.cgi {
      clients[i] := clients[i].(resp := NotImplemented);
      return false;
    }
    if w.pipeOk && |rp.query| > cfg.pathMax {
      clients[i] := clients[i].(resp := UriTooLong);
      return false;
    }
    var script := ScriptName(cfg, req.path);
    if !w.pipeOk || !w.forkOk || !w.memoryOk || script !in w.scripts {
      clients[i] := clients[i].(resp := ServerError);
      return false;
    }
    var run := w.scripts[script];
    var output, _ := CollectOutput(run.output);
    if output.None? || !run.waitOk || run.exitStatus != Some(0) {
      clients[i] := clients[i].(resp := ServerError);
      return false;
    }
    var header := PrintHead(HeadLines(Ok, req.time, [], "text/html", |output.value|));
    clients[i] := clients[i].(outBuf := header + output.value, bodyLen := |output.value|, headerLen := |header|);
    return true;
  }

  /** `build_okay_response`: dispatch, and fall back to an error page when the builder fails. */
  method BuildOkayResponse(cfg: Config, clients: array<Client>, i: nat, w: World, rp: ResolvedPath, req: Request)
    returns (ok: bool)
    requires i < clients.Length && clients[i].outBuf == "" && clients[i].bodyLen == 0
    requires clients[i].fileSize == rp.fileSize
    requires req.path != "" && Without(req.path, NUL) && |req.path| < cfg.pathMax
    modifies clients
    ensures clients[..] == old(clients[..])[i := Place(old(clients[i]), OkayStage(cfg, w, rp, req))]
  {
    hide PrintHead, HeadLines, ErrorBody, ErrorMime, Items, PipeOutput, ListingBody;
    clients[i] := clients[i].(resp := Ok);
    match rp.pathType {
      case IsCgi => ok := BuildResponseCgi(cfg, clients, i, w, rp, req);
      case IsDir => ok := BuildResponseDir(cfg, clients, i, w, rp, req);
      case IsFile => ok := BuildResponseFile(clients, i, w, rp, req);
    }
    if !ok {
      if clients[i].resp == Ok {
        clients[i] := clients[i].(resp := ServerError);
      }
      clients[i] := clients[i].(outBuf := "", headerLen := 0, bodyLen := 0, fileSize := 0);
      ok := BuildErrorResponse(clients, i, w, req);
    }
  }
}
