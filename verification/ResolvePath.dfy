/** From a request path to a file, a directory or a CGI script. */
module PathResolver {
  import opened Wrappers
  import opened CString
  import opened Http
  import opened World

  datatype PathType = IsFile | IsDir | IsCgi

  datatype ResolvedPath = ResolvedPath(query: string, content: string, fileSize: nat, mime: FieldText,
                                       modTime: Option<Timestamp>, pathType: PathType)

  datatype Resolution = Found(rp: ResolvedPath) | Unresolved(status: Status)

  const CGI_PREFIX: string := "./cgi-bin/"
  const DIR_INDEX: string := "index.htm"
  const DIR_INDEX2: string := "index.html"

  /** `snprintf` into a PATH_MAX buffer */
  function Truncate(cfg: Config, s: string): string {
    if |s| < cfg.pathMax then s else s[..cfg.pathMax - 1]
  }

  /** The path up to its first '?'. */
  function BeforeQuery(path: string): string { path[..Run(path, '?')] }

  function LocalPath(cfg: Config, path: string): string {
    var ws := Words(Truncate(cfg, "." + path), '?');
    if |ws| >= 1 then ws[0] else ""
  }

  function QueryString(cfg: Config, path: string): string {
    var ws := Words(Truncate(cfg, "." + path), '?');
    if |ws| >= 2 then ws[1] else ""
  }

  /** Where the index file of a directory is looked for. */
  function IndexPath(cfg: Config, local: string, index: string): string {
    Truncate(cfg, if local != "" && local[|local| - 1] == '/' then local + index else local + "/" + index)
  }

  function ServeFile(query: string, n: Node, mime: FieldText): Resolution
    requires n.Readable?
  {
    Found(ResolvedPath(query, n.content, n.size, mime, n.modTime, IsFile))
  }

  function ServeDirectory(cfg: Config, w: World, local: string, query: string, dir: Node): Resolution
    requires dir.Readable?
  {
    var first, second := Open(w, IndexPath(cfg, local, DIR_INDEX)), Open(w, IndexPath(cfg, local, DIR_INDEX2));
    var index := if first.Some? then first else second;
    if index.None? then Found(ResolvedPath(query, "", 0, "", dir.modTime, IsDir))
    else if !index.value.statOk then Unresolved(ServerError)
    else ServeFile(query, index.value, "text/html")
  }

  /** The outcome of `resolve_path`. */
  function Resolve(cfg: Config, w: World, path: string): Resolution {
    var local, query := LocalPath(cfg, path), QueryString(cfg, path);
    if local in w.files && w.files[local].Readable? then
      var n := w.files[local];
      if !n.statOk then Unresolved(ServerError)
      else if CGI_PREFIX <= local && !cfg.cgi then Unresolved(NotImplemented)
      else if n.isDir then ServeDirectory(cfg, w, local, query, n)
      else
        var pathType := if CGI_PREFIX <= local then IsCgi else IsFile;
        Found(ResolvedPath(query, n.content, n.size, n.mime, n.modTime, pathType))
    else Unresolved(if local in w.files then Forbidden else NotFound)
  }

  // ------------------------------------------------------------ the code

  /** `path_includes_cgi` searches ten bytes for a ten-byte string. */
  predicate PathIncludesCgi(path: string) {
    StrNStr(if |path| < 10 then path else path[..10], CGI_PREFIX).Some?
  }

  lemma CgiIsPrefix(path: string)
    ensures PathIncludesCgi(path) <==> CGI_PREFIX <= path
  {
    var s := if |path| < 10 then path else path[..10];
    if CGI_PREFIX <= path {
      assert OccursAt(s, CGI_PREFIX, 0);
    }
  }

  /** The two `strtok('?')` calls on the path buffer. */
  method SplitPath(cfg: Config, path: string) returns (local: string, query: string)
    requires Without(path, NUL)
    ensures local == LocalPath(cfg, path) && query == QueryString(cfg, path) && local != ""
  {
    var text := Truncate(cfg, "." + path);
    var buf := new char[cfg.pathMax](_ => NUL);
    forall k | 0 <= k < |text| { buf[k] := text[k]; }
    ghost var s0, stop := buf[..], |text|;
    assert s0[0..stop] == text;
    CStringIs(s0, 0, stop);
    var a, n1 := StrTok(buf, 0, '?', stop);
    ghost var s1 := buf[..];
    var b, n2 := StrTok(buf, n1, '?', stop);
    DotFirst(text);
    TokenKept(s1, buf[..], n1, stop, '?', b, n2, a.value);
    local := CStr(buf[..], a.value);
    query := if b.Some? then CStr(buf[..], b.value) else "";
  }

  lemma DotFirst(text: string)
    requires text != "" && text[0] == '.'
    ensures Words(text, '?') != [] && Words(text, '?')[0] != ""
  {
  }

  /** `resolve_path` */
  method ResolvePath(cfg: Config, w: World, path: string) returns (r: Resolution)
    requires Without(path, NUL)
    ensures r == Resolve(cfg, w, path)
  {
    var local, query := SplitPath(cfg, path);
    var trailingSlash := local[|local| - 1] == '/';
    CgiIsPrefix(local);
    if local !in w.files || w.files[local].Denied? {
      return Unresolved(if local in w.files then Forbidden else NotFound);
    }
    var node := w.files[local];
    if !node.statOk {
      return Unresolved(ServerError);
    }
    var pathType := IsFile;
    if PathIncludesCgi(local) {
      if cfg.cgi {
        pathType := IsCgi;
      } else {
        return Unresolved(NotImplemented);
      }
    }
    if node.isDir {
      var first := Open(w, Truncate(cfg, if trailingSlash then local + DIR_INDEX else local + "/" + DIR_INDEX));
      if first.Some? {
        r := DirIndex(query, first.value);
        return;
      }
      var second := Open(w, Truncate(cfg, if trailingSlash then local + DIR_INDEX2 else local + "/" + DIR_INDEX2));
      if second.Some? {
        r := DirIndex(query, second.value);
        return;
      }
      return Found(ResolvedPath(query, "", 0, "", node.modTime, IsDir));
    }
    return Found(ResolvedPath(query, node.content, node.size, node.mime, node.modTime, pathType));
  }

  /** The HANDLE_DIR_INDEX block. */
  method DirIndex(query: string, index: Node) returns (r: Resolution)
    requires index.Readable?
    ensures r == if index.statOk then ServeFile(query, index, "text/html") else Unresolved(ServerError)
  {
    if !index.statOk {
      return Unresolved(ServerError);
    }
    return Found(ResolvedPath(query, index.content, index.size, "text/html", index.modTime, IsFile));
  }
}
