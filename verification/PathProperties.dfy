/** How a request path is cut at '?' and walked segment by segment. */
module PathProperties {
  import opened Wrappers
  import opened CString
  import opened Http
  import opened MessageHead
  import opened RequestParser
  import opened RequestGrammar
  import opened World
  import opened PathResolver
  import opened Responses

  // ------------------------------------------------------------ the query

  function Min(a: nat, b: nat): nat { if a < b then a else b }

  lemma FirstPart(p: string)
    ensures Words("." + p, '?') == ["." + p[..Run(p, '?')]] + Words(p[Run(p, '?')..], '?')
  {
    var n, t := Run(p, '?'), "." + p;
    var word, rest := "." + p[..n], p[n..];
    assert t == "" + word + rest;
    FirstWord("", word, rest, '?');
  }

  lemma Truncated(cfg: Config, path: string)
    ensures Truncate(cfg, "." + path) == "." + path[..Min(|path|, cfg.pathMax - 2)]
  {
  }

  lemma RunOfPrefix(s: string, d: char, m: nat)
    requires m <= |s|
    ensures Run(s[..m], d) == Min(Run(s, d), m)
  {
    assert forall k :: 0 <= k < m ==> s[..m][k] == s[k];
  }

  /** The file that is opened: a dot, then the path up to its '?', cut to fit PATH_MAX. */
  lemma LocalPathIs(cfg: Config, path: string)
    ensures LocalPath(cfg, path) == "." + path[..Min(|BeforeQuery(path)|, cfg.pathMax - 2)]
  {
    var m := Min(|path|, cfg.pathMax - 2);
    Truncated(cfg, path);
    FirstPart(path[..m]);
    RunOfPrefix(path, '?', m);
    assert path[..m][..Run(path[..m], '?')] == path[..Min(Run(path, '?'), cfg.pathMax - 2)];
  }

  /** The script that `build_response_cgi` executes is the file that `resolve_path` opened,
      exactly when the part before the '?' fits: PATH_MAX - 1 characters are one too many. */
  lemma ScriptIsOpenedFile(cfg: Config, path: string)
    ensures LocalPath(cfg, path) == ScriptFile(path) <==> |BeforeQuery(path)| <= cfg.pathMax - 2
  {
    LocalPathIs(cfg, path);
  }

  /** Such a path is accepted all the same: a request for it passes the parser, the file
      that is opened lacks its last character, and the executed script does not. */
  lemma LongestPathIsCut(cfg: Config, path: string, now: Timestamp)
    requires Servable(cfg, Request(Get, Http10, now, path)) && |path| == cfg.pathMax - 1 && Without(path, '?')
    ensures Parse(cfg, PlainRequest("GET", path), now, ZERO_REQUEST, Unset).ok
    ensures LocalPath(cfg, path) == "." + path[..|path| - 1] && ScriptFile(path) == "." + path
  {
    PlainIsAccepted(cfg, Request(Get, Http10, now, path));
    LocalPathIs(cfg, path);
    RunIs(path, '?', |path|);
    assert path[..|path|] == path;
  }

  /** For every PATH_MAX there is such a script path. */
  lemma LongestScript(cfg: Config, now: Timestamp) returns (path: string)
    ensures |path| == cfg.pathMax - 1 && Without(path, '?') && "/cgi-bin/" <= path
    ensures Servable(cfg, Request(Get, Http10, now, path))
    ensures LocalPath(cfg, path) != ScriptFile(path)
  {
    path := "/cgi-bin/" + seq(cfg.pathMax - 10, _ => 'a');
    PlainPath(path);
    if i: nat :| DotDotSlashAt(path, i) { assert path[i] != '.'; }
    LongestPathIsCut(cfg, path, now);
  }

  /** Text without dots, line breaks, blanks and NULs passes all tests on characters. */
  lemma PlainPath(path: string)
    requires Clean(path)
    ensures PrintableLine(path) && Without(path, NUL)
    ensures !Climbs(path) ==> !HasTraversal(path)
  {
    PrintableByBytes(path);
    TraversalTest(path);
  }

  /** At most one '?', and then something after it. */
  predicate PlainQuery(path: string) {
    var i := Run(path, '?');
    i == |path| || (i + 1 < |path| && Without(path[i + 1..], '?'))
  }

  function Rejoin(local: string, query: string): string {
    if query == "" then local else local + "?" + query
  }

  /** The second word of a text that starts with '?'. */
  lemma {:induction false} SecondPart(s: string)
    requires s != "" && s[0] == '?'
    ensures var ws := Words(s, '?'); var q := if ws == [] then "" else ws[0];
            Without(q, '?') && |q| + 1 <= |s| && (s == "?" + q && q != "" <==> |s| > 1 && Without(s[1..], '?'))
  {
    var r := s[1..];
    if r != "" && r[0] == '?' {
      SecondPart(r);
    } else if r != "" {
      var n := Run(r, '?');
      assert s == "?" + r;
      assert Words(s, '?')[0] == r[..n];
    }
  }

  /** Path and query rebuild the request path exactly when the buffer was long enough and
      there is at most one '?', with something after it. */
  lemma SplitRebuilds(cfg: Config, path: string)
    ensures Rejoin(LocalPath(cfg, path), QueryString(cfg, path)) == "." + path
       <==> |path| <= cfg.pathMax - 2 && PlainQuery(path)
  {
    var m := Min(|path|, cfg.pathMax - 2);
    var p := path[..m];
    Truncated(cfg, path);
    FirstPart(p);
    var n := Run(p, '?');
    var local, query := LocalPath(cfg, path), QueryString(cfg, path);
    assert local == "." + p[..n];
    if n == m {
      assert p[n..] == "" && query == "";
      if |path| <= cfg.pathMax - 2 { assert p == path && local == "." + path; }
    } else {
      SecondPart(p[n..]);
      assert query == if Words(p[n..], '?') == [] then "" else Words(p[n..], '?')[0];
      assert p == p[..n] + p[n..];
      RejoinCase(path, m, p[..n], p[n..], query);
      RunOfPrefix(path, '?', m);
      if m == |path| { assert p == path && p[n..][1..] == path[n + 1..]; }
    }
  }

  lemma RejoinCase(path: string, m: nat, a: string, r: string, q: string)
    requires m <= |path| && path[..m] == a + r && |q| + 1 <= |r|
    ensures Rejoin("." + a, q) == "." + path <==> m == |path| && q != "" && r == "?" + q
  {
    var text := Rejoin("." + a, q);
    if text == "." + path {
      assert q != "" && m == |path|;
      assert path == a + r == a + ("?" + q) by {
        assert path == path[..m];
        assert ("." + path)[1..] == path;
        assert text[1..] == a + ("?" + q);
      }
      assert (a + r)[|a|..] == r && (a + ("?" + q))[|a|..] == "?" + q;
    }
    if m == |path| && q != "" && r == "?" + q {
      assert path == path[..m];
      assert text == "." + (a + r);
    }
  }

  // ------------------------------------------------------------ the segments

  /** The pieces between the slashes. */
  function Segments(s: string): (segs: seq<string>)
    ensures segs != []
    decreases |s|
  {
    var n := Run(s, '/');
    if n == |s| then [s] else [s[..n]] + Segments(s[n + 1..])
  }

  predicate EndsInDots(seg: string) { |seg| >= 2 && seg[|seg| - 1] == seg[|seg| - 2] == '.' }

  predicate DotDotSlashAt(s: string, i: nat) {
    i + 2 < |s| && s[i] == '.' && s[i + 1] == '.' && s[i + 2] == '/'
  }

  lemma DotDotSlashOccurs(s: string, i: nat)
    ensures OccursAt(s, "../", i) <==> DotDotSlashAt(s, i)
  {
    if i + 3 <= |s| {
      var t := s[i..i + 3];
      assert t[0] == s[i] && t[1] == s[i + 1] && t[2] == s[i + 2];
    }
  }

  ghost predicate Climbs(s: string) { exists i: nat :: DotDotSlashAt(s, i) }

  lemma DotsBefore(s: string)
    requires Run(s, '/') < |s|
    ensures var n := Run(s, '/'); Climbs(s) <==> EndsInDots(s[..n]) || Climbs(s[n + 1..])
  {
    var n := Run(s, '/');
    var rest := s[n + 1..];
    assert forall j :: 0 <= j < |rest| ==> rest[j] == s[n + 1 + j];
    if EndsInDots(s[..n]) { assert DotDotSlashAt(s, n - 2); }
    if i: nat :| DotDotSlashAt(rest, i) { assert DotDotSlashAt(s, n + 1 + i); }
    if i: nat :| DotDotSlashAt(s, i) { DotsAround(s, n, i); }
  }

  lemma DotsAround(s: string, n: nat, i: nat)
    requires n < |s| && s[n] == '/' && Without(s[..n], '/') && DotDotSlashAt(s, i)
    ensures EndsInDots(s[..n]) || Climbs(s[n + 1..])
  {
    assert forall k :: 0 <= k < n ==> s[..n][k] == s[k];
    if i > n { assert DotDotSlashAt(s[n + 1..], i - n - 1); }
  }

  ghost predicate InnerDots(segs: seq<string>) { exists k :: 0 <= k < |segs| - 1 && EndsInDots(segs[k]) }

  lemma InnerDotsCons(seg: string, segs: seq<string>)
    requires segs != []
    ensures InnerDots([seg] + segs) <==> EndsInDots(seg) || InnerDots(segs)
  {
    var all := [seg] + segs;
    if EndsInDots(seg) { assert EndsInDots(all[0]); }
    if k :| 0 <= k < |segs| - 1 && EndsInDots(segs[k]) { assert EndsInDots(all[k + 1]); }
    if k :| 0 <= k < |all| - 1 && EndsInDots(all[k]) {
      if k > 0 { assert EndsInDots(segs[k - 1]); }
    }
  }

  /** "../" occurs in a path exactly when some segment before the last one ends in "..". */
  lemma {:induction false} TraversalBySegments(s: string)
    ensures Climbs(s) <==> InnerDots(Segments(s))
    decreases |s|
  {
    var n := Run(s, '/');
    if n < |s| {
      DotsBefore(s);
      TraversalBySegments(s[n + 1..]);
      InnerDotsCons(s[..n], Segments(s[n + 1..]));
    }
  }

  lemma TraversalTest(s: string)
    requires Without(s, NUL)
    ensures HasTraversal(s) <==> Climbs(s)
  {
    if HasTraversal(s) { DotDotSlashOccurs(s, StrNStr(s, "../").value); }
    if i: nat :| DotDotSlashAt(s, i) {
      DotDotSlashOccurs(s, i);
      assert NulFree(s, 0, i);
    }
  }

  /** The depth below the document root after following the segments, None once above it. */
  function Walk(segs: seq<string>, depth: nat): Option<nat> {
    if segs == [] then Some(depth)
    else if segs[0] == ".." then if depth == 0 then None else Walk(segs[1..], depth - 1)
    else if segs[0] == "" || segs[0] == "." then Walk(segs[1..], depth)
    else Walk(segs[1..], depth + 1)
  }

  lemma {:induction false} WalkDown(segs: seq<string>, depth: nat)
    requires forall k :: 0 <= k < |segs| ==> segs[k] != ".."
    ensures Walk(segs, depth).Some? && Walk(segs, depth).value >= depth
  {
    if segs != [] {
      WalkDown(segs[1..], if segs[0] == "" || segs[0] == "." then depth else depth + 1);
    }
  }

  lemma {:induction false} WalkLast(segs: seq<string>, last: string, depth: nat)
    requires forall k :: 0 <= k < |segs| ==> segs[k] != ".."
    ensures Walk(segs + [last], depth).None? <==> last == ".." && Walk(segs, depth) == Some(0)
  {
    if segs == [] {
      assert [last][1..] == [];
      assert segs + [last] == [last];
    } else {
      assert (segs + [last])[1..] == segs[1..] + [last];
      WalkLast(segs[1..], last, if segs[0] == "" || segs[0] == "." then depth else depth + 1);
    }
  }

  /** Empty segments and single dots lead nowhere. */
  predicate Idle(segs: seq<string>) {
    forall k :: 0 <= k < |segs| ==> segs[k] == "" || segs[k] == "."
  }

  lemma {:induction false} WalkNowhere(segs: seq<string>, depth: nat)
    requires forall k :: 0 <= k < |segs| ==> segs[k] != ".."
    ensures Walk(segs, depth) == Some(depth) <==> Idle(segs)
  {
    if segs != [] {
      if segs[0] == "" || segs[0] == "." {
        WalkNowhere(segs[1..], depth);
        assert Idle(segs) <==> Idle(segs[1..]);
      } else {
        WalkDown(segs[1..], depth + 1);
        assert !Idle(segs);
      }
    }
  }

  /** All but the last segment stay at or below the start, and the last one leaves it exactly
      when it is ".." and nothing but empty segments and single dots comes before it. */
  ghost predicate ClimbsOnlyLast(s: string) {
    var segs := Segments(s);
    var init := segs[..|segs| - 1];
    && Walk(init, 0).Some?
    && (Walk(segs, 0).None? <==> segs[|segs| - 1] == ".." && Idle(init))
  }

  lemma WalkOfClimbless(s: string)
    requires !Climbs(s)
    ensures ClimbsOnlyLast(s)
  {
    var segs := Segments(s);
    var init := segs[..|segs| - 1];
    TraversalBySegments(s);
    forall k | 0 <= k < |init| ensures init[k] != ".." {
      assert !EndsInDots(segs[k]);
    }
    WalkDown(init, 0);
    WalkNowhere(init, 0);
    assert init + [segs[|segs| - 1]] == segs;
    WalkLast(init, segs[|segs| - 1], 0);
  }

  /** Cutting a path, at its '?' or at PATH_MAX, makes no "../". */
  lemma OpenedHasNoTraversal(cfg: Config, path: string)
    requires Without(path, NUL) && path != "" && path[0] == '/' && !HasTraversal(path)
    ensures !Climbs(LocalPath(cfg, path))
  {
    TraversalTest(path);
    LocalPathIs(cfg, path);
    var local := LocalPath(cfg, path);
    assert forall k :: 1 <= k < |local| ==> local[k] == path[k - 1];
    if i: nat :| DotDotSlashAt(local, i) {
      assert DotDotSlashAt(path, i - 1);
    }
  }

  /** The file that is opened for an accepted request never lies above the document root
      before its last segment, and lies above it exactly when that segment is ".." and all
      before it are empty or a single dot. What decides is the opened path, not the requested one: the cut at '?' or at
      PATH_MAX can bring the ".." about (`EscapingRequests`). */
  lemma AcceptedPathWalk(cfg: Config, head: string, now: Timestamp)
    requires Parse(cfg, head, now, ZERO_REQUEST, Unset).ok
    ensures ClimbsOnlyLast(LocalPath(cfg, Parse(cfg, head, now, ZERO_REQUEST, Unset).req.path))
  {
    var path := Parse(cfg, head, now, ZERO_REQUEST, Unset).req.path;
    var _ := AcceptedIsPrinted(cfg, head, now, ZERO_REQUEST, Unset);
    OpenedHasNoTraversal(cfg, path);
    WalkOfClimbless(LocalPath(cfg, path));
  }

  /** A listing is not read from the file that was opened but from the request path without
      its first slash: that is the same directory if and only if the path has no query and
      fits PATH_MAX - 2 characters. */
  lemma ListedIsOpened(cfg: Config, path: string)
    requires path != "" && path[0] == '/'
    ensures LocalPath(cfg, path) == "./" + ListedDir(path) <==> Without(path, '?') && |path| <= cfg.pathMax - 2
  {
    LocalPathIs(cfg, path);
    assert "." + path == "./" + ListedDir(path);
    var n := Min(|BeforeQuery(path)|, cfg.pathMax - 2);
    assert |"." + path[..n]| == n + 1 && |"." + path| == |path| + 1;
    if n == |path| { assert path[..n] == path; }
  }

  /** The directory is looked up below the document root and not left on the way. */
  predicate StaysBelow(dir: string) {
    !("/" <= dir) && Walk(Segments(dir), 0).Some?
  }

  /** A listing of an accepted path is of a directory below the document root if and only if
      the path does not start with two slashes, and is not ".." after nothing but empty
      segments and single dots. */
  lemma ListedPathWalk(cfg: Config, head: string, now: Timestamp)
    requires Parse(cfg, head, now, ZERO_REQUEST, Unset).ok
    ensures var path := Parse(cfg, head, now, ZERO_REQUEST, Unset).req.path;
            var segs := Segments(ListedDir(path));
            StaysBelow(ListedDir(path))
            <==> !("//" <= path) && !(segs[|segs| - 1] == ".." && Idle(segs[..|segs| - 1]))
  {
    var path := Parse(cfg, head, now, ZERO_REQUEST, Unset).req.path;
    var _ := AcceptedIsPrinted(cfg, head, now, ZERO_REQUEST, Unset);
    var dir := ListedDir(path);
    assert path == "/" + dir;
    TraversalTest(path);
    if i: nat :| DotDotSlashAt(dir, i) { assert DotDotSlashAt(path, i + 1); }
    WalkOfClimbless(dir);
    assert "/" <= dir <==> "//" <= path;
  }

  /** Accepted, and absolute: "//etc", or two slashes before any plain name. */
  lemma AbsoluteListing(cfg: Config, name: string, now: Timestamp)
    requires Clean(name) && Without(name, ' ') && Without(name, '.') && |name| + 2 < cfg.pathMax
    ensures Parse(cfg, PlainRequest("GET", "//" + name), now, ZERO_REQUEST, Unset).ok
    ensures ListedDir("//" + name) == "/" + name && !StaysBelow(ListedDir("//" + name))
  {
    hide Parse, PlainRequest;
    var path := "//" + name;
    assert forall k :: 2 <= k < |path| ==> path[k] == name[k - 2];
    PlainPath(path);
    PlainIsAccepted(cfg, Request(Get, Http10, now, path));
    assert path[1..] == "/" + name;
  }

  lemma {:induction false} RootAndDots(slashes: string)
    requires Only(slashes, '/')
    ensures Walk(Segments(slashes + ".."), 0).None?
  {
    var s := slashes + "..";
    if slashes == "" {
      RunIs(s, '/', 2);
    } else {
      RunIs(s, '/', 0);
      assert s[1..] == slashes[1..] + "..";
      RootAndDots(slashes[1..]);
    }
  }

  lemma DotThenRootAndDots(slashes: string)
    requires slashes != "" && Only(slashes, '/')
    ensures Walk(Segments("." + slashes + ".."), 0).None?
  {
    var local := "." + slashes + "..";
    assert local[0] == '.' && local[1] == slashes[0];
    RunIs(local, '/', 1);
    assert local[2..] == slashes[1..] + ".." && local[..1] == ".";
    RootAndDots(slashes[1..]);
  }

  /** A path that is cut down to slashes and two dots is accepted, and opens the parent of
      the document root. */
  lemma EscapesTheRoot(cfg: Config, path: string, slashes: string, now: Timestamp)
    requires Servable(cfg, Request(Get, Http10, now, path))
    requires slashes != "" && Only(slashes, '/') && LocalPath(cfg, path) == "." + slashes + ".."
    ensures var p := Parse(cfg, PlainRequest("GET", path), now, ZERO_REQUEST, Unset);
            p.ok && p.req.path == path && Walk(Segments(LocalPath(cfg, path)), 0).None?
  {
    hide Parse, PlainRequest, Walk, Segments, LocalPath, Servable;
    PlainIsAccepted(cfg, Request(Get, Http10, now, path));
    DotThenRootAndDots(slashes);
  }

  /** A run of slashes and two dots, cut off by a query, by PATH_MAX, or by nothing. */
  predicate CutToDots(cfg: Config, slashes: string, tail: string) {
    && slashes != "" && Only(slashes, '/') && |slashes| + 4 <= cfg.pathMax && |slashes| + 2 + |tail| < cfg.pathMax
    && (tail == "" || tail == "?x" || (tail == "x" && |slashes| + 4 == cfg.pathMax))
  }

  lemma CutToDotsIsServable(cfg: Config, slashes: string, tail: string, now: Timestamp)
    requires CutToDots(cfg, slashes, tail)
    ensures Servable(cfg, Request(Get, Http10, now, slashes + ".." + tail))
  {
    var path, n := slashes + ".." + tail, |slashes|;
    assert path[n] == path[n + 1] == '.' && forall k :: n + 2 <= k < |path| ==> path[k] == tail[k - n - 2];
    assert forall k :: 0 <= k < n ==> path[k] == '/';
    assert forall k :: 0 <= k < |tail| ==> tail[k] != '/' && tail[k] != '.';
    PlainPath(path);
  }

  lemma CutToDotsOpens(cfg: Config, slashes: string, tail: string)
    requires CutToDots(cfg, slashes, tail)
    ensures LocalPath(cfg, slashes + ".." + tail) == "." + slashes + ".."
  {
    var path, n := slashes + ".." + tail, |slashes|;
    assert path[n] == path[n + 1] == '.' && forall k :: n + 2 <= k < |path| ==> path[k] == tail[k - n - 2];
    assert forall k :: 0 <= k < n ==> path[k] == '/';
    RunIs(path, '?', if tail == "?x" then n + 2 else |path|);
    LocalPathIs(cfg, path);
    assert path[..n + 2] == slashes + "..";
  }

  /** Three kinds of accepted requests that do so: ".." itself ("/.."), ".." before a query
      ("/..?x"), and ".." at the place where PATH_MAX cuts. */
  lemma EscapingRequests(cfg: Config, slashes: string, tail: string, now: Timestamp)
    requires CutToDots(cfg, slashes, tail)
    ensures var path := slashes + ".." + tail; var p := Parse(cfg, PlainRequest("GET", path), now, ZERO_REQUEST, Unset);
            p.ok && p.req.path == path && Walk(Segments(LocalPath(cfg, path)), 0).None?
  {
    hide LocalPath, Segments, Walk, Parse, PlainRequest;
    CutToDotsIsServable(cfg, slashes, tail, now);
    CutToDotsOpens(cfg, slashes, tail);
    EscapesTheRoot(cfg, slashes + ".." + tail, slashes, now);
  }

  // ------------------------------------------------------------ the outcome

  /** A request is for a script exactly when its path, without the query, starts with
      "/cgi-bin/"; a longer first segment or a deeper directory of that name does not count. */
  lemma CgiByPath(cfg: Config, path: string)
    ensures PathIncludesCgi(LocalPath(cfg, path)) <==> "/cgi-bin/" <= BeforeQuery(path)
  {
    hide LocalPath, BeforeQuery;
    LocalPathIs(cfg, path);
    CgiIsPrefix(LocalPath(cfg, path));
    var p, n := BeforeQuery(path), Min(|BeforeQuery(path)|, cfg.pathMax - 2);
    PathPrefix(path, n);
    DotInFront(p, n);
  }

  lemma PathPrefix(path: string, n: nat)
    requires n <= |BeforeQuery(path)|
    ensures path[..n] == BeforeQuery(path)[..n]
  {
  }

  lemma DotInFront(p: string, n: nat)
    requires n == |p| || (n < |p| && n >= 9)
    ensures CGI_PREFIX <= "." + p[..n] <==> "/cgi-bin/" <= p
  {
    var t := "." + p[..n];
    if |t| >= 10 { assert t[..10] == "." + p[..9]; }
    assert CGI_PREFIX == "." + "/cgi-bin/";
    if CGI_PREFIX <= t { assert t[..10][1..] == CGI_PREFIX[1..]; }
  }

  /** The node that answers a directory: its index.htm, or else its index.html. */
  function IndexOf(cfg: Config, w: World, local: string): Option<Node> {
    var first := Open(w, IndexPath(cfg, local, DIR_INDEX));
    if first.Some? then first else Open(w, IndexPath(cfg, local, DIR_INDEX2))
  }

  /** For reference: when each outcome of `resolve_path` arises, in terms of the request path. */
  lemma ResolveOutcomes(cfg: Config, w: World, path: string)
    ensures var (local, r) := (LocalPath(cfg, path), Resolve(cfg, w, path));
            var node, scripted := Open(w, local), "/cgi-bin/" <= BeforeQuery(path);
            var listed := node.Some? && node.value.statOk && (cfg.cgi || !scripted) && node.value.isDir;
            && (r == Unresolved(Status.NotFound) <==> local !in w.files)
            && (r == Unresolved(Status.Forbidden) <==> local in w.files && w.files[local].Denied?)
            && (r == Unresolved(NotImplemented) <==> node.Some? && node.value.statOk && !cfg.cgi && scripted)
            && (r == Unresolved(ServerError)
                <==> ((node.Some? && !node.value.statOk)
                      || (listed && IndexOf(cfg, w, local).Some? && !IndexOf(cfg, w, local).value.statOk)))
            && (r.Found? && r.rp.pathType == IsDir <==> listed && IndexOf(cfg, w, local).None?)
            && (r.Found? && r.rp.pathType == IsCgi
                <==> node.Some? && node.value.statOk && !node.value.isDir && cfg.cgi && scripted)
            && (r.Found? && r.rp.pathType == IsFile ==>
                  var served := if listed then IndexOf(cfg, w, local) else node;
                  served.Some? && r.rp.content == served.value.content && r.rp.fileSize == served.value.size)
            && (r.Found? ==> r.rp.query == QueryString(cfg, path))
            && (r.Unresolved? ==> r.status in {Status.NotFound, Status.Forbidden, NotImplemented, ServerError})
  {
    hide LocalPath, IndexPath, QueryString, BeforeQuery;
    CgiByPath(cfg, path);
    CgiIsPrefix(LocalPath(cfg, path));
  }
}
