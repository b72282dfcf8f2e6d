/** HEAD against GET (section 8.2 of RFC 1945). */
module HeadAndGet {
  import opened Wrappers
  import opened CString
  import opened Http
  import opened MessageHead
  import opened RequestParser
  import opened RequestGrammar
  import opened World
  import opened PathResolver
  import opened PathProperties
  import opened Responses
  import opened Framing

  lemma NoNulInFront(x: string, rest: string, n: nat)
    requires Clean(x) && n <= |rest|
    ensures NulFree(x + rest, 0, |x| + n) <==> NulFree(rest, 0, n)
  {
    var s := x + rest;
    assert forall k :: 0 <= k < |x| ==> s[k] == x[k];
    assert forall k :: 0 <= k < |rest| ==> s[|x| + k] == rest[k];
  }

  lemma HitMovesUp(x: string, rest: string, pat: string)
    requires Clean(x) && StrNStr(rest, pat).Some?
    ensures var q := StrNStr(x + rest, pat); q.Some? && q.value <= |x| + StrNStr(rest, pat).value
  {
    var r := StrNStr(rest, pat).value;
    OccursShifted(x, rest, pat, r);
    NoNulInFront(x, rest, r);
  }

  lemma HitMovesDown(x: string, rest: string, pat: string)
    requires Clean(x) && pat != "" && pat[0] == '\r' && StrNStr(x + rest, pat).Some?
    ensures var r := StrNStr(rest, pat); r.Some? && |x| + r.value <= StrNStr(x + rest, pat).value
  {
    var q := StrNStr(x + rest, pat).value;
    NotInClean(x, rest, pat, q);
    OccursShifted(x, rest, pat, q - |x|);
    NoNulInFront(x, rest, q - |x|);
  }

  /** Text without line breaks in front moves every hit of a pattern that starts with CR. */
  lemma SearchSkips(x: string, rest: string, pat: string)
    requires Clean(x) && pat != "" && pat[0] == '\r'
    ensures var r := StrNStr(rest, pat);
            StrNStr(x + rest, pat) == if r.Some? then Some(|x| + r.value) else None
  {
    hide StrNStr;
    if StrNStr(rest, pat).Some? { HitMovesUp(x, rest, pat); }
    if StrNStr(x + rest, pat).Some? { HitMovesDown(x, rest, pat); }
  }

  lemma NotInClean(x: string, rest: string, pat: string, k: nat)
    requires Clean(x) && pat != "" && pat[0] == '\r' && OccursAt(x + rest, pat, k)
    ensures k >= |x|
  {
    var s := x + rest;
    assert s[k..k + |pat|][0] == s[k];
  }

  /** The words of a line that starts with a method and a space. */
  lemma MethodFirst(m: string, rest: string)
    requires Clean(m) && m != "" && Without(m, ' ') && StrNStr(rest, BLANK_LINE).Some?
    ensures var head := m + " " + rest;
            && StrNStr(head, BLANK_LINE).Some?
            && Words(FirstLine(head), ' ') == [m] + Words(FirstLine(rest), ' ')
  {
    hide Words;
    var x, line := m + " ", FirstLine(rest);
    SearchSkips(x, rest, BLANK_LINE);
    SearchSkips(x, rest, CRLF);
    LineEnds(rest);
    assert (x + rest)[..|x| + |line|] == "" + m + (" " + line);
    FirstWord("", m, " " + line, ' ');
    assert (" " + line)[1..] == line;
  }

  lemma VerdictsAlike(cfg: Config, ws: seq<string>)
    ensures Verdict(cfg, ["GET"] + ws) == Verdict(cfg, ["HEAD"] + ws)
  {
    var w, w' := ["GET"] + ws, ["HEAD"] + ws;
    if |ws| == 2 {
      assert w == ["GET", ws[0], ws[1]] && w' == ["HEAD", ws[0], ws[1]];
    }
  }

  lemma ParseWithMethod(cfg: Config, m: string, rest: string, now: Timestamp)
    requires m in {"GET", "HEAD"} && StrNStr(rest, BLANK_LINE).Some?
    ensures var ws := Words(FirstLine(rest), ' ');
            var v := Verdict(cfg, [m] + ws);
            var path := if |ws| != 2 then "" else if |ws[0]| < cfg.pathMax then ws[0] else ws[0][..cfg.pathMax - 1];
            var req := if v == Some(BadRequest) then Request(UnknownMethod, UnknownVersion, now, path)
                       else Request(MethodFromToken(m), VersionFromToken(ws[1]), now, path);
            Parse(cfg, m + " " + rest, now, ZERO_REQUEST, Unset) == Parsed(v.None?, req, v.GetOr(Unset))
  {
    hide MethodFromToken, VersionFromToken, Words, StrNStr;
    MethodFirst(m, rest);
    var ws := Words(FirstLine(rest), ' ');
    var w := [m] + ws;
    if |ws| == 2 { assert w == [m, ws[0], ws[1]]; }
  }

  lemma VerdictIsError(cfg: Config, w: seq<string>)
    ensures Verdict(cfg, w).Some? ==> IsError(Verdict(cfg, w).value)
  {
  }

  /** Apart from the method, GET and HEAD parse alike; a 400 erases even that. */
  lemma ParsesAlike(cfg: Config, rest: string, now: Timestamp)
    requires StrNStr(rest, BLANK_LINE).Some?
    ensures Alike(Parse(cfg, "GET" + " " + rest, now, ZERO_REQUEST, Unset),
                  Parse(cfg, "HEAD" + " " + rest, now, ZERO_REQUEST, Unset), now)
  {
    hide Parse, Verdict, Words, StrNStr, FirstLine, VersionFromToken;
    VerdictIsError(cfg, ["GET"] + Words(FirstLine(rest), ' '));
    ParseWithMethod(cfg, "GET", rest, now);
    ParseWithMethod(cfg, "HEAD", rest, now);
    VerdictsAlike(cfg, Words(FirstLine(rest), ' '));
  }

  predicate Alike(g: Parsed, h: Parsed, now: Timestamp) {
    && g.ok == h.ok && g.resp == h.resp && g.req.time == now && (!g.ok ==> IsError(g.resp))
    && if !g.ok && g.resp == BadRequest then h.req == g.req && g.req.httpMethod == UnknownMethod
       else g.req.httpMethod == Get && h.req == g.req.(httpMethod := Head)
  }

  /** The request is for a script that can be opened and executed, runs well, and has output. */
  predicate ScriptSpeaks(cfg: Config, w: World, path: string) {
    var local, script := LocalPath(cfg, path), ScriptFile(path);
    && cfg.cgi && "/cgi-bin/" <= BeforeQuery(path)
    && local in w.files && w.files[local].Readable? && w.files[local].statOk && !w.files[local].isDir
    && w.pipeOk && w.forkOk && w.memoryOk
    && script in w.scripts && w.scripts[script].waitOk && w.scripts[script].exitStatus == Some(0)
    && PipeOutput(w.scripts[script].output).GetOr("") != ""
  }

  /** That is when a script's answer, with a body, is built. */
  lemma ScriptAnswers(cfg: Config, w: World, req: Request)
    ensures var r := Resolve(cfg, w, req.path);
            ScriptSpeaks(cfg, w, req.path)
            <==> r.Found? && r.rp.pathType == IsCgi && OkayPage(cfg, w, r.rp, req).Built?
                 && OkayAnswer(cfg, w, r.rp, req).body != ""
  {
    hide Resolve, LocalPath, BeforeQuery, HeadLines, PrintHead, PipeOutput, QueryString;
    ResolveOutcomes(cfg, w, req.path);
    QueryFits(cfg, req.path);
  }

  lemma QueryFits(cfg: Config, path: string)
    ensures |QueryString(cfg, path)| <= cfg.pathMax
  {
    WordsFit(Truncate(cfg, "." + path), '?');
  }

  lemma {:induction false} WordsFit(s: string, d: char)
    ensures forall k :: 0 <= k < |Words(s, d)| ==> |Words(s, d)[k]| <= |s|
    decreases |s|
  {
    if s != "" {
      if s[0] == d { WordsFit(s[1..], d); } else { WordsFit(s[CString.Run(s, d)..], d); }
    }
  }

  /** Apart from CGI, the builders differ for HEAD only in leaving the body out. */
  lemma OkayAlike(cfg: Config, w: World, rp: ResolvedPath, g: Request, h: Request)
    requires g.httpMethod == Get && h == g.(httpMethod := Head)
    ensures var (p, q) := (OkayPage(cfg, w, rp, g), OkayPage(cfg, w, rp, h));
            && p.Built? == q.Built? && (p.Failed? ==> q == p)
            && (p.Built? ==>
                  var (a, b) := (OkayAnswer(cfg, w, rp, g), OkayAnswer(cfg, w, rp, h));
                  !a.omitBody && b == a.(omitBody := !rp.pathType.IsCgi?))
  {
    hide StatusLine, StatusString, PrintHead, PipeOutput, Items;
  }

  /** The answer to HEAD is the answer to GET without the body, unless a script gives it. */
  lemma AnswersAlike(cfg: Config, w: World, g: Parsed, h: Parsed, now: Timestamp)
    requires Alike(g, h, now)
    ensures var (a, b) := (ParsedAnswer(cfg, w, g), ParsedAnswer(cfg, w, h));
            && b == a.(omitBody := b.omitBody) && !a.omitBody
            && (b.omitBody || a.body == "" <==> !(g.ok && ScriptSpeaks(cfg, w, g.req.path)))
  {
    hide StatusLine, StatusString, PrintHead, ErrorBody, ErrorMime, OkayPage, OkayAnswer, Resolve, ScriptSpeaks;
    BadRequestHasNoBody();
    if g.ok {
      var r := Resolve(cfg, w, g.req.path);
      ScriptAnswers(cfg, w, g.req);
      if r.Found? { OkayAlike(cfg, w, r.rp, g.req, h.req); }
    }
  }

  lemma BadRequestHasNoBody()
    ensures ErrorBody(BadRequest) == ""
  {
  }

  /** For the same target, version, later lines, file system and clock, the bytes staged for
      HEAD are the first `header_len` bytes staged for GET, exactly when the answer does not
      come from a script with output: files, listings, parse errors and resolve errors all
      obey, and CGI ignores HEAD. */
  lemma HeadIsHeadOfGet(cfg: Config, w: World, rest: string)
    requires w.errorMemoryOk && StrNStr(rest, BLANK_LINE).Some?
    ensures var (g, h) := (Stage(cfg, w, "GET" + " " + rest), Stage(cfg, w, "HEAD" + " " + rest));
            var p := Parse(cfg, "GET" + " " + rest, w.now, ZERO_REQUEST, Unset);
            && h.resp == g.resp && h.headerLen == g.headerLen <= |g.out|
            && (h.out == g.out[..g.headerLen] <==> !(p.ok && ScriptSpeaks(cfg, w, p.req.path)))
  {
    hide StatusLine, StatusString, PrintHead;
    var getHead, headHead := "GET" + " " + rest, "HEAD" + " " + rest;
    var g := Parse(cfg, getHead, w.now, ZERO_REQUEST, Unset);
    var h := Parse(cfg, headHead, w.now, ZERO_REQUEST, Unset);
    ParsesAlike(cfg, rest, w.now);
    AnswersAlike(cfg, w, g, h, w.now);
    SomethingIsStaged(cfg, w, g, |getHead|);
    SomethingIsStaged(cfg, w, h, |headHead|);
    ParsedStagePrints(cfg, w, g, |getHead|);
    ParsedStagePrints(cfg, w, h, |headHead|);
    var a, b := ParsedAnswer(cfg, w, g), ParsedAnswer(cfg, w, h);
    var lines := AnswerLines(w.now, a);
    assert AnswerLines(w.now, b) == lines;
    HeadOrAll(PrintHead(lines), a.body, b.omitBody);
  }

  /** Surroundings in which the script at `path` can be opened, runs well, and prints `output`. */
  function ScriptWorld(cfg: Config, path: string, output: string, now: Timestamp): World {
    World(map[LocalPath(cfg, path) := Readable(false, true, 0, "", None, "")], map[],
          map[ScriptFile(path) := CgiRun([Chunk(output)], true, Some(0))], now, true, true, true, true)
  }

  /** Whatever script is asked for, there are surroundings in which HEAD gets a body: those in
      which it prints something. */
  lemma HeadWithBody(cfg: Config, path: string, output: string, now: Timestamp)
    requires cfg.cgi && output != ""
    requires Servable(cfg, Request(Get, Http10, now, path)) && "/cgi-bin/" <= BeforeQuery(path)
    ensures var w := ScriptWorld(cfg, path, output, now);
            var (g, h) := (Stage(cfg, w, PlainRequest("GET", path)), Stage(cfg, w, PlainRequest("HEAD", path)));
            g.headerLen <= |g.out| && h.out != g.out[..g.headerLen]
  {
    hide Stage, Parse, LocalPath, BeforeQuery, StrNStr, AfterMethod;
    var w := ScriptWorld(cfg, path, output, now);
    PlainIsAccepted(cfg, Request(Get, Http10, now, path));
    WholeOutput(output);
    assert ScriptSpeaks(cfg, w, path);
    PlainEnds(path);
    HeadIsHeadOfGet(cfg, w, AfterMethod(path));
  }

  lemma WholeOutput(output: string)
    ensures PipeOutput([Chunk(output)]) == Some(output)
  {
    assert PipeOutput([]) == Some("") && output + "" == output;
    assert [Chunk(output)][1..] == [];
  }

  lemma PlainEnds(path: string)
    requires PrintableLine(path)
    ensures StrNStr(AfterMethod(path), BLANK_LINE).Some?
  {
    assert [path + " HTTP/1.0"][1..] == [];
    assert AfterMethod(path) + "" == PrintHead([path + " HTTP/1.0"]) + "";
    BlankLineFound([path + " HTTP/1.0"], "");
    assert AfterMethod(path) + "" == AfterMethod(path);
  }

  lemma HeadOrAll(head: string, body: string, omit: bool)
    ensures (head + (if omit then "" else body)) == (head + body)[..|head|] <==> omit || body == ""
  {
    assert (head + body)[..|head|] == head;
    assert head + "" == head;
    if body != "" { assert |head + body| != |head|; }
  }
}
