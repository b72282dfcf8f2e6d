/** The head shared by requests and responses: lines ended by CRLF, then an empty line
    (sections 5 and 6 of RFC 1945), with a reader of such heads. */
module MessageHead {
  import opened Wrappers
  import opened CString
  import opened Http

  function PrintHead(lines: seq<string>): string {
    if lines == [] then CRLF else lines[0] + CRLF + PrintHead(lines[1..])
  }

  /** A recipient's view: the lines up to the first empty one, and what follows. */
  function ReadHead(s: string): Option<(seq<string>, string)>
    decreases |s|
  {
    match StrNStr(s, CRLF)
    case None => None
    case Some(k) =>
      if k == 0 then Some(([], s[2..]))
      else
        match ReadHead(s[k + 2..])
        case None => None
        case Some(p) => Some(([s[..k]] + p.0, p.1))
  }

  /** The value of the first field called `name`. */
  function FieldValue(lines: seq<string>, name: string): Option<string> {
    if lines == [] then None
    else if name + ": " <= lines[0] then Some(lines[0][|name| + 2..])
    else FieldValue(lines[1..], name)
  }

  ghost predicate ProperLines(lines: seq<string>) {
    forall k :: 0 <= k < |lines| ==> lines[k] != "" && Clean(lines[k])
  }

  /** Text that can stand within one line of a head. */
  predicate PrintableLine(s: string) {
    Without(s, NUL) && StrNStr(s, CRLF).None?
  }

  predicate CrlfAt(s: string, k: nat) {
    k + 1 < |s| && s[k] == '\r' && s[k + 1] == '\n'
  }

  lemma CrlfOccurs(s: string, k: nat)
    ensures OccursAt(s, CRLF, k) <==> CrlfAt(s, k)
  {
    if k + 2 <= |s| {
      var t := s[k..k + 2];
      assert t[0] == s[k] && t[1] == s[k + 1];
    }
  }

  lemma PrintableByBytes(s: string)
    ensures PrintableLine(s) <==> Without(s, NUL) && forall k: nat :: !CrlfAt(s, k)
  {
    var r := StrNStr(s, CRLF);
    if r.Some? {
      CrlfOccurs(s, r.value);
    } else if Without(s, NUL) {
      forall k: nat ensures !CrlfAt(s, k) {
        CrlfOccurs(s, k);
        if k <= |s| { assert NulFree(s, 0, k); }
      }
    }
  }

  /** Text without line breaks around a line neither makes nor hides a CRLF in it. */
  lemma CleanAround(x: string, p: string, y: string)
    requires Clean(x) && Clean(y)
    ensures PrintableLine(x + p + y) <==> PrintableLine(p)
  {
    hide StrNStr;
    var s := x + p + y;
    PrintableByBytes(s);
    PrintableByBytes(p);
    BytesAround(x, p, y);
    assert forall k :: 0 <= k < |p| ==> p[k] == s[|x| + k];
    assert Without(s, NUL) <==> Without(p, NUL);
    if k: nat :| CrlfAt(p, k) { assert CrlfAt(s, |x| + k); }
    if k: nat :| CrlfAt(s, k) { assert CrlfAt(p, k - |x|); }
  }

  lemma BytesAround(x: string, p: string, y: string)
    ensures var s := x + p + y;
            forall k :: 0 <= k < |s| ==>
              s[k] == if k < |x| then x[k] else if k < |x| + |p| then p[k - |x|] else y[k - |x| - |p|]
  {
  }

  lemma FirstCrlf(line: string, rest: string)
    requires PrintableLine(line)
    ensures StrNStr(line + CRLF + rest, CRLF) == Some(|line|)
  {
    var s := line + CRLF + rest;
    assert s[|line|..|line| + 2] == CRLF;
    assert OccursAt(s, CRLF, |line|) && NulFree(s, 0, |line|);
    var k := StrNStr(s, CRLF).value;
    if k < |line| { CrlfWithin(line, rest, k); }
  }

  lemma CrlfWithin(line: string, rest: string, k: nat)
    requires k < |line| && OccursAt(line + CRLF + rest, CRLF, k)
    ensures OccursAt(line, CRLF, k)
  {
    var s := line + CRLF + rest;
    assert s[k..k + 2][0] == s[k] && s[k..k + 2][1] == s[k + 1] == '\n';
    assert line[k..k + 2] == s[k..k + 2];
  }

  lemma PrintHeadCons(line: string, lines: seq<string>, body: string)
    ensures PrintHead([line] + lines) + body == line + CRLF + (PrintHead(lines) + body)
  {
    assert ([line] + lines)[1..] == lines;
  }

  /** Reading back a printed head gives its lines and leaves the body untouched. */
  lemma {:induction false} ReadPrinted(lines: seq<string>, body: string)
    requires ProperLines(lines)
    ensures ReadHead(PrintHead(lines) + body) == Some((lines, body))
  {
    var s := PrintHead(lines) + body;
    if lines == [] {
      assert s == "" + CRLF + body;
      assert Clean("");
      FirstCrlf("", body);
      assert s[2..] == body;
    } else {
      var rest := PrintHead(lines[1..]) + body;
      assert s == lines[0] + CRLF + rest;
      assert "" + lines[0] + "" == lines[0];
      CleanAround(lines[0], "", "");
      FirstCrlf(lines[0], rest);
      ReadPrinted(lines[1..], body);
      assert s[|lines[0]| + 2..] == rest && s[..|lines[0]|] == lines[0];
      assert [lines[0]] + lines[1..] == lines;
    }
  }

  lemma {:induction false} HeadEnds(lines: seq<string>, body: string)
    requires lines != [] && forall k :: 0 <= k < |lines| ==> Without(lines[k], NUL)
    ensures var (h, s) := (PrintHead(lines), PrintHead(lines) + body);
            |h| >= 4 && Without(h, NUL) && OccursAt(s, BLANK_LINE, |h| - 4)
  {
    var h, rest := PrintHead(lines), PrintHead(lines[1..]);
    assert h == lines[0] + CRLF + rest;
    if |lines| == 1 {
      assert h == lines[0] + BLANK_LINE;
      assert (h + body)[|h| - 4..|h|] == BLANK_LINE;
    } else {
      HeadEnds(lines[1..], body);
      var n := |rest| - 4;
      assert (h + body)[|h| - 4..|h|] == (rest + body)[n..n + 4];
    }
  }

  /** Whatever follows a head of NUL-free lines, its blank line is found. */
  lemma BlankLineFound(lines: seq<string>, body: string)
    requires lines != [] && forall k :: 0 <= k < |lines| ==> Without(lines[k], NUL)
    ensures var r := StrNStr(PrintHead(lines) + body, BLANK_LINE); r.Some? && r.value <= |PrintHead(lines)| - 4
  {
    HeadEnds(lines, body);
    var h := PrintHead(lines);
    assert forall k :: 0 <= k < |h| ==> (h + body)[k] == h[k];
    assert NulFree(h + body, 0, |h| - 4);
  }

  lemma BlankLineBytes(s: string, k: nat)
    requires OccursAt(s, BLANK_LINE, k)
    ensures s[k] == '\r' && s[k + 1] == '\n' && s[k + 2] == '\r'
  {
    var t := s[k..k + 4];
    assert t[0] == s[k] && t[1] == s[k + 1] && t[2] == s[k + 2];
  }

  /** A blank line cannot start within a line, at the CRLF before a nonempty line, or in it. */
  lemma NotBefore(line: string, next: string, rest: string, k: nat)
    requires Clean(line) && Clean(next) && next != "" && OccursAt(line + CRLF + (next + rest), BLANK_LINE, k)
    ensures k >= |line| + 2
  {
    var s := line + CRLF + (next + rest);
    BlankLineBytes(s, k);
    assert s[|line|] == '\r' && s[|line| + 1] == '\n' && s[|line| + 2] == next[0];
    assert forall j :: 0 <= j < |line| ==> s[j] == line[j];
  }

  lemma NotWithin(line: string, rest: string, k: nat)
    requires Clean(line) && OccursAt(line + rest, BLANK_LINE, k)
    ensures k >= |line|
  {
    BlankLineBytes(line + rest, k);
    assert forall j :: 0 <= j < |line| ==> (line + rest)[j] == line[j];
  }

  lemma {:induction false} NoEarlierBlankLine(lines: seq<string>, body: string, k: nat)
    requires lines != [] && ProperLines(lines) && k + 4 < |PrintHead(lines)|
    ensures !OccursAt(PrintHead(lines) + body, BLANK_LINE, k)
  {
    var line, tail := lines[0], lines[1..];
    assert [line] + tail == lines;
    PrintHeadCons(line, tail, body);
    if OccursAt(PrintHead(lines) + body, BLANK_LINE, k) {
      if tail == [] {
        NotWithin(line, CRLF + (PrintHead(tail) + body), k);
        Grouped(line, PrintHead(tail) + body);
      } else {
        assert [tail[0]] + tail[1..] == tail;
        PrintHeadCons(tail[0], tail[1..], body);
        Grouped(tail[0], PrintHead(tail[1..]) + body);
        NotBefore(line, tail[0], CRLF + (PrintHead(tail[1..]) + body), k);
        OccursShifted(line + CRLF, PrintHead(tail) + body, BLANK_LINE, k - |line| - 2);
        NoEarlierBlankLine(tail, body, k - |line| - 2);
      }
    }
  }

  lemma Grouped(line: string, rest: string)
    ensures line + CRLF + rest == line + (CRLF + rest)
  {
  }

  /** The first blank line of a printed message is the one that ends its head. */
  lemma BlankLineExact(lines: seq<string>, body: string)
    requires lines != [] && ProperLines(lines)
    ensures |PrintHead(lines)| >= 4
    ensures StrNStr(PrintHead(lines) + body, BLANK_LINE) == Some(|PrintHead(lines)| - 4)
  {
    BlankLineFound(lines, body);
    var k := StrNStr(PrintHead(lines) + body, BLANK_LINE).value;
    if k < |PrintHead(lines)| - 4 {
      NoEarlierBlankLine(lines, body, k);
    }
  }
}
