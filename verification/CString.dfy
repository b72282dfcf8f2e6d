/** The C string routines the server leans on: `strnstr`, `strtok` and decimal conversion.
    A byte is modelled as a `char`; a C string ends at its first NUL. */
module CString {
  import opened Wrappers

  const NUL: char := '\0'
  const CRLF: string := "\r\n"
  const BLANK_LINE: string := "\r\n\r\n"

  // ---------------------------------------------------------------- strnstr

  predicate OccursAt(s: string, pat: string, i: nat) {
    i + |pat| <= |s| && s[i..i + |pat|] == pat
  }

  predicate NulFree(s: string, i: nat, j: nat)
    requires j <= |s|
  {
    forall k :: i <= k < j ==> s[k] != NUL
  }

  /** `strnstr(s, pat, |s|)`, started at offset `i`: the first occurrence that no NUL precedes. */
  function StrNStrFrom(s: string, pat: string, i: nat): (r: Option<nat>)
    requires i <= |s|
    ensures r.Some? ==> i <= r.value && OccursAt(s, pat, r.value) && NulFree(s, i, r.value)
    ensures forall k: nat :: i <= k && OccursAt(s, pat, k) && NulFree(s, i, k) ==> r.Some? && r.value <= k
    decreases |s| - i
  {
    if OccursAt(s, pat, i) then Some(i)
    else if i == |s| || s[i] == NUL then None
    else StrNStrFrom(s, pat, i + 1)
  }

  function StrNStr(s: string, pat: string): (r: Option<nat>)
    ensures r.Some? ==> OccursAt(s, pat, r.value) && NulFree(s, 0, r.value)
    ensures forall k: nat :: OccursAt(s, pat, k) && NulFree(s, 0, k) ==> r.Some? && r.value <= k
  {
    StrNStrFrom(s, pat, 0)
  }

  /** A hit is decided by the bytes up to its end: searching any prefix finds it or finds nothing. */
  lemma SearchOfPrefix(s: string, u: string, pat: string)
    requires s <= u
    ensures var r := StrNStr(u, pat);
            StrNStr(s, pat) == if r.Some? && r.value + |pat| <= |s| then r else None
  {
    var r, q := StrNStr(u, pat), StrNStr(s, pat);
    if q.Some? {
      assert OccursAt(u, pat, q.value) && NulFree(u, 0, q.value);
    }
    if r.Some? && r.value + |pat| <= |s| {
      assert u[r.value..r.value + |pat|] == s[r.value..r.value + |pat|];
      assert OccursAt(s, pat, r.value) && NulFree(s, 0, r.value);
    }
  }

  lemma OccursShifted(x: string, rest: string, pat: string, k: nat)
    ensures OccursAt(x + rest, pat, |x| + k) <==> OccursAt(rest, pat, k)
  {
    if k + |pat| <= |rest| {
      assert (x + rest)[|x| + k..|x| + k + |pat|] == rest[k..k + |pat|];
    }
  }

  lemma Associative(a: string, b: string, c: string)
    ensures a + (b + c) == a + b + c
  {
  }

  // ------------------------------------------------------- words and strtok

  /** Length of the longest prefix of `s` free of `d`. */
  function Run(s: string, d: char): (n: nat)
    ensures n <= |s| && (forall k :: 0 <= k < n ==> s[k] != d)
    ensures n < |s| ==> s[n] == d
  {
    if s == "" || s[0] == d then 0 else 1 + Run(s[1..], d)
  }

  lemma RunIs(s: string, d: char, n: nat)
    requires n <= |s| && Without(s[..n], d) && (n < |s| ==> s[n] == d)
    ensures Run(s, d) == n
  {
    assert forall k :: 0 <= k < n ==> s[k] == s[..n][k];
  }

  /** The maximal `d`-free runs of `s`, in order. */
  function Words(s: string, d: char): (ws: seq<string>)
    decreases |s|
  {
    if s == "" then []
    else if s[0] == d then Words(s[1..], d)
    else var e := Run(s, d); [s[..e]] + Words(s[e..], d)
  }

  predicate Only(s: string, d: char) {
    forall k :: 0 <= k < |s| ==> s[k] == d
  }

  predicate Without(s: string, d: char) {
    forall k :: 0 <= k < |s| ==> s[k] != d
  }

  /** Leading delimiters do not change the words. */
  lemma {:induction false} WordsSkip(pad: string, s: string, d: char)
    requires Only(pad, d)
    ensures Words(pad + s, d) == Words(s, d)
  {
    if pad == "" {
      assert pad + s == s;
    } else {
      assert (pad + s)[1..] == pad[1..] + s;
      WordsSkip(pad[1..], s, d);
    }
  }

  /** The first word, and the rest after the delimiter that closes it. */
  lemma FirstWord(pad: string, word: string, rest: string, d: char)
    requires Only(pad, d) && word != "" && Without(word, d)
    requires rest == "" || rest[0] == d
    ensures Words(pad + word + rest, d) == [word] + Words(if rest == "" then "" else rest[1..], d)
  {
    assert pad + word + rest == pad + (word + rest);
    WordsSkip(pad, word + rest, d);
    var t := word + rest;
    assert t[0] == word[0];
    assert Run(t, d) == |word| by {
      assert |word| < |t| ==> t[|word|] == rest[0];
      assert forall k :: 0 <= k < |word| ==> t[k] == word[k];
    }
    assert t[..|word|] == word && t[|word|..] == rest;
  }

  /** Where the C string at offset `i` of a buffer ends: its first NUL from there on. */
  function StrEnd(b: string, i: nat): (n: nat)
    requires i <= |b|
    ensures i <= n <= |b| && (n < |b| ==> b[n] == NUL)
    ensures forall k :: i <= k < n ==> b[k] != NUL
    decreases |b| - i
  {
    if i == |b| || b[i] == NUL then i else StrEnd(b, i + 1)
  }

  function CStr(b: string, i: nat): string {
    if i <= |b| then b[i..StrEnd(b, i)] else ""
  }

  /** A C string starts at `i` and its NUL is at `n`. */
  ghost predicate CStringAt(b: string, i: nat, n: nat) {
    i <= n < |b| && StrEnd(b, i) == n
  }

  lemma CStringIs(b: string, i: nat, n: nat)
    requires i <= n < |b| && b[n] == NUL && forall k :: i <= k < n ==> b[k] != NUL
    ensures CStringAt(b, i, n)
  {
  }

  /** What a `strtok` call on the string at `start` leaves behind: `was` and `now` are the
      buffer before and after, `next` is where the next call resumes. */
  ghost predicate Tokenised(was: string, now: string, start: nat, stop: nat, d: char, tok: Option<nat>, next: nat) {
    && start <= next && |was| == |now| && CStringAt(was, start, stop) && CStringAt(now, next, stop)
    && now[..start] == was[..start] && now[next..] == was[next..]
    && match tok
       case None => next == stop && Words(was[start..stop], d) == []
       case Some(b) =>
         && start <= b < |now| && b < StrEnd(now, b) <= next
         && Words(was[start..stop], d) == [CStr(now, b)] + Words(now[next..stop], d)
  }

  lemma NoToken(was: string, start: nat, stop: nat, d: char)
    requires CStringAt(was, start, stop)
    requires forall k :: start <= k < stop ==> was[k] == d
    ensures Tokenised(was, was, start, stop, d, None, stop)
  {
    var s := was[start..stop];
    assert s + "" == s;
    WordsSkip(s, "", d);
  }

  lemma TokenWords(was: string, start: nat, b: nat, e: nat, stop: nat, d: char)
    requires start <= b < e <= stop <= |was|
    requires forall k :: start <= k < b ==> was[k] == d
    requires forall k :: b <= k < e ==> was[k] != d
    requires e < stop ==> was[e] == d
    ensures Words(was[start..stop], d) == [was[b..e]] + Words(if e < stop then was[e + 1..stop] else "", d)
  {
    hide Words;
    FirstWord(was[start..b], was[b..e], was[e..stop], d);
    InThree(was, start, b, e, stop);
  }

  lemma InThree(s: string, i: nat, j: nat, k: nat, l: nat)
    requires i <= j <= k <= l <= |s|
    ensures s[i..l] == s[i..j] + s[j..k] + s[k..l]
    ensures k < l ==> s[k..l][1..] == s[k + 1..l]
  {
  }

  lemma TokenFound(was: string, now: string, start: nat, b: nat, e: nat, stop: nat, d: char)
    requires d != NUL && CStringAt(was, start, stop) && start <= b < e <= stop
    requires forall k :: start <= k < b ==> was[k] == d
    requires forall k :: b <= k < e ==> was[k] != d
    requires e < stop ==> was[e] == d
    requires now == was[e := NUL]
    ensures Tokenised(was, now, start, stop, d, Some(b), if e == stop then e else e + 1)
  {
    var next := if e == stop then e else e + 1;
    TokenWords(was, start, b, e, stop, d);
    CStringIs(now, b, e);
    CStringIs(now, next, stop);
    assert CStr(now, b) == now[b..e] == was[b..e];
    assert now[next..stop] == if e < stop then was[e + 1..stop] else "";
  }

  /** `strtok(buf + start, d)`: overwrites the delimiter that ends the token by NUL and
      returns the token's offset, with the offset where the next call resumes.
      `stop` is the offset of the NUL that ends the string being split. */
  method StrTok(buf: array<char>, start: nat, d: char, ghost stop: nat)
    returns (tok: Option<nat>, next: nat)
    requires d != NUL && CStringAt(buf[..], start, stop)
    modifies buf
    ensures Tokenised(old(buf[..]), buf[..], start, stop, d, tok, next)
  {
    ghost var was := buf[..];
    assert forall k :: start <= k < stop ==> buf[k] == was[k] != NUL;
    assert buf[stop] == was[stop] == NUL;
    var b := start;
    while buf[b] == d
      invariant start <= b <= stop
      invariant forall k :: start <= k < b ==> buf[k] == d
      decreases stop - b
    {
      b := b + 1;
    }
    if buf[b] == NUL {
      NoToken(was, start, stop, d);
      return None, b;
    }
    var e := b;
    while buf[e] != d && buf[e] != NUL
      invariant b <= e <= stop
      invariant forall k :: b <= k < e ==> buf[k] != d && buf[k] != NUL
      decreases stop - e
    {
      e := e + 1;
    }
    TokenFound(was, was[e := NUL], start, b, e, stop, d);
    if buf[e] == NUL {
      assert buf[..] == was[e := NUL];
      return Some(b), e;
    }
    buf[e] := NUL;
    assert buf[..] == was[e := NUL];
    return Some(b), e + 1;
  }

  ghost predicate TokenEndsBy(now: string, t: nat, next: nat) {
    t <= |now| && StrEnd(now, t) <= next
  }

  /** A token found earlier survives the NULs that later calls write. */
  lemma TokenKept(was: string, now: string, start: nat, stop: nat, d: char, tok: Option<nat>, next: nat, t: nat)
    requires Tokenised(was, now, start, stop, d, tok, next) && TokenEndsBy(was, t, start)
    ensures TokenEndsBy(now, t, next) && CStr(now, t) == CStr(was, t)
  {
    var e := StrEnd(was, t);
    assert forall k :: 0 <= k < start ==> now[k] == now[..start][k] == was[..start][k];
    assert now[e] == NUL by {
      if e == start { assert next == stop == start && now[next..][0] == was[next..][0]; }
    }
    CStringIs(now, t, e);
    assert now[t..e] == was[t..e];
  }
}
