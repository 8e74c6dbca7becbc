/** The string operations the capture filter is built from. Strings are sequences of bytes;
    case folding and white space are ASCII. */
module Text {
  const SECRET_MARKERS: seq<string> :=
    ["BEGIN PRIVATE KEY", "BEGIN RSA PRIVATE KEY", "api_key=", "xoxb-", "ghp_", "sk-"]

  function LowerChar(c: char): char {
    if 'A' <= c <= 'Z' then (c as int + 32) as char else c
  }

  function Lower(s: string): string {
    seq(|s|, i requires 0 <= i < |s| => LowerChar(s[i]))
  }

  predicate IsSpace(c: char) {
    c == ' ' || c == '\t' || c == '\n' || c == '\r' || c == 11 as char || c == 12 as char
  }

  function TrimLeft(s: string): string {
    if s != "" && IsSpace(s[0]) then TrimLeft(s[1..]) else s
  }

  function TrimRight(s: string): string {
    if s != "" && IsSpace(s[|s| - 1]) then TrimRight(s[..|s| - 1]) else s
  }

  function Trim(s: string): string {
    TrimRight(TrimLeft(s))
  }

  /** `part` occurs in `s` at index `i`. */
  predicate OccursAt(s: string, part: string, i: int) {
    0 <= i <= |s| - |part| && s[i..i + |part|] == part
  }

  predicate Contains(s: string, part: string) {
    exists i | 0 <= i <= |s| - |part| :: OccursAt(s, part, i)
  }

  /** The text holds a secret marker, in any case. */
  predicate HasSecret(s: string) {
    exists k | 0 <= k < |SECRET_MARKERS| :: Contains(Lower(s), Lower(SECRET_MARKERS[k]))
  }

  function Truncate(s: string, limit: nat): string {
    if |s| <= limit then s else s[..limit]
  }

  /** The lines of a text, without their newlines; never empty. */
  function Lines(s: string): (lines: seq<string>)
    ensures lines != []
  {
    if s == "" then [""]
    else
      var rest := Lines(s[1..]);
      if s[0] == '\n' then [""] + rest
      else [[s[0]] + rest[0]] + rest[1..]
  }

  function FirstFilled(lines: seq<string>, limit: nat): string {
    if lines == [] then ""
    else if Trim(lines[0]) != "" then Truncate(Trim(lines[0]), limit)
    else FirstFilled(lines[1..], limit)
  }

  function FirstLine(s: string, limit: nat): string {
    FirstFilled(Lines(Trim(s)), limit)
  }

  // ---- A marker inside a part of a text survives joining, trimming and case folding.

  /** An occurrence in a part is an occurrence in the whole. */
  lemma ContainsInMiddle(before: string, s: string, after: string, part: string)
    requires Contains(s, part)
    ensures Contains(before + s + after, part)
  {
    var i :| 0 <= i <= |s| - |part| && OccursAt(s, part, i);
    var whole := before + s + after;
    assert whole[|before| + i..|before| + i + |part|] == s[i..i + |part|];
    assert OccursAt(whole, part, |before| + i);
  }

  lemma LowerOfJoin(a: string, b: string)
    ensures Lower(a + b) == Lower(a) + Lower(b)
  {
  }

  /** Trimming cannot cut into an occurrence that neither starts nor ends with white space. */
  lemma {:induction false} TrimLeftKeeps(s: string, part: string)
    requires part != "" && !IsSpace(part[0])
    requires Contains(s, part)
    ensures Contains(TrimLeft(s), part)
  {
    if s != "" && IsSpace(s[0]) {
      var i :| 0 <= i <= |s| - |part| && OccursAt(s, part, i);
      assert s[i] == s[i..i + |part|][0];
      assert s[1..][i - 1..i - 1 + |part|] == s[i..i + |part|];
      assert OccursAt(s[1..], part, i - 1);
      TrimLeftKeeps(s[1..], part);
    }
  }

  lemma {:induction false} TrimRightKeeps(s: string, part: string)
    requires part != "" && !IsSpace(part[|part| - 1])
    requires Contains(s, part)
    ensures Contains(TrimRight(s), part)
  {
    if s != "" && IsSpace(s[|s| - 1]) {
      var i :| 0 <= i <= |s| - |part| && OccursAt(s, part, i);
      assert s[i + |part| - 1] == s[i..i + |part|][|part| - 1];
      assert s[..|s| - 1][i..i + |part|] == s[i..i + |part|];
      assert OccursAt(s[..|s| - 1], part, i);
      TrimRightKeeps(s[..|s| - 1], part);
    }
  }

  lemma {:induction false} LowerOfTrimLeft(s: string)
    ensures Lower(TrimLeft(s)) == TrimLeft(Lower(s))
  {
    if s != "" {
      LowerOfTrimLeft(s[1..]);
      assert Lower(s)[1..] == Lower(s[1..]);
    }
  }

  lemma {:induction false} LowerOfTrimRight(s: string)
    ensures Lower(TrimRight(s)) == TrimRight(Lower(s))
  {
    if s != "" {
      LowerOfTrimRight(s[..|s| - 1]);
      assert Lower(s)[..|s| - 1] == Lower(s[..|s| - 1]);
    }
  }

  lemma MarkersHaveNoOuterSpace(k: int)
    requires 0 <= k < |SECRET_MARKERS|
    ensures SECRET_MARKERS[k] != ""
    ensures var m := Lower(SECRET_MARKERS[k]); !IsSpace(m[0]) && !IsSpace(m[|m| - 1])
  {
    assert k == 0 || k == 1 || k == 2 || k == 3 || k == 4 || k == 5;
  }

  /** A text with a secret in one of its parts still shows it after joining and trimming. */
  lemma SecretShows(before: string, s: string, after: string)
    requires HasSecret(s)
    ensures HasSecret(Trim(before + s + after))
  {
    var k :| 0 <= k < |SECRET_MARKERS| && Contains(Lower(s), Lower(SECRET_MARKERS[k]));
    var m := Lower(SECRET_MARKERS[k]);
    MarkersHaveNoOuterSpace(k);
    var whole := before + s + after;
    LowerOfJoin(before, s);
    LowerOfJoin(before + s, after);
    ContainsInMiddle(Lower(before), Lower(s), Lower(after), m);
    TrimLeftKeeps(Lower(whole), m);
    LowerOfTrimLeft(whole);
    TrimRightKeeps(TrimLeft(Lower(whole)), m);
    LowerOfTrimRight(TrimLeft(whole));
  }

  lemma NoSecretInNothing()
    ensures !HasSecret("")
  {
    forall k | 0 <= k < |SECRET_MARKERS|
      ensures !Contains(Lower(""), Lower(SECRET_MARKERS[k]))
    {
      MarkersHaveNoOuterSpace(k);
    }
  }

  // ---- What trimming and the first line are.

  /** White space from index i up to j. */
  ghost predicate BlankIn(s: string, i: int, j: int)
    requires 0 <= i && j <= |s|
  {
    forall x :: i <= x < j ==> IsSpace(s[x])
  }

  ghost predicate Blank(s: string) {
    BlankIn(s, 0, |s|)
  }

  /** Between i and j is all of the text but its outer white space. */
  ghost predicate TrimmedTo(s: string, i: int, j: int) {
    && 0 <= i <= j <= |s| && BlankIn(s, 0, i) && BlankIn(s, j, |s|)
    && (i < j ==> !IsSpace(s[i]) && !IsSpace(s[j - 1]))
  }

  lemma {:induction false} TrimLeftCuts(s: string) returns (i: nat)
    ensures i <= |s| && TrimLeft(s) == s[i..] && BlankIn(s, 0, i) && (i < |s| ==> !IsSpace(s[i]))
    decreases |s|
  {
    i := 0;
    if s != "" && IsSpace(s[0]) {
      var k := TrimLeftCuts(s[1..]);
      i := k + 1;
      assert forall x :: 1 <= x < i ==> s[x] == s[1..][x - 1];
    }
  }

  lemma {:induction false} TrimRightCuts(s: string) returns (j: nat)
    ensures j <= |s| && TrimRight(s) == s[..j] && BlankIn(s, j, |s|) && (j > 0 ==> !IsSpace(s[j - 1]))
    decreases |s|
  {
    j := |s|;
    if s != "" && IsSpace(s[|s| - 1]) {
      j := TrimRightCuts(s[..|s| - 1]);
      assert s[..|s| - 1][..j] == s[..j];
    }
  }

  lemma TrimCuts(s: string) returns (i: nat, j: nat)
    ensures TrimmedTo(s, i, j) && Trim(s) == s[i..j]
  {
    i := TrimLeftCuts(s);
    var k := TrimRightCuts(s[i..]);
    j := i + k;
    assert s[i..][..k] == s[i..j];
    assert forall x :: i <= x < |s| ==> s[x] == s[i..][x - i];
  }

  lemma SecretInMiddle(before: string, s: string, after: string)
    requires HasSecret(s)
    ensures HasSecret(before + s + after)
  {
    var k :| 0 <= k < |SECRET_MARKERS| && Contains(Lower(s), Lower(SECRET_MARKERS[k]));
    LowerOfJoin(before, s);
    LowerOfJoin(before + s, after);
    ContainsInMiddle(Lower(before), Lower(s), Lower(after), Lower(SECRET_MARKERS[k]));
  }

  /** Trimming neither hides a marker nor makes one. */
  lemma TrimHidesNothing(s: string)
    ensures HasSecret(Trim(s)) <==> HasSecret(s)
  {
    var i, j := TrimCuts(s);
    assert s[..i] + s[i..j] + s[j..] == s == "" + s + "";
    if HasSecret(s) {
      SecretShows("", s, "");
    } else if HasSecret(Trim(s)) {
      SecretInMiddle(s[..i], s[i..j], s[j..]);
    }
  }

  lemma BlankTrims(s: string)
    ensures Trim(s) == "" <==> Blank(s)
  {
    var i, j := TrimCuts(s);
  }

  lemma BlankParts(a: string, b: string, c: string)
    ensures Blank(a + b + c) <==> Blank(a) && Blank(b) && Blank(c)
  {
    var whole := a + b + c;
    assert forall i :: 0 <= i < |a| ==> whole[i] == a[i];
    assert forall i :: 0 <= i < |b| ==> whole[|a| + i] == b[i];
    assert forall i :: 0 <= i < |c| ==> whole[|a| + |b| + i] == c[i];
  }

  ghost predicate OneLine(s: string, i: int, k: int)
    requires 0 <= i && k <= |s|
  {
    forall x :: i <= x < k ==> s[x] != '\n'
  }

  /** The first line that is not blank lies between i and k, but for its outer white space: before it
      everything is white space, and behind it everything up to the next newline. */
  ghost predicate FirstLineAt(s: string, i: int, k: int) {
    && 0 <= i < k <= |s| && BlankIn(s, 0, i) && OneLine(s, i, k) && !IsSpace(s[i]) && !IsSpace(s[k - 1])
    && forall x :: k <= x < |s| && !IsSpace(s[x]) ==> !OneLine(s, k, x)
  }

  lemma FirstLineIsOne(s: string, i: int, k: int, i': int, k': int)
    requires FirstLineAt(s, i, k) && FirstLineAt(s, i', k')
    ensures i == i' && k == k'
  {
  }

  lemma {:induction false} LinesHead(s: string) returns (n: nat)
    ensures n <= |s| && Lines(s)[0] == s[..n] && OneLine(s, 0, n) && (n < |s| ==> s[n] == '\n')
    decreases |s|
  {
    n := 0;
    if s != "" && s[0] != '\n' {
      var k := LinesHead(s[1..]);
      n := k + 1;
      assert s[..n] == [s[0]] + s[1..][..k];
      assert forall x :: 1 <= x < |s| ==> s[x] == s[1..][x - 1];
    }
  }

  /** A trimmed text's first line, trimmed, starts where the text does. */
  lemma HeadTrims(t: string, n: nat) returns (b: nat)
    requires 0 < n <= |t| && !IsSpace(t[0])
    ensures 0 < b <= n && Trim(t[..n]) == t[..b] && BlankIn(t, b, n) && !IsSpace(t[b - 1])
  {
    var a;
    a, b := TrimCuts(t[..n]);
    assert t[..n][0] == t[0];
    assert a == 0 && b > 0;
    assert forall x :: 0 <= x < n ==> t[..n][x] == t[x];
  }

  lemma FirstLineStands(s: string, i: int, j: int, n: int, b: int)
    requires TrimmedTo(s, i, j) && 0 < b <= n <= j - i && OneLine(s[i..j], 0, n) && (n < j - i ==> s[i..j][n] == '\n')
    requires BlankIn(s[i..j], b, n) && !IsSpace(s[i..j][b - 1])
    ensures FirstLineAt(s, i, i + b)
  {
    assert forall x :: i <= x < j ==> s[x] == s[i..j][x - i];
  }

  /** What FirstLine finds: the first line that is not blank, trimmed and cut to the limit. */
  lemma FirstLineTells(s: string, limit: nat) returns (i: int, k: int)
    ensures Blank(s) ==> FirstLine(s, limit) == ""
    ensures !Blank(s) ==> FirstLineAt(s, i, k) && FirstLine(s, limit) == s[i..if k < i + limit then k else i + limit]
  {
    var j;
    i, j := TrimCuts(s);
    k := j;
    if i < j {
      var t := s[i..j];
      var n := LinesHead(t);
      var b := HeadTrims(t, n);
      k := i + b;
      FirstLineStands(s, i, j, n, b);
      assert t[..b] == s[i..k];
    } else {
      var none: seq<string> := [""];
      assert Lines(Trim(s)) == none && none[1..] == [] && FirstFilled(none, limit) == "";
    }
  }
}
