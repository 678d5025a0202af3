/** Shared vocabulary: an Option type, JSON leaves as Python sees them, and the
    Python `str` operations both components rely on (`lower`, `strip`, `split`,
    `in`, `startswith`, `replace`, `join`), restricted to ASCII. */
module Common {

  datatype Option<T> = None | Some(value: T) {
    function GetOr(default: T): T {
      match this
      case Some(v) => v
      case None => default
    }
  }

  /** A JSON leaf: a Python `str`, or any other value together with the text
      `str()` renders it as and its truthiness. */
  datatype Value = Str(s: string) | NonStr(rendered: string, truthy: bool) {
    predicate Truthy() {
      if Str? then s != "" else truthy
    }
    function Render(): string {
      if Str? then s else rendered
    }
  }

  // ---------------------------------------------------------------- characters

  function LowerChar(c: char): char {
    if 'A' <= c <= 'Z' then (c as int + 32) as char else c
  }

  /** The characters `str.isspace()` accepts below U+0080. */
  predicate IsSpace(c: char) {
    c == ' ' || '\U{9}' <= c <= '\U{d}' || '\U{1c}' <= c <= '\U{1f}'
  }

  // ------------------------------------------------------------------ strings

  /** `s.lower()` */
  function Lower(s: string): (r: string)
    ensures |r| == |s|
    ensures forall i :: 0 <= i < |s| ==> r[i] == LowerChar(s[i])
  {
    seq(|s|, i requires 0 <= i < |s| => LowerChar(s[i]))
  }

  function TrimStart(s: string): (r: string)
    ensures |r| <= |s| && r == s[|s| - |r|..]
    ensures r != [] ==> !IsSpace(r[0])
    ensures forall i :: 0 <= i < |s| - |r| ==> IsSpace(s[i])
  {
    if s != [] && IsSpace(s[0]) then TrimStart(s[1..]) else s
  }

  function TrimEnd(s: string): (r: string)
    ensures |r| <= |s| && r == s[..|r|]
    ensures r != [] ==> !IsSpace(r[|r| - 1])
    ensures forall i :: |r| <= i < |s| ==> IsSpace(s[i])
  {
    if s != [] && IsSpace(s[|s| - 1]) then TrimEnd(s[..|s| - 1]) else s
  }

  /** `s.strip()` */
  function Strip(s: string): string {
    TrimEnd(TrimStart(s))
  }

  predicate IsBlank(s: string) {
    forall i :: 0 <= i < |s| ==> IsSpace(s[i])
  }

  /** `not s.strip()` holds exactly for strings made of whitespace only. */
  lemma StripEmptyIffBlank(s: string)
    ensures Strip(s) == "" <==> IsBlank(s)
  {
  }

  /** `sub` occurs in `s` starting at index `i`. */
  predicate OccursAt(s: string, sub: string, i: int) {
    0 <= i <= |s| - |sub| && s[i..i + |sub|] == sub
  }

  /** `sub in s` */
  predicate Contains(s: string, sub: string) {
    exists i | 0 <= i <= |s| - |sub| :: OccursAt(s, sub, i)
  }

  /** `s.startswith(prefix)` */
  predicate StartsWith(s: string, prefix: string) {
    |prefix| <= |s| && s[..|prefix|] == prefix
  }

  /** `s[:n]` */
  function Take(s: string, n: nat): (r: string)
    ensures |r| == if |s| <= n then |s| else n
  {
    if |s| <= n then s else s[..n]
  }

  /** `s.replace(pat, rep)`: every non-overlapping occurrence, left to right. */
  function ReplaceAll(s: string, pat: string, rep: string): string
    requires pat != []
    decreases |s|
  {
    if |s| < |pat| then s
    else if s[..|pat|] == pat then rep + ReplaceAll(s[|pat|..], pat, rep)
    else [s[0]] + ReplaceAll(s[1..], pat, rep)
  }

  /** `str.replace` leaves a string without the pattern as it is. */
  lemma {:induction false} ReplaceAllAbsent(s: string, pat: string, rep: string)
    requires pat != [] && !Contains(s, pat)
    ensures ReplaceAll(s, pat, rep) == s
    decreases |s|
  {
    if |s| >= |pat| {
      assert !OccursAt(s, pat, 0);
      var t := s[1..];
      if Contains(t, pat) {
        var i :| 0 <= i <= |t| - |pat| && OccursAt(t, pat, i);
        assert t[i..i + |pat|] == s[i + 1..i + 1 + |pat|];
        assert OccursAt(s, pat, i + 1);
      }
      ReplaceAllAbsent(t, pat, rep);
      assert s == [s[0]] + t;
    }
  }

  /** A colour token such as `#2563eb`: a `#` first and nowhere else. */
  predicate HashToken(s: string) {
    |s| >= 1 && s[0] == '#' && forall j :: 1 <= j < |s| ==> s[j] != '#'
  }

  /** Text put in front of a string keeps every substring of it. */
  lemma ContainsAfterPrefix(u: string, s: string, sub: string)
    requires Contains(s, sub)
    ensures Contains(u + s, sub)
  {
    var i :| 0 <= i <= |s| - |sub| && OccursAt(s, sub, i);
    assert (u + s)[|u| + i..|u| + i + |sub|] == s[i..i + |sub|];
    assert OccursAt(u + s, sub, |u| + i);
  }

  /** Replacing a `#` token leaves a leading stretch without `#` in place. */
  lemma {:induction false} ReplaceAllKeepsPrefix(t: string, pat: string, rep: string, k: nat)
    requires pat != [] && pat[0] == '#'
    requires k <= |t| && forall j :: 0 <= j < k ==> t[j] != '#'
    ensures k <= |ReplaceAll(t, pat, rep)| && ReplaceAll(t, pat, rep)[..k] == t[..k]
    decreases |t|
  {
    if k > 0 && |t| >= |pat| {
      assert t[..|pat|][0] == t[0] != '#';
      ReplaceAllKeepsPrefix(t[1..], pat, rep, k - 1);
      var r := ReplaceAll(t[1..], pat, rep);
      assert ReplaceAll(t, pat, rep) == [t[0]] + r;
      assert ([t[0]] + r)[..k] == [t[0]] + r[..k - 1];
      assert t[..k] == [t[0]] + t[1..][..k - 1];
    }
  }

  /** An occurrence of a token cannot start inside an occurrence at the
      front of another token of the same length. */
  lemma TokensApart(s: string, pat: string, b: string, i: int)
    requires HashToken(pat) && HashToken(b) && |pat| == |b| && pat != b
    requires OccursAt(s, pat, 0) && OccursAt(s, b, i)
    ensures i >= |pat|
  {
    if i < |pat| {
      assert false;
    }
  }

  /** Replacing one `#` token keeps every occurrence of another token of
      the same length: two such tokens cannot overlap. */
  lemma {:induction false} ReplaceAllKeepsToken(s: string, pat: string, rep: string, b: string, i: int)
    requires HashToken(pat) && HashToken(b) && |pat| == |b| && pat != b
    requires OccursAt(s, b, i)
    ensures Contains(ReplaceAll(s, pat, rep), b)
    decreases |s|
  {
    if s[..|pat|] == pat {
      TokensApart(s, pat, b, i);
      var t := s[|pat|..];
      assert t[i - |pat|..i - |pat| + |b|] == s[i..i + |b|];
      ReplaceAllKeepsToken(t, pat, rep, b, i - |pat|);
      ContainsAfterPrefix(rep, ReplaceAll(t, pat, rep), b);
    } else if i > 0 {
      var t := s[1..];
      assert t[i - 1..i - 1 + |b|] == s[i..i + |b|];
      ReplaceAllKeepsToken(t, pat, rep, b, i - 1);
      ContainsAfterPrefix([s[0]], ReplaceAll(t, pat, rep), b);
    } else {
      var t := s[1..];
      forall j | 0 <= j < |b| - 1
        ensures t[j] != '#'
      {
        assert t[j] == s[j + 1] == b[j + 1];
      }
      ReplaceAllKeepsPrefix(t, pat, rep, |b| - 1);
      var r := ReplaceAll(t, pat, rep);
      assert ReplaceAll(s, pat, rep) == [s[0]] + r;
      assert ([s[0]] + r)[..|b|] == [s[0]] + r[..|b| - 1] == [s[0]] + t[..|b| - 1] == s[..|b|];
      assert OccursAt([s[0]] + r, b, 0);
    }
  }

  /** An occurrence past a prefix is an occurrence in the rest. */
  lemma ContainsPastPrefix(u: string, s: string, sub: string, p: int)
    requires OccursAt(u + s, sub, p) && p >= |u|
    ensures OccursAt(s, sub, p - |u|)
  {
    assert (u + s)[p..p + |sub|] == s[p - |u|..p - |u| + |sub|];
  }

  /** What a suffix contains, the whole string contains. */
  lemma ContainsFromSuffix(s: string, k: nat, sub: string)
    requires k <= |s| && Contains(s[k..], sub)
    ensures Contains(s, sub)
  {
    assert s == s[..k] + s[k..];
    ContainsAfterPrefix(s[..k], s[k..], sub);
  }

  /** Replacing a `#` token by another of the same length keeps the length
      and the positions of every `#`. */
  lemma {:induction false} ReplaceAllHashes(t: string, pat: string, rep: string)
    requires HashToken(pat) && HashToken(rep) && |pat| == |rep|
    ensures |ReplaceAll(t, pat, rep)| == |t|
    ensures forall j :: 0 <= j < |t| ==> (ReplaceAll(t, pat, rep)[j] == '#' <==> t[j] == '#')
    decreases |t|
  {
    if |t| >= |pat| {
      var r := ReplaceAll(t, pat, rep);
      if t[..|pat|] == pat {
        var u := t[|pat|..];
        ReplaceAllHashes(u, pat, rep);
        assert r == rep + ReplaceAll(u, pat, rep);
        forall j | 0 <= j < |t|
          ensures r[j] == '#' <==> t[j] == '#'
        {
          if j < |pat| {
            assert t[j] == pat[j];
          } else {
            assert t[j] == u[j - |pat|];
          }
        }
      } else {
        var u := t[1..];
        ReplaceAllHashes(u, pat, rep);
        assert r == [t[0]] + ReplaceAll(u, pat, rep);
        forall j | 0 <= j < |t|
          ensures r[j] == '#' <==> t[j] == '#'
        {
          if j > 0 {
            assert t[j] == u[j - 1];
          }
        }
      }
    }
  }

  /** Two strings with `#` in the same places: a token at the front of one
      puts no `#` after the front of the other until the token ends. */
  lemma HashesOfFront(s: string, r: string, b: string)
    requires HashToken(b) && |b| <= |r| == |s|
    requires forall j :: 0 <= j < |s| ==> (r[j] == '#' <==> s[j] == '#')
    requires r[..|b|] == b
    ensures forall j :: 1 <= j < |b| ==> s[j] != '#'
  {
    forall j | 1 <= j < |b|
      ensures s[j] != '#'
    {
      assert r[j] == b[j];
    }
  }

  /** When the string does not start with the pattern, a token at the front
      of the result was already at the front of the string. */
  lemma ReplaceAllFront(s: string, pat: string, rep: string, b: string)
    requires HashToken(pat) && HashToken(rep) && HashToken(b) && |pat| == |rep| == |b|
    requires |s| >= |pat| && s[..|pat|] != pat
    requires OccursAt(ReplaceAll(s, pat, rep), b, 0)
    ensures OccursAt(s, b, 0)
  {
    var r := ReplaceAll(s, pat, rep);
    var u := s[1..];
    var ru := ReplaceAll(u, pat, rep);
    assert r == [s[0]] + ru;
    ReplaceAllHashes(s, pat, rep);
    HashesOfFront(s, r, b);
    forall j | 0 <= j < |b| - 1
      ensures u[j] != '#'
    {
      assert u[j] == s[j + 1];
    }
    ReplaceAllKeepsPrefix(u, pat, rep, |b| - 1);
    forall j | 0 <= j < |b|
      ensures s[j] == b[j]
    {
      assert r[j] == b[j];
      if j > 0 {
        assert s[j] == u[j - 1] == u[..|b| - 1][j - 1] == ru[..|b| - 1][j - 1] == r[j];
      }
    }
    assert s[..|b|] == b;
  }

  /** Replacing a `#` token by a different token of the same length leaves
      no occurrence of the replaced token and creates none of any other
      token of that length. */
  lemma {:induction false} ReplaceAllNoToken(s: string, pat: string, rep: string, b: string)
    requires HashToken(pat) && HashToken(rep) && HashToken(b)
    requires |pat| == |rep| == |b| && b != rep
    requires b == pat || !Contains(s, b)
    ensures !Contains(ReplaceAll(s, pat, rep), b)
    decreases |s|
  {
    var r := ReplaceAll(s, pat, rep);
    if |s| < |pat| {
    } else if s[..|pat|] == pat {
      var u := s[|pat|..];
      if b != pat && Contains(u, b) {
        ContainsFromSuffix(s, |pat|, b);
      }
      ReplaceAllNoToken(u, pat, rep, b);
      assert r == rep + ReplaceAll(u, pat, rep);
      if p :| 0 <= p <= |r| - |b| && OccursAt(r, b, p) {
        if p >= |rep| {
          ContainsPastPrefix(rep, ReplaceAll(u, pat, rep), b, p);
        }
      }
    } else {
      var u := s[1..];
      if b != pat && Contains(u, b) {
        ContainsFromSuffix(s, 1, b);
      }
      ReplaceAllNoToken(u, pat, rep, b);
      var ru := ReplaceAll(u, pat, rep);
      assert r == [s[0]] + ru;
      if p :| 0 <= p <= |r| - |b| && OccursAt(r, b, p) {
        if p >= 1 {
          ContainsPastPrefix([s[0]], ru, b, p);
        } else {
          ReplaceAllFront(s, pat, rep, b);
        }
      }
    }
  }

  /** Replacing a pattern that occurs leaves the replacement in the result. */
  lemma {:induction false} ReplaceAllLeavesReplacement(s: string, pat: string, rep: string)
    requires pat != [] && Contains(s, pat)
    ensures Contains(ReplaceAll(s, pat, rep), rep)
    decreases |s|
  {
    var r := ReplaceAll(s, pat, rep);
    if s[..|pat|] == pat {
      assert r == rep + ReplaceAll(s[|pat|..], pat, rep);
      assert OccursAt(r, rep, 0);
    } else {
      var i :| 0 <= i <= |s| - |pat| && OccursAt(s, pat, i);
      assert i != 0;
      var u := s[1..];
      assert u[i - 1..i - 1 + |pat|] == s[i..i + |pat|];
      assert OccursAt(u, pat, i - 1);
      ReplaceAllLeavesReplacement(u, pat, rep);
      assert r == [s[0]] + ReplaceAll(u, pat, rep);
      ContainsAfterPrefix([s[0]], ReplaceAll(u, pat, rep), rep);
    }
  }

  /** `sep.join(parts)` */
  function Join(parts: seq<string>, sep: string): string {
    if parts == [] then ""
    else if |parts| == 1 then parts[0]
    else parts[0] + sep + Join(parts[1..], sep)
  }

  /** Joining a non-empty list ends with its last part, after a separator
      when there are at least two parts. */
  lemma {:induction false} JoinLast(parts: seq<string>, sep: string)
    requires |parts| >= 2
    ensures Join(parts, sep) == Join(parts[..|parts| - 1], sep) + sep + parts[|parts| - 1]
    decreases |parts|
  {
    if |parts| > 2 {
      JoinLast(parts[1..], sep);
      assert parts[1..][..|parts| - 2] == parts[..|parts| - 1][1..];
    } else {
      assert parts[..1] == [parts[0]];
    }
  }

  /** `s.split()`: the maximal runs of non-whitespace characters, in order. */
  function Split(s: string): seq<string> {
    SplitFrom(s, "")
  }

  /** Splitting the rest `s` of a string whose current, unfinished word is `word`. */
  function SplitFrom(s: string, word: string): (r: seq<string>)
    ensures forall w :: w in r ==> w != ""
    decreases |s|
  {
    if s == [] then (if word == "" then [] else [word])
    else if IsSpace(s[0]) then
      (if word == "" then [] else [word]) + SplitFrom(s[1..], "")
    else SplitFrom(s[1..], word + [s[0]])
  }

  // --------------------------------------------------- ordered string tables

  /** A Python dict from `str` to `str` in insertion order (a CSV row as
      `csv.DictReader` yields it, a JSON object of colours). Keys are distinct. */
  type Table = seq<(string, string)>

  predicate Has(row: Table, col: string) {
    exists i :: 0 <= i < |row| && row[i].0 == col
  }

  /** `row.get(col)` */
  function Get(row: Table, col: string): (r: Option<string>)
    ensures r.Some? <==> Has(row, col)
    ensures r.Some? ==> exists i :: 0 <= i < |row| && row[i] == (col, r.value)
  {
    if row == [] then None
    else if row[0].0 == col then Some(row[0].1)
    else Get(row[1..], col)
  }

  /** `row[col] = v`: updates the column in place, or appends it at the end. */
  function Set(row: Table, col: string, v: string): (r: Table)
    ensures Has(row, col) ==> |r| == |row|
    ensures !Has(row, col) ==> r == row + [(col, v)]
    ensures Get(r, col) == Some(v)
    ensures forall c :: c != col ==> Get(r, c) == Get(row, c)
  {
    if row == [] then [(col, v)]
    else if row[0].0 == col then [(col, v)] + row[1..]
    else [row[0]] + Set(row[1..], col, v)
  }
}
