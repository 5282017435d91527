/** String helpers shared by the client and the server: whitespace trimming
    (JavaScript `trim`, Python `strip`), `str.join` and `str.capitalize`. */
module Text {

  /** The whitespace both runtimes strip, restricted to ASCII. */
  predicate IsSpace(c: char) {
    c == ' ' || c == '\t' || c == '\n' || c == '\r' || c == '\U{0B}' || c == '\U{0C}'
  }

  predicate AllSpace(s: string) {
    forall i :: 0 <= i < |s| ==> IsSpace(s[i])
  }

  /** Drops the leading whitespace of `s`. */
  function TrimStart(s: string): (r: string)
    ensures |r| <= |s| && r == s[|s| - |r|..]
    ensures AllSpace(s[..|s| - |r|])
    ensures r == [] || !IsSpace(r[0])
    decreases |s|
  {
    if |s| > 0 && IsSpace(s[0]) then
      var r := TrimStart(s[1..]);
      assert s[..|s| - |r|] == [s[0]] + s[1..][..|s| - 1 - |r|];
      r
    else s
  }

  /** Drops the trailing whitespace of `s`. */
  function TrimEnd(s: string): (r: string)
    ensures |r| <= |s| && r == s[..|r|]
    ensures AllSpace(s[|r|..])
    ensures r == [] || !IsSpace(r[|r| - 1])
    decreases |s|
  {
    if |s| > 0 && IsSpace(s[|s| - 1]) then
      var p := s[..|s| - 1];
      var r := TrimEnd(p);
      assert s[|r|..] == p[|r|..] + [s[|s| - 1]];
      r
    else s
  }

  /** Number of leading whitespace characters of `s`. */
  function Lead(s: string): nat
  {
    |s| - |TrimStart(s)|
  }

  /** `s` without its leading and trailing whitespace: the infix of `s` that
      starts at `Lead(s)`, with only whitespace on either side of it. */
  function Trim(s: string): (r: string)
    ensures Lead(s) + |r| <= |s| && r == s[Lead(s)..Lead(s) + |r|]
    ensures AllSpace(s[..Lead(s)]) && AllSpace(s[Lead(s) + |r|..])
    ensures r == [] || (!IsSpace(r[0]) && !IsSpace(r[|r| - 1]))
  {
    var t := TrimStart(s);
    var r := TrimEnd(t);
    PrefixOfSuffix(s, Lead(s), t, r);
    r
  }

  /** The trim is empty exactly when there is nothing but whitespace. */
  lemma TrimBlankIffAllSpace(s: string)
    ensures Trim(s) == [] <==> AllSpace(s)
  {
    var r := Trim(s);
    if r == [] {
      BlankTrimMeansAllSpace(s, TrimStart(s), r);
    }
  }

  /** Helper of `Trim`: a prefix of a suffix is an infix. */
  lemma PrefixOfSuffix(s: string, k: nat, t: string, r: string)
    requires k <= |s| && t == s[k..]
    requires |r| <= |t| && r == t[..|r|]
    ensures k + |r| <= |s| && s[k..k + |r|] == r
    ensures s[k + |r|..] == t[|r|..]
  {
  }

  /** Helper of `Trim`: if nothing is left, nothing but whitespace was there. */
  lemma BlankTrimMeansAllSpace(s: string, t: string, r: string)
    requires t == TrimStart(s) && r == TrimEnd(t)
    ensures r == [] ==> AllSpace(s)
  {
    if r == [] {
      assert t[|r|..] == t;
      assert |t| == 0;
      assert s[..|s| - |t|] == s;
    }
  }

  lemma {:induction false} TrimStartSkipsSpace(a: string, x: string)
    requires AllSpace(a)
    ensures TrimStart(a + x) == TrimStart(x)
    decreases |a|
  {
    if |a| > 0 {
      assert (a + x)[0] == a[0];
      assert (a + x)[1..] == a[1..] + x;
      TrimStartSkipsSpace(a[1..], x);
      assert TrimStart(a + x) == TrimStart(a[1..] + x);
    } else {
      assert a + x == x;
    }
  }

  lemma {:induction false} TrimEndSkipsSpace(x: string, b: string)
    requires AllSpace(b)
    ensures TrimEnd(x + b) == TrimEnd(x)
    decreases |b|
  {
    if |b| > 0 {
      assert (x + b)[|x + b| - 1] == b[|b| - 1];
      assert (x + b)[..|x + b| - 1] == x + b[..|b| - 1];
      TrimEndSkipsSpace(x, b[..|b| - 1]);
      assert TrimEnd(x + b) == TrimEnd(x + b[..|b| - 1]);
    } else {
      assert x + b == x;
    }
  }

  /** Trimming is characterised by its shape: whatever sits between two runs
      of whitespace and neither starts nor ends with whitespace is the trim. */
  lemma TrimUnique(a: string, m: string, b: string)
    requires AllSpace(a) && AllSpace(b)
    requires m == [] || (!IsSpace(m[0]) && !IsSpace(m[|m| - 1]))
    ensures Trim(a + m + b) == m
  {
    assert a + m + b == a + (m + b);
    TrimStartSkipsSpace(a, m + b);
    if m == [] {
      assert m + b == b;
      assert TrimStart(b) == [];
    } else {
      assert TrimStart(m + b) == m + b;
      TrimEndSkipsSpace(m, b);
    }
  }

  /** Trimming twice is trimming once. */
  lemma TrimIdempotent(s: string)
    ensures Trim(Trim(s)) == Trim(s)
  {
    var r := Trim(s);
    TrimUnique([], r, []);
    assert [] + r + [] == r;
  }

  /** Python `sep.join(parts)`. */
  function Join(sep: string, parts: seq<string>): string
  {
    if |parts| == 0 then ""
    else if |parts| == 1 then parts[0]
    else parts[0] + sep + Join(sep, parts[1..])
  }

  /** Concatenation of all parts, in order. */
  function Concat(parts: seq<string>): string
  {
    if |parts| == 0 then "" else parts[0] + Concat(parts[1..])
  }

  /** Every part followed by `sep`. */
  function Terminated(sep: string, parts: seq<string>): (r: seq<string>)
    ensures |r| == |parts|
    ensures forall i :: 0 <= i < |parts| ==> r[i] == parts[i] + sep
  {
    if |parts| == 0 then [] else [parts[0] + sep] + Terminated(sep, parts[1..])
  }

  /** A non-empty join with one more separator behind it is the
      concatenation of the parts, each followed by the separator. */
  lemma {:induction false} JoinThenSep(sep: string, parts: seq<string>)
    requires |parts| > 0
    ensures Join(sep, parts) + sep == Concat(Terminated(sep, parts))
    decreases |parts|
  {
    if |parts| > 1 {
      JoinThenSep(sep, parts[1..]);
      assert Terminated(sep, parts)[1..] == Terminated(sep, parts[1..]);
    } else {
      assert Terminated(sep, parts)[1..] == [];
    }
  }

  function Upper(c: char): char
  {
    if 'a' <= c <= 'z' then (c as int - 32) as char else c
  }

  function Lower(c: char): char
  {
    if 'A' <= c <= 'Z' then (c as int + 32) as char else c
  }

  function LowerAll(s: string): (r: string)
    ensures |r| == |s|
    ensures forall i :: 0 <= i < |s| ==> r[i] == Lower(s[i])
  {
    if |s| == 0 then "" else [Lower(s[0])] + LowerAll(s[1..])
  }

  /** Python `str.capitalize`, for ASCII letters: the first character in
      upper case, every other one in lower case. */
  function Capitalize(s: string): (r: string)
    ensures |r| == |s|
    ensures |s| > 0 ==> r[0] == Upper(s[0])
    ensures forall i :: 0 < i < |s| ==> r[i] == Lower(s[i])
  {
    if |s| == 0 then "" else [Upper(s[0])] + LowerAll(s[1..])
  }
}
