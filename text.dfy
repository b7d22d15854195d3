/** String helpers shared by the backend (Python `str`) and the frontend
    (JavaScript strings). Whitespace and letter case are ASCII only. */
module Text {
  import opened Wrappers

  /** The ASCII whitespace characters: space, tab, line feed, vertical tab,
      form feed and carriage return. JavaScript's `\s` / `trim()` and
      Python's `str.split()` / `strip()` all treat these as whitespace;
      Python also treats the separators '\x1c' to '\x1f' as whitespace,
      which this predicate does not. */
  predicate IsSpace(c: char) {
    c == ' ' || ('\t' <= c <= '\r')
  }

  /** The separator class `[\s,]` of the hashtag input fields. */
  predicate IsSpaceOrComma(c: char) {
    IsSpace(c) || c == ','
  }

  /** JavaScript / Python truthiness of an optional string: present and non-empty. */
  predicate Truthy(s: Option<string>) {
    s.Some? && s.value != ""
  }

  /** `a || b` on optional strings: `a` when it is truthy, else `b`. */
  function Or(a: Option<string>, b: Option<string>): (r: Option<string>)
    ensures Truthy(a) ==> r == a
    ensures !Truthy(a) ==> r == b
  {
    if Truthy(a) then a else b
  }

  /** `a || default` with a string default: the text of `a` when truthy, else `default`. */
  function OrDefault(a: Option<string>, default: string): (r: string)
    ensures Truthy(a) ==> r == a.value
    ensures !Truthy(a) ==> r == default
  {
    if Truthy(a) then a.value else default
  }

  function LowerChar(c: char): char {
    if 'A' <= c <= 'Z' then (c as int + 32) as char else c
  }

  function UpperChar(c: char): char {
    if 'a' <= c <= 'z' then (c as int - 32) as char else c
  }

  /** ASCII `toLowerCase()` / `lower()`. */
  function Lower(s: string): (r: string)
    ensures |r| == |s|
    ensures forall i :: 0 <= i < |s| ==> r[i] == LowerChar(s[i])
  {
    seq(|s|, i requires 0 <= i < |s| => LowerChar(s[i]))
  }

  /** ASCII `upper()`. */
  function Upper(s: string): (r: string)
    ensures |r| == |s|
    ensures forall i :: 0 <= i < |s| ==> r[i] == UpperChar(s[i])
  {
    seq(|s|, i requires 0 <= i < |s| => UpperChar(s[i]))
  }

  predicate StartsWith(s: string, prefix: string) {
    |prefix| <= |s| && s[..|prefix|] == prefix
  }

  /** `sub in s` (Python) / `s.includes(sub)` (JavaScript). */
  predicate Contains(s: string, sub: string)
    decreases |s|
  {
    StartsWith(s, sub) || (|s| > 0 && Contains(s[1..], sub))
  }

  /** `s[:n]` (Python) / `s.slice(0, n)` (JavaScript): the first `n` characters,
      or all of `s` when it is shorter. */
  function Take<T>(s: seq<T>, n: nat): (r: seq<T>)
    ensures |r| <= n && |r| <= |s|
    ensures |s| <= n ==> r == s
    ensures |s| > n ==> |r| == n
    ensures r == s[..|r|]
  {
    if |s| <= n then s else s[..n]
  }

  function TrimLeft(s: string): (r: string)
    ensures r == [] || !IsSpace(r[0])
    ensures |r| <= |s|
  {
    if s != [] && IsSpace(s[0]) then TrimLeft(s[1..]) else s
  }

  /** `TrimLeft` only drops a prefix. */
  lemma {:induction false} TrimLeftSuffix(s: string)
    ensures TrimLeft(s) == s[|s| - |TrimLeft(s)|..]
  {
    if s != [] && IsSpace(s[0]) {
      TrimLeftSuffix(s[1..]);
      assert s[1..][|s| - 1 - |TrimLeft(s[1..])|..] == s[|s| - |TrimLeft(s)|..];
    }
  }

  function TrimRight(s: string): (r: string)
    ensures r == [] || !IsSpace(r[|r| - 1])
    ensures |r| <= |s| && r == s[..|r|]
  {
    if s != [] && IsSpace(s[|s| - 1]) then TrimRight(s[..|s| - 1]) else s
  }

  /** `strip()` / `trim()`: no whitespace at either end. */
  function Trim(s: string): (r: string)
    ensures r == [] || (!IsSpace(r[0]) && !IsSpace(r[|r| - 1]))
  {
    TrimRight(TrimLeft(s))
  }

  /** A word for the separator class `sep`: non-empty, no separator inside. */
  ghost predicate IsWord(w: string, sep: char -> bool) {
    w != [] && forall i :: 0 <= i < |w| ==> !sep(w[i])
  }

  /** Length of the leading run of non-separator characters. */
  function RunLen(s: string, sep: char -> bool): (n: nat)
    ensures n <= |s|
    ensures forall i :: 0 <= i < n ==> !sep(s[i])
    ensures n < |s| ==> sep(s[n])
  {
    if s == [] || sep(s[0]) then 0 else 1 + RunLen(s[1..], sep)
  }

  /** The maximal runs of non-separator characters of `s`, in order: what
      `s.split()` gives in Python and `s.split(/sep+/).filter(Boolean)` gives
      in JavaScript. Every run is a word. */
  function Runs(s: string, sep: char -> bool): (r: seq<string>)
    ensures forall w :: w in r ==> IsWord(w, sep)
    decreases |s|
  {
    if s == [] then []
    else if sep(s[0]) then Runs(s[1..], sep)
    else
      var n := RunLen(s, sep);
      [s[..n]] + Runs(s[n..], sep)
  }

  /** Python's `s.split()` with no argument. */
  function Words(s: string): (r: seq<string>)
    ensures forall w :: w in r ==> IsWord(w, IsSpace)
  {
    Runs(s, IsSpace)
  }

  /** `d.join(ws)` (Python) / `ws.join(d)` (JavaScript). */
  function Join(ws: seq<string>, d: string): string {
    if |ws| == 0 then ""
    else if |ws| == 1 then ws[0]
    else ws[0] + d + Join(ws[1..], d)
  }

  function DigitChar(d: nat): char
    requires d < 10
  {
    ('0' as int + d) as char
  }

  /** Decimal rendering of a natural number, as in a JavaScript template string. */
  function NatToString(n: nat): (r: string)
    ensures r != []
    ensures forall i :: 0 <= i < |r| ==> '0' <= r[i] <= '9'
  {
    if n < 10 then [DigitChar(n)] else NatToString(n / 10) + [DigitChar(n % 10)]
  }

  /** Decimal rendering of an integer, with a leading '-' when negative. */
  function IntToString(n: int): (r: string)
    ensures r != []
    ensures n >= 0 ==> r == NatToString(n)
    ensures n < 0 ==> r[0] == '-' && r[1..] == NatToString(-n)
  {
    if n >= 0 then NatToString(n) else "-" + NatToString(-n)
  }

  lemma {:induction false} RunLenAppend(a: string, t: string, sep: char -> bool)
    requires t == [] || sep(t[0])
    ensures RunLen(a + t, sep) == RunLen(a, sep)
    decreases |a|
  {
    if a == [] {
      assert a + t == t;
    } else if !sep(a[0]) {
      assert (a + t)[1..] == a[1..] + t;
      RunLenAppend(a[1..], t, sep);
    }
  }

  /** Splitting at a separator character splits the runs. */
  lemma {:induction false} RunsAppend(a: string, c: char, b: string, sep: char -> bool)
    requires sep(c)
    ensures Runs(a + [c] + b, sep) == Runs(a, sep) + Runs(b, sep)
    decreases |a|
  {
    var s := a + [c] + b;
    if a == [] {
      assert s == [c] + b;
      assert s[1..] == b;
    } else if sep(a[0]) {
      assert s[1..] == a[1..] + [c] + b;
      RunsAppend(a[1..], c, b, sep);
    } else {
      var n := RunLen(a, sep);
      assert s == a + ([c] + b);
      RunLenAppend(a, [c] + b, sep);
      assert s[..n] == a[..n];
      assert s[n..] == a[n..] + [c] + b;
      RunsAppend(a[n..], c, b, sep);
    }
  }

  lemma RunsOfWord(w: string, sep: char -> bool)
    requires IsWord(w, sep)
    ensures Runs(w, sep) == [w]
  {
    var n := RunLen(w, sep);
    assert n == |w|;
    assert w[..n] == w;
    assert w[n..] == [];
  }

  /** Joining words with a separator and splitting again gives the words back. */
  lemma {:induction false} RunsOfJoin(ws: seq<string>, d: char, sep: char -> bool)
    requires sep(d)
    requires forall i :: 0 <= i < |ws| ==> IsWord(ws[i], sep)
    ensures Runs(Join(ws, [d]), sep) == ws
  {
    if |ws| == 1 {
      RunsOfWord(ws[0], sep);
    } else if |ws| > 1 {
      RunsAppend(ws[0], d, Join(ws[1..], [d]), sep);
      RunsOfWord(ws[0], sep);
      RunsOfJoin(ws[1..], d, sep);
    }
  }

  /** Leading and trailing separators do not change the runs. */
  lemma {:induction false} RunsTrimLeft(s: string)
    ensures Runs(TrimLeft(s), IsSpace) == Runs(s, IsSpace)
  {
    if s != [] && IsSpace(s[0]) {
      RunsTrimLeft(s[1..]);
    }
  }

  lemma {:induction false} RunsTrimRight(s: string)
    ensures Runs(TrimRight(s), IsSpace) == Runs(s, IsSpace)
    decreases |s|
  {
    if s != [] && IsSpace(s[|s| - 1]) {
      var a := s[..|s| - 1];
      assert s == a + [s[|s| - 1]] + [];
      RunsAppend(a, s[|s| - 1], [], IsSpace);
      RunsTrimRight(a);
    }
  }

  /** `s.trim().split(/\s+/).filter(Boolean)` and `s.split(/\s+/).filter(Boolean)`
      give the same words. */
  lemma WordsTrim(s: string)
    ensures Words(Trim(s)) == Words(s)
  {
    RunsTrimLeft(s);
    RunsTrimRight(TrimLeft(s));
  }
}
