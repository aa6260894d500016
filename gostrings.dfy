/** The parts of Go's `strings`, `strconv` and `path/filepath` packages that the
    command-output parsers rely on, over strings as sequences of Unicode scalar
    values (a Go `string` indexed by rune). */
module GoStrings {

  /** `unicode.IsSpace`: the Latin-1 spaces plus the other White_Space code points. */
  predicate IsSpace(c: char) {
    || c == ' ' || c == '\t' || c == '\n' || c == '\r' || c == '\U{B}' || c == '\U{C}'
    || c == '\U{85}' || c == '\U{A0}' || c == '\U{1680}'
    || ('\U{2000}' <= c <= '\U{200A}')
    || c == '\U{2028}' || c == '\U{2029}' || c == '\U{202F}' || c == '\U{205F}' || c == '\U{3000}'
  }

  predicate NoSpace(s: string) {
    forall k :: 0 <= k < |s| ==> !IsSpace(s[k])
  }

  predicate HasPrefix(s: string, prefix: string) {
    |prefix| <= |s| && s[..|prefix|] == prefix
  }

  predicate HasSuffix(s: string, suffix: string) {
    |suffix| <= |s| && s[|s| - |suffix|..] == suffix
  }

  /** `strings.TrimSuffix`. */
  function TrimSuffix(s: string, suffix: string): (r: string)
    ensures HasSuffix(s, suffix) ==> r + suffix == s
    ensures !HasSuffix(s, suffix) ==> r == s
  {
    if HasSuffix(s, suffix) then s[..|s| - |suffix|] else s
  }

  /** True when `sub` occurs in `s` at offset `i`. */
  predicate OccursAt(s: string, sub: string, i: int) {
    0 <= i && i + |sub| <= |s| && s[i..i + |sub|] == sub
  }

  /** `strings.Index`: the offset of the first occurrence of `sub`, or -1. */
  function Index(s: string, sub: string): (i: int)
    ensures -1 <= i <= |s|
    ensures i >= 0 ==> OccursAt(s, sub, i)
    ensures forall k :: 0 <= k && (i < 0 || k < i) ==> !OccursAt(s, sub, k)
    decreases |s|
  {
    if HasPrefix(s, sub) then 0
    else if s == [] then -1
    else
      var j := Index(s[1..], sub);
      assert forall k :: 1 <= k && OccursAt(s, sub, k) ==> OccursAt(s[1..], sub, k - 1) by {
        forall k | 1 <= k && OccursAt(s, sub, k) ensures OccursAt(s[1..], sub, k - 1) {
          assert s[1..][k - 1..k - 1 + |sub|] == s[k..k + |sub|];
        }
      }
      if j < 0 then -1
      else
        assert s[1..][j..j + |sub|] == s[j + 1..j + 1 + |sub|];
        j + 1
  }

  /** `strings.Contains`. */
  predicate Contains(s: string, sub: string) {
    Index(s, sub) >= 0
  }

  lemma ContainsIff(s: string, sub: string)
    ensures Contains(s, sub) <==> exists k :: OccursAt(s, sub, k)
  {
    if Contains(s, sub) {
      assert OccursAt(s, sub, Index(s, sub));
    }
  }

  /** `strings.LastIndex` for a one-character separator. */
  function LastIndexChar(s: string, c: char): (i: int)
    ensures -1 <= i < |s|
    ensures i >= 0 ==> s[i] == c && c !in s[i + 1..]
    ensures i < 0 ==> c !in s
  {
    if s == [] then -1
    else if s[|s| - 1] == c then |s| - 1
    else
      var j := LastIndexChar(s[..|s| - 1], c);
      assert s == s[..|s| - 1] + [s[|s| - 1]];
      j
  }

  /** The last `c` in `s` is the one with no `c` after it. */
  lemma LastIndexCharAt(s: string, c: char, i: int)
    requires 0 <= i < |s| && s[i] == c && c !in s[i + 1..]
    ensures LastIndexChar(s, c) == i
  {
  }

  /** The first `c` in `s` is the one with no `c` before it. */
  lemma IndexCharAt(s: string, c: char, i: int)
    requires 0 <= i < |s| && s[i] == c && c !in s[..i]
    ensures IndexChar(s, c) == i
  {
    var j := IndexChar(s, c);
    assert s[..j + 1][j] == c;
    assert s[..i + 1][i] == c;
  }

  /** The offset of the first `c` in `s`, or -1. */
  function IndexChar(s: string, c: char): (i: int)
    ensures -1 <= i < |s|
    ensures i >= 0 ==> s[i] == c && c !in s[..i]
    ensures i < 0 ==> c !in s
  {
    if s == [] then -1
    else if s[0] == c then 0
    else
      var j := IndexChar(s[1..], c);
      if j < 0 then -1 else j + 1
  }

  /** `strings.Join`. */
  function Join(parts: seq<string>, sep: string): string
  {
    if |parts| == 0 then ""
    else if |parts| == 1 then parts[0]
    else parts[0] + sep + Join(parts[1..], sep)
  }

  /** `strings.Split` with a one-character separator: the pieces between the
      separators, never an empty list, joined back they give the input. */
  function Split(s: string, sep: char): (parts: seq<string>)
    ensures |parts| >= 1
    ensures forall i :: 0 <= i < |parts| ==> sep !in parts[i]
    ensures Join(parts, [sep]) == s
    decreases |s|
  {
    var i := IndexChar(s, sep);
    if i < 0 then [s]
    else
      var rest := Split(s[i + 1..], sep);
      assert ([s[..i]] + rest)[1..] == rest;
      assert s == s[..i] + [sep] + s[i + 1..];
      [s[..i]] + rest
  }

  /** The lines of a command's output. */
  function Lines(out: string): seq<string>
  {
    Split(out, '\n')
  }

  /** The whitespace-separated columns of each line of a command's output. */
  function Rows(out: string): (rows: seq<seq<string>>)
    ensures |rows| == |Lines(out)|
    ensures forall i :: 0 <= i < |rows| ==> rows[i] == Fields(Lines(out)[i])
  {
    var lines := Lines(out);
    seq(|lines|, i requires 0 <= i < |lines| => Fields(lines[i]))
  }

  /** The length of the run of non-space characters that starts `s`. */
  function TokenEnd(s: string): (n: nat)
    ensures n <= |s|
    ensures NoSpace(s[..n])
    ensures n < |s| ==> IsSpace(s[n])
  {
    if s == [] || IsSpace(s[0]) then 0
    else
      var n := TokenEnd(s[1..]);
      assert s[..n + 1] == [s[0]] + s[1..][..n];
      n + 1
  }

  /** `strings.Fields`: the maximal runs of non-space characters, in order. */
  function Fields(s: string): (fs: seq<string>)
    ensures forall i :: 0 <= i < |fs| ==> fs[i] != [] && NoSpace(fs[i])
    ensures NoSpace(s) && s != [] ==> fs == [s]
    ensures (forall k :: 0 <= k < |s| ==> IsSpace(s[k])) ==> fs == []
    decreases |s|
  {
    if s == [] then []
    else if IsSpace(s[0]) then Fields(s[1..])
    else
      var n := TokenEnd(s);
      var rest := Fields(s[n..]);
      assert NoSpace(s) ==> n == |s| && s[..n] == s && rest == [];
      [s[..n]] + rest
  }

  /** `s` without its white space. */
  function DropSpaces(s: string): string {
    if s == [] then []
    else if IsSpace(s[0]) then DropSpaces(s[1..])
    else [s[0]] + DropSpaces(s[1..])
  }

  /** The strings of `fs` one after the other. */
  function Concat(fs: seq<string>): string {
    if fs == [] then [] else fs[0] + Concat(fs[1..])
  }

  /** How many runs of non-space characters `s` has; `afterSpace` says
      whether what came before `s` ended a run. */
  function Runs(s: string, afterSpace: bool): nat {
    if s == [] then 0
    else (if afterSpace && !IsSpace(s[0]) then 1 else 0) + Runs(s[1..], IsSpace(s[0]))
  }

  /** The fields hold every non-space character of `s`, in order, and there
      is one field per run of non-space characters. */
  lemma {:induction false} FieldsAreRuns(s: string)
    ensures Concat(Fields(s)) == DropSpaces(s)
    ensures |Fields(s)| == Runs(s, true)
    decreases |s|
  {
    if s == [] {
    } else if IsSpace(s[0]) {
      FieldsAreRuns(s[1..]);
    } else {
      var n := TokenEnd(s);
      assert s[..n][0] == s[0];
      var rest := s[n..];
      FieldsAreRuns(rest);
      var fs := [s[..n]] + Fields(rest);
      assert Fields(s) == fs;
      assert fs[1..] == Fields(rest);
      DropSpacesToken(s, n);
      RunsInToken(s[1..], n - 1);
      assert s[1..][n - 1..] == rest;
      assert Runs(rest, false) == Runs(rest, true);
    }
  }

  lemma {:induction false} DropSpacesToken(s: string, n: nat)
    requires n <= |s| && NoSpace(s[..n])
    ensures DropSpaces(s) == s[..n] + DropSpaces(s[n..])
    decreases n
  {
    if n > 0 {
      assert s[..n][0] == s[0];
      assert s[1..][..n - 1] == s[1..n];
      DropSpacesToken(s[1..], n - 1);
      assert s[1..][n - 1..] == s[n..];
      assert s[..n] == [s[0]] + s[1..n];
    }
  }

  lemma {:induction false} RunsInToken(s: string, n: nat)
    requires n <= |s| && NoSpace(s[..n])
    ensures Runs(s, false) == Runs(s[n..], false)
    decreases n
  {
    if n > 0 {
      assert s[..n][0] == s[0];
      assert s[1..][..n - 1] == s[1..n];
      RunsInToken(s[1..], n - 1);
      assert s[1..][n - 1..] == s[n..];
    }
  }

  /** `strings.TrimLeft(s, unicode.IsSpace)`. */
  function TrimLeftSpace(s: string): (r: string)
    ensures |r| <= |s| && r == s[|s| - |r|..]
    ensures r != [] ==> !IsSpace(r[0])
    ensures forall k :: 0 <= k < |s| - |r| ==> IsSpace(s[k])
  {
    if s != [] && IsSpace(s[0]) then TrimLeftSpace(s[1..]) else s
  }

  /** `strings.TrimRight(s, unicode.IsSpace)`. */
  function TrimRightSpace(s: string): (r: string)
    ensures |r| <= |s| && r == s[..|r|]
    ensures r != [] ==> !IsSpace(r[|r| - 1])
    ensures forall k :: |r| <= k < |s| ==> IsSpace(s[k])
  {
    if s != [] && IsSpace(s[|s| - 1]) then TrimRightSpace(s[..|s| - 1]) else s
  }

  /** `strings.TrimSpace`: `s` without its leading and trailing spaces. */
  function TrimSpace(s: string): (r: string)
    ensures |r| <= |s|
    ensures r != [] ==> !IsSpace(r[0]) && !IsSpace(r[|r| - 1])
    ensures s != [] && !IsSpace(s[0]) && !IsSpace(s[|s| - 1]) ==> r == s
  {
    TrimRightSpace(TrimLeftSpace(s))
  }

  /** `strings.ReplaceAll(s, [c], "")`: `s` with every `c` removed. */
  function RemoveChar(s: string, c: char): (r: string)
    ensures c !in r
    ensures |r| <= |s|
    ensures c !in s ==> r == s
  {
    if s == [] then []
    else if s[0] == c then RemoveChar(s[1..], c)
    else [s[0]] + RemoveChar(s[1..], c)
  }

  /** `s` without its trailing slashes. */
  function TrimTrailingSlashes(s: string): (r: string)
    ensures |r| <= |s| && r == s[..|r|]
    ensures r != [] ==> r[|r| - 1] != '/'
  {
    if s != [] && s[|s| - 1] == '/' then TrimTrailingSlashes(s[..|s| - 1]) else s
  }

  /** `filepath.Base` on a Unix system: the last element of a slash-separated
      path, "." for the empty path and "/" for a path made only of slashes. */
  function Base(path: string): (r: string)
    ensures r != []
    ensures r == "/" || '/' !in r
    ensures '/' !in path && path != [] ==> r == path
  {
    if path == [] then "."
    else
      var trimmed := TrimTrailingSlashes(path);
      var i := LastIndexChar(trimmed, '/');
      var last := if i >= 0 then trimmed[i + 1..] else trimmed;
      if last == [] then "/" else last
  }

  /** A name with no slash after a directory is the path's base. */
  lemma BaseOfJoin(dir: string, name: string)
    requires name != [] && '/' !in name
    ensures Base(dir + "/" + name) == name
  {
    var path := dir + "/" + name;
    assert path[|path| - 1] == name[|name| - 1];
    assert TrimTrailingSlashes(path) == path;
    assert path[|dir| + 1..] == name;
    LastIndexCharAt(path, '/', |dir|);
  }

  function DigitChar(d: nat): (c: char)
    requires d < 10
    ensures '0' <= c <= '9'
  {
    "0123456789"[d]
  }

  function DigitValue(c: char): (d: nat)
    requires '0' <= c <= '9'
    ensures d < 10
  {
    (c as int - '0' as int) as nat
  }

  predicate IsDecimal(s: string) {
    s != [] && forall k :: 0 <= k < |s| ==> '0' <= s[k] <= '9'
  }

  /** The value of a string of decimal digits. */
  function DecimalValue(s: string): nat
    requires IsDecimal(s)
  {
    if |s| == 1 then DigitValue(s[0])
    else 10 * DecimalValue(s[..|s| - 1]) + DigitValue(s[|s| - 1])
  }

  /** `strconv.Itoa` of a non-negative number: its decimal digits. */
  function NatToString(n: nat): (s: string)
    ensures IsDecimal(s)
  {
    if n < 10 then [DigitChar(n)] else NatToString(n / 10) + [DigitChar(n % 10)]
  }

  /** `strconv.Itoa` (the `%d` verb). */
  function Itoa(n: int): (s: string)
    ensures n >= 0 ==> IsDecimal(s)
    ensures n < 0 ==> |s| >= 2 && s[0] == '-' && IsDecimal(s[1..])
  {
    if n < 0 then "-" + NatToString(-n) else NatToString(n)
  }

  /** Reading back the digits `%d` prints gives the number printed. */
  lemma {:induction false} NatToStringRoundTrip(n: nat)
    ensures DecimalValue(NatToString(n)) == n
  {
    var s := NatToString(n);
    if n >= 10 {
      NatToStringRoundTrip(n / 10);
      assert s[..|s| - 1] == NatToString(n / 10);
    }
  }
}
