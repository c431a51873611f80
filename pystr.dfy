/** The Python `str` operations the core relies on, with their Python meaning:
    `split()` on whitespace, `split(sep)`, `splitlines()`, `strip()`,
    `lower()`, `startswith`, `endswith`, `in`, `join` and `replace`. */
module PyStr {

  import opened Base

  /** The ASCII characters Python's `str.isspace` accepts: space, tab,
      line feed, vertical tab, form feed, carriage return and the four
      separators `\x1c`-`\x1f`. */
  predicate IsSpace(c: char) {
    c == ' ' || '\t' <= c <= '\r' || '\U{001C}' <= c <= '\U{001F}'
  }

  /** A token of `str.split()`: non-empty and free of whitespace. */
  predicate IsWord(w: string) {
    |w| > 0 && forall i :: 0 <= i < |w| ==> !IsSpace(w[i])
  }

  predicate StartsWith(s: string, p: string) {
    |p| <= |s| && s[..|p|] == p
  }

  predicate EndsWith(s: string, p: string) {
    |p| <= |s| && s[|s| - |p|..] == p
  }

  /** True when `p` occurs in `s` at index `i`. */
  predicate OccursAt(s: string, p: string, i: int) {
    0 <= i && i + |p| <= |s| && s[i..i + |p|] == p
  }

  /** `s.find(p)` for a non-empty `p`: the leftmost occurrence, if any. */
  function Find(s: string, p: string): (r: Option<nat>)
    requires |p| > 0
    ensures r.Some? ==> OccursAt(s, p, r.value)
    ensures r.Some? ==> forall j :: 0 <= j < r.value ==> !OccursAt(s, p, j)
    ensures r.None? ==> forall j :: !OccursAt(s, p, j)
    decreases |s|
  {
    if |s| < |p| then None
    else if s[..|p|] == p then Some(0)
    else
      match Find(s[1..], p)
      case None =>
        assert forall j :: 1 <= j ==> (OccursAt(s, p, j) <==> OccursAt(s[1..], p, j - 1));
        None
      case Some(i) =>
        assert forall j :: 1 <= j ==> (OccursAt(s, p, j) <==> OccursAt(s[1..], p, j - 1));
        Some(i + 1)
  }

  /** Python's `sub in s`. */
  predicate Contains(s: string, sub: string) {
    exists i :: 0 <= i <= |s| - |sub| && OccursAt(s, sub, i)
  }

  /** A one-character text occurs exactly where that character does. */
  lemma NotContainsChar(s: string, c: char)
    requires !Contains(s, [c])
    ensures c !in s
  {
    forall i | 0 <= i < |s| ensures s[i] != c {
      assert !OccursAt(s, [c], i);
      assert s[i..i + 1] == [s[i]];
    }
  }

  /** `sep.join(ps)`. */
  function Join(ps: seq<string>, sep: string): string {
    if |ps| == 0 then ""
    else if |ps| == 1 then ps[0]
    else ps[0] + sep + Join(ps[1..], sep)
  }

  /** `s.split(p)` for a non-empty separator `p`: the pieces between the
      leftmost non-overlapping occurrences of `p`. */
  function Split(s: string, p: string): (ps: seq<string>)
    requires |p| > 0
    ensures |ps| >= 1
    ensures forall k :: 0 <= k < |ps| ==> !Contains(ps[k], p)
    decreases |s|
  {
    match Find(s, p)
    case None => [s]
    case Some(i) =>
      var head := s[..i];
      assert !Contains(head, p) by {
        forall j | OccursAt(head, p, j) ensures false {
          assert s[j..j + |p|] == head[j..j + |p|];
          assert OccursAt(s, p, j);
        }
      }
      [head] + Split(s[i + |p|..], p)
  }

  /** Splitting and joining with the same separator gives the text back. */
  lemma {:induction false} JoinSplit(s: string, p: string)
    requires |p| > 0
    ensures Join(Split(s, p), p) == s
    decreases |s|
  {
    match Find(s, p)
    case None =>
      SplitNone(s, p);
    case Some(i) =>
      var rest := s[i + |p|..];
      SplitAt(s, p, i);
      JoinSplit(rest, p);
      JoinCons(s[..i], Split(rest, p), p);
      Around(s, p, i);
  }

  /** The text around an occurrence. */
  lemma Around(s: string, p: string, i: nat)
    requires OccursAt(s, p, i)
    ensures s == s[..i] + p + s[i + |p|..]
  {
    assert s == s[..i] + s[i..i + |p|] + s[i + |p|..];
  }

  /** Slices of the tail `s[1..]` as slices of `s`. */
  lemma TailSlices(s: string, i: nat, k: nat)
    requires s != [] && i <= k <= |s| - 1
    ensures s[1..][k..] == s[k + 1..]
    ensures [s[0]] + s[1..][..i] == s[..i + 1]
  {
  }

  lemma JoinCons(a: string, t: seq<string>, sep: string)
    requires |t| >= 1
    ensures Join([a] + t, sep) == a + sep + Join(t, sep)
  {
    assert ([a] + t)[1..] == t;
  }

  /** Splitting a join of separator-free pieces on a one-character separator
      gives the pieces back. */
  lemma {:induction false} SplitJoin(ps: seq<string>, c: char)
    requires |ps| >= 1
    requires forall k :: 0 <= k < |ps| ==> c !in ps[k]
    ensures Split(Join(ps, [c]), [c]) == ps
    decreases |ps|
  {
    var s := Join(ps, [c]);
    var h := ps[0];
    forall j | 0 <= j < |h| ensures !OccursAt(s, [c], j) {
      if |ps| > 1 {
        assert s == h + ([c] + Join(ps[1..], [c]));
      }
      assert s[j] == h[j];
      assert h[j] != c;
    }
    if |ps| == 1 {
      assert forall j :: !OccursAt(s, [c], j);
      assert Find(s, [c]).None?;
    } else {
      var tail := Join(ps[1..], [c]);
      assert s == h + [c] + tail;
      assert OccursAt(s, [c], |h|);
      assert Find(s, [c]) == Some(|h|);
      assert s[|h| + 1..] == tail;
      assert s[..|h|] == h;
      assert Split(s, [c]) == [h] + Split(tail, [c]);
      SplitJoin(ps[1..], c);
      assert ps == [h] + ps[1..];
    }
  }

  /** The first piece of `a + [c] + b` split on `c` is `a` when `a` has no `c`. */
  lemma FirstPiece(a: string, c: char, b: string)
    requires c !in a
    ensures Split(a + [c] + b, [c])[0] == a
  {
    var s := a + [c] + b;
    forall j | 0 <= j < |a| ensures !OccursAt(s, [c], j) {
      assert s[j] == a[j];
    }
    assert OccursAt(s, [c], |a|);
    assert s[..|a|] == a;
  }

  /** `s.splitlines()`, for text whose only line terminator is `"\n"`. */
  function SplitLines(s: string): (ls: seq<string>)
    ensures forall k :: 0 <= k < |ls| ==> '\n' !in ls[k]
  {
    if s == [] then []
    else
      var ps := Split(s, "\n");
      forall k | 0 <= k < |ps| ensures '\n' !in ps[k] {
        NotContainsChar(ps[k], '\n');
      }
      if ps[|ps| - 1] == [] then ps[..|ps| - 1] else ps
  }

  /** Lines joined with `"\n"` are split back into the same lines, as long
      as the last one is not empty (a trailing newline ends a line). */
  lemma LinesOfJoin(ls: seq<string>)
    requires forall k :: 0 <= k < |ls| ==> '\n' !in ls[k]
    requires ls == [] || ls[|ls| - 1] != []
    ensures SplitLines(Join(ls, "\n")) == ls
  {
    if ls != [] {
      SplitJoin(ls, '\n');
      if |ls| > 1 {
        assert Join(ls, "\n") == ls[0] + "\n" + Join(ls[1..], "\n");
      }
      assert |Join(ls, "\n")| > 0;
    }
  }

  /** The number of leading characters of `s` that are not whitespace. */
  function WordLen(s: string): (n: nat)
    ensures n <= |s|
    ensures forall i :: 0 <= i < n ==> !IsSpace(s[i])
    ensures n < |s| ==> IsSpace(s[n])
  {
    if s == [] || IsSpace(s[0]) then 0 else 1 + WordLen(s[1..])
  }

  /** `s.split()`: the maximal runs of non-whitespace characters. */
  function Words(s: string): (ws: seq<string>)
    ensures forall k :: 0 <= k < |ws| ==> IsWord(ws[k])
    decreases |s|
  {
    if s == [] then []
    else if IsSpace(s[0]) then Words(s[1..])
    else
      var n := WordLen(s);
      [s[..n]] + Words(s[n..])
  }

  lemma {:induction false} WordLenOfWord(w: string, rest: string)
    requires forall i :: 0 <= i < |w| ==> !IsSpace(w[i])
    requires rest == [] || IsSpace(rest[0])
    ensures WordLen(w + rest) == |w|
    decreases |w|
  {
    if w != [] {
      assert (w + rest)[1..] == w[1..] + rest;
      WordLenOfWord(w[1..], rest);
    } else {
      assert w + rest == rest;
    }
  }

  /** Tokens joined with single spaces are tokenised back into themselves. */
  lemma {:induction false} WordsOfJoin(ws: seq<string>)
    requires forall k :: 0 <= k < |ws| ==> IsWord(ws[k])
    ensures Words(Join(ws, " ")) == ws
    decreases |ws|
  {
    if |ws| == 1 {
      WordLenOfWord(ws[0], []);
      assert ws[0] + [] == ws[0];
      assert ws[0][..|ws[0]|] == ws[0];
    } else if |ws| > 1 {
      var rest := " " + Join(ws[1..], " ");
      WordLenOfWord(ws[0], rest);
      var s := ws[0] + rest;
      assert Join(ws, " ") == s;
      assert s[..|ws[0]|] == ws[0];
      assert s[|ws[0]|..] == rest;
      assert rest[1..] == Join(ws[1..], " ");
      WordsOfJoin(ws[1..]);
    }
  }

  /** `s.lstrip()`. */
  function StripLeft(s: string): (t: string)
    ensures |t| <= |s| && t == s[|s| - |t|..]
    ensures forall i :: 0 <= i < |s| - |t| ==> IsSpace(s[i])
    ensures t == [] || !IsSpace(t[0])
  {
    if s != [] && IsSpace(s[0]) then
      var t := StripLeft(s[1..]);
      assert forall i :: 1 <= i < |s| ==> s[i] == s[1..][i - 1];
      t
    else s
  }

  /** `s.rstrip()`. */
  function StripRight(s: string): (t: string)
    ensures |t| <= |s| && t == s[..|t|]
    ensures forall i :: |t| <= i < |s| ==> IsSpace(s[i])
    ensures t == [] || !IsSpace(t[|t| - 1])
  {
    if s != [] && IsSpace(s[|s| - 1]) then StripRight(s[..|s| - 1]) else s
  }

  /** `s.strip()`: the slice of `s` left after removing whitespace at both
      ends; it starts and ends with a non-space character. */
  function Strip(s: string): (t: string)
    ensures exists lo, hi ::
      && 0 <= lo <= hi <= |s| && t == s[lo..hi]
      && (forall i :: 0 <= i < lo ==> IsSpace(s[i]))
      && (forall i :: hi <= i < |s| ==> IsSpace(s[i]))
    ensures t == [] || (!IsSpace(t[0]) && !IsSpace(t[|t| - 1]))
  {
    var l := StripLeft(s);
    var t := StripRight(l);
    var lo := |s| - |l|;
    assert t == s[lo..lo + |t|];
    t
  }

  /** Text that neither starts nor ends with whitespace is its own strip. */
  lemma StripNoop(s: string)
    requires s == [] || (!IsSpace(s[0]) && !IsSpace(s[|s| - 1]))
    ensures Strip(s) == s
  {
  }

  function LowerChar(c: char): char {
    if 'A' <= c <= 'Z' then (c as int + 32) as char else c
  }

  /** `s.lower()` on the ASCII letters. */
  function Lower(s: string): (t: string)
    ensures |t| == |s|
    ensures forall i :: 0 <= i < |s| ==> t[i] == LowerChar(s[i])
  {
    seq(|s|, i requires 0 <= i < |s| => LowerChar(s[i]))
  }

  /** `s.replace(p, r)` for a non-empty `p`: scan left to right and replace
      each occurrence found, resuming after it. */
  function Replace(s: string, p: string, r: string): string
    requires |p| > 0
    decreases |s|
  {
    if |s| < |p| then s
    else if s[..|p|] == p then r + Replace(s[|p|..], p, r)
    else [s[0]] + Replace(s[1..], p, r)
  }

  /** Past a non-match at the front, the leftmost occurrence is the one in the tail. */
  lemma FindTail(s: string, p: string)
    requires |p| > 0 && s != [] && !OccursAt(s, p, 0)
    ensures Find(s, p) == match Find(s[1..], p) case None => None case Some(i) => Some(i + 1)
  {
    if |s| >= |p| {
      assert s[..|p|] != p;
    }
  }

  /** One unfolding of `Split` at the leftmost occurrence. */
  lemma SplitAt(s: string, p: string, i: nat)
    requires |p| > 0 && Find(s, p) == Some(i)
    ensures Split(s, p) == [s[..i]] + Split(s[i + |p|..], p)
  {
  }

  lemma SplitNone(s: string, p: string)
    requires |p| > 0 && Find(s, p).None?
    ensures Split(s, p) == [s]
  {
  }

  /** `Replace` through `Find`: the text before the leftmost occurrence is
      kept, the occurrence becomes `r`, and the rest is replaced in turn. */
  lemma {:induction false} ReplaceFind(s: string, p: string, r: string)
    requires |p| > 0
    ensures Replace(s, p, r) == match Find(s, p)
      case None => s
      case Some(i) => s[..i] + r + Replace(s[i + |p|..], p, r)
    decreases |s|
  {
    if |s| < |p| {
    } else if s[..|p|] == p {
      ReplaceHit(s, p, r);
      assert OccursAt(s, p, 0);
      assert s[..0] == [];
    } else {
      var t := s[1..];
      ReplaceMiss(s, p, r);
      FindTail(s, p);
      ReplaceFind(t, p, r);
      match Find(t, p)
      case None =>
        assert [s[0]] + t == s;
      case Some(i) =>
        TailSlices(s, i, i + |p|);
        ShiftFront(s[0], t[..i], s[..i + 1], r, Replace(t[i + |p|..], p, r));
    }
  }

  lemma ShiftFront(c: char, head: string, h: string, r: string, rest: string)
    requires h == [c] + head
    ensures [c] + (head + r + rest) == h + r + rest
  {
  }

  /** Replacing is joining the split pieces with the replacement: every
      occurrence of `p` is replaced, and the text between occurrences, which
      holds no `p`, is kept. */
  lemma {:induction false} ReplaceIsJoinOfSplit(s: string, p: string, r: string)
    requires |p| > 0
    ensures Replace(s, p, r) == Join(Split(s, p), r)
    decreases |s|
  {
    ReplaceFind(s, p, r);
    match Find(s, p)
    case None =>
      SplitNone(s, p);
    case Some(i) =>
      var rest := s[i + |p|..];
      ReplaceIsJoinOfSplit(rest, p, r);
      SplitAt(s, p, i);
      JoinCons(s[..i], Split(rest, p), r);
      assert Join(Split(s, p), r) == s[..i] + r + Join(Split(rest, p), r);
  }

  lemma ReplaceHit(s: string, p: string, r: string)
    requires |p| > 0 && |s| >= |p| && s[..|p|] == p
    ensures Replace(s, p, r) == r + Replace(s[|p|..], p, r)
  {
  }

  lemma ReplaceMiss(s: string, p: string, r: string)
    requires |p| > 0 && |s| >= |p| && s[..|p|] != p
    ensures Replace(s, p, r) == [s[0]] + Replace(s[1..], p, r)
  {
  }

  /** Replacing in text that holds no `p` changes nothing. */
  lemma ReplaceAbsent(s: string, p: string, r: string)
    requires |p| > 0 && !Contains(s, p)
    ensures Replace(s, p, r) == s
  {
    ReplaceIsJoinOfSplit(s, p, r);
  }

  /** The decimal digit for `d`. */
  function Digit(d: nat): char
    requires d < 10
  {
    ('0' as int + d) as char
  }

  /** `str(n)` for a non-negative integer: its decimal digits, most
      significant first, without leading zeros. */
  function Decimal(n: nat): (s: string)
    ensures s != [] && forall i :: 0 <= i < |s| ==> '0' <= s[i] <= '9'
    ensures |s| > 1 ==> s[0] != '0'
    decreases n
  {
    if n < 10 then [Digit(n)] else Decimal(n / 10) + [Digit(n % 10)]
  }

  /** `int(s)` for a string of decimal digits. */
  function DigitsValue(s: string): nat
    requires forall i :: 0 <= i < |s| ==> '0' <= s[i] <= '9'
    decreases |s|
  {
    if s == [] then 0 else 10 * DigitsValue(s[..|s| - 1]) + (s[|s| - 1] as int - '0' as int)
  }

  /** `int(str(n)) == n`. */
  lemma {:induction false} DecimalValue(n: nat)
    ensures DigitsValue(Decimal(n)) == n
    decreases n
  {
    if n >= 10 {
      DecimalValue(n / 10);
      var s := Decimal(n);
      assert s[..|s| - 1] == Decimal(n / 10);
    }
  }
  /** The lower-case hexadecimal digit for `d`. */
  function HexDigit(d: nat): char
    requires d < 16
  {
    if d < 10 then Digit(d) else ('a' as int + d - 10) as char
  }

  /** The quote `repr(s)` writes around `s`: a double quote only when `s`
      holds a single quote and no double quote. */
  function ReprQuote(s: string): char {
    if '\'' in s && '"' !in s then '"' else '\''
  }

  /** One character of `repr(s)` between the quotes `q`: the quote and the
      backslash escaped, tab, newline and carriage return by name, the other
      ASCII control characters as `\xNN`. */
  function ReprChar(c: char, q: char): string {
    if c == q || c == '\\' then ['\\', c]
    else if c == '\t' then "\\t"
    else if c == '\n' then "\\n"
    else if c == '\r' then "\\r"
    else if c < ' ' || c as int == 0x7f then "\\x" + [HexDigit(c as int / 16), HexDigit(c as int % 16)]
    else [c]
  }

  function ReprBody(s: string, q: char): string {
    if s == [] then "" else ReprChar(s[0], q) + ReprBody(s[1..], q)
  }

  /** `repr(s)` of a string. */
  function Repr(s: string): (r: string)
    ensures |r| >= 2 && r[0] == ReprQuote(s) && r[|r| - 1] == ReprQuote(s)
  {
    [ReprQuote(s)] + ReprBody(s, ReprQuote(s)) + [ReprQuote(s)]
  }

  /** A character `repr` writes as itself between single quotes. */
  predicate Plain(c: char) {
    ' ' <= c && c != '\\' && c != '\'' && c as int != 0x7f
  }

  lemma {:induction false} PlainBody(s: string, q: char)
    requires q != ' ' && forall i :: 0 <= i < |s| ==> Plain(s[i]) && s[i] != q
    ensures ReprBody(s, q) == s
    decreases |s|
  {
    if s != [] {
      PlainBody(s[1..], q);
      assert s == [s[0]] + s[1..];
    }
  }

  /** A string of plain characters is written between single quotes,
      unchanged. */
  lemma ReprPlain(s: string)
    requires forall i :: 0 <= i < |s| ==> Plain(s[i])
    ensures Repr(s) == "'" + s + "'"
  {
    assert '\'' !in s by {
      forall i | 0 <= i < |s| ensures s[i] != '\'' { assert Plain(s[i]); }
    }
    PlainBody(s, '\'');
  }

  function ReprAll(ps: seq<string>): (rs: seq<string>)
    ensures |rs| == |ps|
  {
    if ps == [] then [] else [Repr(ps[0])] + ReprAll(ps[1..])
  }

  /** `str(ps)` of a list of strings: its elements' `repr`s between
      brackets, separated by `, `. */
  function ListRepr(ps: seq<string>): string {
    "[" + Join(ReprAll(ps), ", ") + "]"
  }
  predicate AllPlain(ps: seq<string>) {
    forall i, j :: 0 <= i < |ps| && 0 <= j < |ps[i]| ==> Plain(ps[i][j])
  }

  lemma Glue(a: string, b: string)
    ensures "'" + a + "'" + ", " + ("'" + b + "'") == "'" + (a + "', '" + b) + "'"
  {
    assert "'" + ", " + "'" == "', '";
    assert "'" + a + "'" + ", " + ("'" + b + "'") == "'" + a + ("'" + ", " + "'") + b + "'";
  }

  lemma {:induction false} JoinReprPlain(ps: seq<string>)
    requires |ps| > 0 && AllPlain(ps)
    ensures Join(ReprAll(ps), ", ") == "'" + Join(ps, "', '") + "'"
    decreases |ps|
  {
    assert forall j :: 0 <= j < |ps[0]| ==> Plain(ps[0][j]);
    ReprPlain(ps[0]);
    if |ps| > 1 {
      var t := ps[1..];
      assert AllPlain(t) by {
        forall i, j | 0 <= i < |t| && 0 <= j < |t[i]| ensures Plain(t[i][j]) {
          assert t[i] == ps[i + 1];
        }
      }
      JoinReprPlain(t);
      assert ReprAll(ps)[1..] == ReprAll(t);
      Glue(ps[0], Join(t, "', '"));
    }
  }

  /** `str(ps)` of a non-empty list of plain strings: the strings joined
      by `', '`, between single quotes, between brackets. */
  lemma ListReprPlain(ps: seq<string>)
    requires |ps| > 0 && AllPlain(ps)
    ensures ListRepr(ps) == "[" + ("'" + Join(ps, "', '") + "'") + "]"
  {
    JoinReprPlain(ps);
  }
}
