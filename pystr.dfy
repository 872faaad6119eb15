/** The Python `str` operations the application relies on, written out so that the
    model computes exactly what the interpreter does on the inputs that matter here:
    `sep in s`, `s.split(sep)`, `s.split(sep, 1)`, `s.split()[0]`, `s.strip()`,
    `s.replace(pat, repl)`, `s.upper()`, `str(n)`, `int(s)`, `c.isdigit()` and the
    ordering `sorted()` uses. Each comes with the facts about it the rest of the model needs. */
module PyStr {
  import opened Wrappers

  // ---------------------------------------------------------------------------
  // Substring search: Python's `t in s`

  predicate MatchAt(s: string, t: string, i: int) {
    0 <= i && i + |t| <= |s| && s[i..i + |t|] == t
  }

  predicate Contains(s: string, t: string) {
    exists i | 0 <= i <= |s| - |t| :: MatchAt(s, t, i)
  }

  lemma ContainsWitness(s: string, t: string, i: int)
    requires MatchAt(s, t, i)
    ensures Contains(s, t)
  {
  }

  /** A text starts with itself followed by anything. */
  lemma ContainsPrefix(t: string, rest: string)
    ensures Contains(t + rest, t)
  {
    assert (t + rest)[0..|t|] == t;
    ContainsWitness(t + rest, t, 0);
  }

  /** A text lacking one of the characters of `t` does not contain `t`. */
  lemma MissingCharExcludes(s: string, t: string, c: char)
    requires c in t && c !in s
    ensures !Contains(s, t)
  {
    forall i | 0 <= i <= |s| - |t|
      ensures !MatchAt(s, t, i)
    {
      var k :| 0 <= k < |t| && t[k] == c;
      assert s[i + k] == s[i..i + |t|][k];
    }
  }

  // ---------------------------------------------------------------------------
  // Counting and splitting on one separator character: `s.split(sep)`

  function Count(s: string, c: char): nat {
    if s == "" then 0 else (if s[0] == c then 1 else 0) + Count(s[1..], c)
  }

  lemma {:induction false} CountZero(s: string, c: char)
    ensures Count(s, c) == 0 <==> c !in s
  {
    if s != "" {
      CountZero(s[1..], c);
      assert s == [s[0]] + s[1..];
    }
  }

  /** `s.split(sep)`: the pieces between separators, empty ones included. */
  function Split(s: string, sep: char): (parts: seq<string>)
    ensures |parts| == Count(s, sep) + 1
    decreases |s|
  {
    if s == "" then [""]
    else
      var rest := Split(s[1..], sep);
      if s[0] == sep then [""] + rest
      else [[s[0]] + rest[0]] + rest[1..]
  }

  function Join(parts: seq<string>, sep: char): string
    requires |parts| > 0
  {
    if |parts| == 1 then parts[0] else parts[0] + [sep] + Join(parts[1..], sep)
  }

  /** Joining the pieces back with the separator gives the original string. */
  lemma {:induction false} SplitJoin(s: string, sep: char)
    ensures Join(Split(s, sep), sep) == s
  {
    if s != "" {
      var rest := Split(s[1..], sep);
      SplitJoin(s[1..], sep);
      if s[0] == sep {
        assert Split(s, sep) == [""] + rest;
        assert ([""] + rest)[1..] == rest;
      } else {
        var parts := Split(s, sep);
        assert parts == [[s[0]] + rest[0]] + rest[1..];
        if |rest| == 1 {
          assert Join(parts, sep) == [s[0]] + rest[0];
        } else {
          assert parts[1..] == rest[1..];
          assert Join(rest, sep) == rest[0] + [sep] + Join(rest[1..], sep);
        }
        assert s == [s[0]] + s[1..];
      }
    }
  }

  /** No piece contains the separator. */
  lemma {:induction false} SplitPiecesFree(s: string, sep: char)
    ensures forall k | 0 <= k < |Split(s, sep)| :: sep !in Split(s, sep)[k]
  {
    if s != "" {
      SplitPiecesFree(s[1..], sep);
      var rest := Split(s[1..], sep);
      if s[0] != sep {
        assert sep !in rest[0];
        forall k | 0 <= k < |Split(s, sep)| ensures sep !in Split(s, sep)[k] {
          if k > 0 { assert Split(s, sep)[k] == rest[k]; }
        }
      } else {
        forall k | 0 <= k < |Split(s, sep)| ensures sep !in Split(s, sep)[k] {
          if k > 0 { assert Split(s, sep)[k] == rest[k - 1]; }
        }
      }
    }
  }

  /** Splitting on a separator that occurs exactly once yields the text before it and the text after it. */
  lemma {:induction false} SplitTwo(a: string, b: string, sep: char)
    requires sep !in a && sep !in b
    ensures Split(a + [sep] + b, sep) == [a, b]
  {
    if a == "" {
      assert ([sep] + b)[1..] == b;
      SplitNone(b, sep);
    } else {
      SplitTwo(a[1..], b, sep);
      assert (a + [sep] + b)[1..] == a[1..] + [sep] + b;
      assert [a[0]] + a[1..] == a;
    }
  }

  lemma {:induction false} SplitNone(s: string, sep: char)
    requires sep !in s
    ensures Split(s, sep) == [s]
  {
    if s != "" {
      SplitNone(s[1..], sep);
      assert [s[0]] + s[1..] == s;
    }
  }

  /** The last piece of `s.split(sep)`, Python's `s.split(sep)[-1]`. */
  function LastPiece(s: string, sep: char): string {
    var parts := Split(s, sep);
    parts[|parts| - 1]
  }

  // ---------------------------------------------------------------------------
  // `s.split(c, 1)[1]`: what follows the first occurrence of `c`, if any

  function AfterFirst(s: string, c: char): (r: Option<string>)
    ensures r.None? <==> c !in s
    ensures r.Some? ==>
      var k := |s| - |r.value| - 1;
      0 <= k && s[k] == c && c !in s[..k] && r.value == s[k + 1..]
  {
    if s == "" then None
    else if s[0] == c then Some(s[1..])
    else
      var r := AfterFirst(s[1..], c);
      assert s[1..][..|s| - 1 - (if r.Some? then |r.value| + 1 else 0)] == s[1..|s| - (if r.Some? then |r.value| + 1 else 0)];
      r
  }

  // ---------------------------------------------------------------------------
  // Whitespace: `str.isspace`, `s.strip()`, `s.split()[0]`

  /** The characters Python's `str.isspace` accepts. */
  predicate IsSpace(ch: char) {
    if ch <= ' ' then ch == ' ' || '\U{9}' <= ch <= '\U{D}' || '\U{1C}' <= ch <= '\U{1F}'
    else if ch < '\U{85}' then false
    else
      || ch == '\U{85}' || ch == '\U{A0}' || ch == '\U{1680}'
      || ('\U{2000}' <= ch <= '\U{200A}') || ch == '\U{2028}' || ch == '\U{2029}'
      || ch == '\U{202F}' || ch == '\U{205F}' || ch == '\U{3000}'
  }

  function LStrip(s: string): (r: string)
    ensures |r| <= |s| && r == s[|s| - |r|..]
    ensures forall k | 0 <= k < |s| - |r| :: IsSpace(s[k])
    ensures r == "" || !IsSpace(r[0])
  {
    if s != "" && IsSpace(s[0]) then LStrip(s[1..]) else s
  }

  function RStrip(s: string): (r: string)
    ensures |r| <= |s| && r == s[..|r|]
    ensures forall k | |r| <= k < |s| :: IsSpace(s[k])
    ensures r == "" || !IsSpace(r[|r| - 1])
  {
    if s != "" && IsSpace(s[|s| - 1]) then RStrip(s[..|s| - 1]) else s
  }

  /** `t` sits at index `i` of `s` with only whitespace before and after it. */
  predicate PaddedAt(s: string, t: string, i: int) {
    && MatchAt(s, t, i)
    && (forall k | 0 <= k < i :: IsSpace(s[k]))
    && (forall k | i + |t| <= k < |s| :: IsSpace(s[k]))
  }

  /** `s.strip()`: the text between the leading and the trailing whitespace. */
  function Strip(s: string): (r: string)
    ensures r == "" || (!IsSpace(r[0]) && !IsSpace(r[|r| - 1]))
    ensures exists i | 0 <= i <= |s| - |r| :: PaddedAt(s, r, i)
  {
    var l := LStrip(s);
    var r := RStrip(l);
    assert PaddedAt(s, r, |s| - |l|);
    r
  }

  lemma {:induction false} StripEmpty(s: string)
    ensures Strip(s) == "" <==> forall k | 0 <= k < |s| :: IsSpace(s[k])
  {
    var l := LStrip(s);
    if l != "" {
      var r := RStrip(l);
      assert !IsSpace(l[0]);
      assert r != "";
      assert s[|s| - |l|] == l[0];
    }
  }

  /** A string whose ends are not whitespace is its own strip. */
  lemma StripNoEnds(s: string)
    requires s == "" || (!IsSpace(s[0]) && !IsSpace(s[|s| - 1]))
    ensures Strip(s) == s
  {
  }

  function TakeWord(s: string): (w: string)
    ensures w <= s && forall k | 0 <= k < |w| :: !IsSpace(w[k])
    ensures |w| == |s| || IsSpace(s[|w|])
  {
    if s == "" || IsSpace(s[0]) then "" else [s[0]] + TakeWord(s[1..])
  }

  /** `t` sits at index `i` of `s` with only whitespace before it, and whitespace or the
      end of `s` right after it. */
  predicate LeadsAt(s: string, t: string, i: int) {
    && MatchAt(s, t, i)
    && (forall k | 0 <= k < i :: IsSpace(s[k]))
    && (i + |t| == |s| || IsSpace(s[i + |t|]))
  }

  /** `s.split()[0]`: the first whitespace-separated token; `None` where Python raises
      IndexError because there is no token. */
  function FirstToken(s: string): (r: Option<string>)
    ensures r.None? <==> forall k | 0 <= k < |s| :: IsSpace(s[k])
    ensures r.Some? ==> r.value != "" && forall k | 0 <= k < |r.value| :: !IsSpace(r.value[k])
    ensures r.Some? ==> exists i | 0 <= i <= |s| - |r.value| :: LeadsAt(s, r.value, i)
  {
    var l := LStrip(s);
    if l == "" then None
    else
      assert !IsSpace(s[|s| - |l|]);
      var w := TakeWord(l);
      LeadingWord(s, l, w);
      Some(w)
  }

  /** The first word of the text after the leading whitespace leads `s`. */
  lemma LeadingWord(s: string, l: string, w: string)
    requires |l| <= |s| && l == s[|s| - |l|..]
    requires forall k | 0 <= k < |s| - |l| :: IsSpace(s[k])
    requires w <= l && (|w| == |l| || IsSpace(l[|w|]))
    ensures LeadsAt(s, w, |s| - |l|)
  {
    var i := |s| - |l|;
    assert s[i..i + |w|] == l[..|w|];
    if |w| < |l| {
      assert s[i + |w|] == l[|w|];
    }
  }

  /** A token is its own strip, so `int` sees it exactly as `split()` produced it. */
  lemma TokenUnpadded(s: string)
    requires FirstToken(s).Some?
    ensures Strip(FirstToken(s).value) == FirstToken(s).value
  {
    var t := FirstToken(s).value;
    assert !IsSpace(t[0]) && !IsSpace(t[|t| - 1]);
    StripNoEnds(t);
  }

  lemma {:induction false} TakeWordBeforeSpace(w: string, rest: string)
    requires forall k | 0 <= k < |w| :: !IsSpace(w[k])
    requires rest != "" && IsSpace(rest[0])
    ensures TakeWord(w + rest) == w
  {
    if w != "" {
      assert (w + rest)[1..] == w[1..] + rest;
      TakeWordBeforeSpace(w[1..], rest);
    }
  }

  /** The first token of a word followed by whitespace is that word. */
  lemma TokenBeforeSpace(w: string, rest: string)
    requires w != "" && forall k | 0 <= k < |w| :: !IsSpace(w[k])
    requires rest != "" && IsSpace(rest[0])
    ensures FirstToken(w + rest) == Some(w)
  {
    assert (w + rest)[0] == w[0];
    TakeWordBeforeSpace(w, rest);
  }

  // ---------------------------------------------------------------------------
  // `s.upper()` on ASCII letters

  function UpperChar(ch: char): char {
    if 'a' <= ch <= 'z' then (ch as int - 32) as char else ch
  }

  function Upper(s: string): (r: string)
    ensures |r| == |s| && forall k | 0 <= k < |s| :: r[k] == UpperChar(s[k])
  {
    if s == "" then "" else [UpperChar(s[0])] + Upper(s[1..])
  }

  // ---------------------------------------------------------------------------
  // Digits, `str(n)` and `int(s)`

  predicate IsDigit(ch: char) { '0' <= ch <= '9' }

  function DigitChar(d: nat): (ch: char)
    requires d < 10
    ensures IsDigit(ch)
  {
    ('0' as int + d) as char
  }

  function DigitValue(ch: char): nat
    requires IsDigit(ch)
  {
    ch as int - '0' as int
  }

  function NatToString(n: nat): (s: string)
    ensures s != "" && forall k | 0 <= k < |s| :: IsDigit(s[k])
  {
    if n < 10 then [DigitChar(n)] else NatToString(n / 10) + [DigitChar(n % 10)]
  }

  /** `str(n)` for an `int`. */
  function IntToString(n: int): string {
    if n < 0 then "-" + NatToString(-n) else NatToString(n)
  }

  function DigitsValue(s: string): nat
    requires forall k | 0 <= k < |s| :: IsDigit(s[k])
  {
    if s == "" then 0 else 10 * DigitsValue(s[..|s| - 1]) + DigitValue(s[|s| - 1])
  }

  /** Digits in which single underscores may separate two digits, as `int()` accepts:
      digits at both ends, only digits and underscores between, never two underscores
      in a row. */
  predicate DigitGroups(s: string) {
    && s != "" && IsDigit(s[0]) && IsDigit(s[|s| - 1])
    && (forall k | 0 <= k < |s| :: IsDigit(s[k]) || s[k] == '_')
    && (forall i, j | 0 <= i < |s| && 0 <= j < |s| && j == i + 1 :: IsDigit(s[i]) || IsDigit(s[j]))
  }

  function DropUnderscores(s: string): (r: string)
    ensures |r| <= |s|
    ensures (forall k | 0 <= k < |s| :: IsDigit(s[k]) || s[k] == '_') ==>
      forall k | 0 <= k < |r| :: IsDigit(r[k])
    ensures (forall k | 0 <= k < |s| :: s[k] != '_') ==> r == s
  {
    if s == "" then "" else (if s[0] == '_' then "" else [s[0]]) + DropUnderscores(s[1..])
  }

  function ParseDigits(s: string): Option<nat> {
    if DigitGroups(s) then Some(DigitsValue(DropUnderscores(s))) else None
  }

  /** `int(t)` for a token `t` as `split()` yields it, so without surrounding whitespace
      (see `TokenUnpadded`): an optional sign and ASCII digit groups; `None` where Python
      raises ValueError. */
  function ParseInt(t: string): Option<int> {
    if t == "" then None
    else if t[0] == '-' then
      var v := ParseDigits(t[1..]);
      if v.Some? then Some(-(v.value as int)) else None
    else if t[0] == '+' then
      var v := ParseDigits(t[1..]);
      if v.Some? then Some(v.value as int) else None
    else
      var v := ParseDigits(t);
      if v.Some? then Some(v.value as int) else None
  }

  lemma {:induction false} DigitsRoundTrip(n: nat)
    ensures DigitsValue(NatToString(n)) == n
  {
    if n >= 10 {
      DigitsRoundTrip(n / 10);
      var s := NatToString(n);
      assert s[..|s| - 1] == NatToString(n / 10);
    }
  }

  /** A digit string parses to its value. */
  lemma DigitsParse(n: nat)
    ensures ParseDigits(NatToString(n)) == Some(n)
  {
    var digits := NatToString(n);
    assert DigitGroups(digits);
    DigitsRoundTrip(n);
  }

  /** A digit string without a sign parses to its value. */
  lemma UnsignedRoundTrip(n: nat)
    ensures ParseInt(NatToString(n)) == Some(n)
  {
    var digits := NatToString(n);
    assert IsDigit(digits[0]);
    DigitsParse(n);
  }

  /** A minus sign before a digit string negates its value. */
  lemma NegativeRoundTrip(n: nat)
    ensures ParseInt("-" + NatToString(n)) == Some(-(n as int))
  {
    var digits := NatToString(n);
    assert ("-" + digits)[1..] == digits;
    DigitsParse(n);
  }

  /** `int(str(n)) == n`. */
  lemma IntRoundTrip(n: int)
    ensures ParseInt(IntToString(n)) == Some(n)
  {
    if n < 0 {
      NegativeRoundTrip(-n);
      assert IntToString(n) == "-" + NatToString(-n);
    } else {
      UnsignedRoundTrip(n);
      assert IntToString(n) == NatToString(n);
    }
  }

  // ---------------------------------------------------------------------------
  // `s.replace(pat, repl)`

  /** Leftmost, non-overlapping replacement of a non-empty `pat`. */
  function ReplaceNonEmpty(s: string, pat: string, repl: string): string
    requires pat != ""
    decreases |s|
  {
    if |s| < |pat| then s
    else if s[..|pat|] == pat then repl + ReplaceNonEmpty(s[|pat|..], pat, repl)
    else [s[0]] + ReplaceNonEmpty(s[1..], pat, repl)
  }

  /** Python inserts `repl` before every character and at the end when `pat` is empty. */
  function InsertEverywhere(s: string, repl: string): string {
    if s == "" then repl else repl + [s[0]] + InsertEverywhere(s[1..], repl)
  }

  function Replace(s: string, pat: string, repl: string): string {
    if pat == "" then InsertEverywhere(s, repl) else ReplaceNonEmpty(s, pat, repl)
  }

  /** Positions before the first match are copied unchanged. */
  lemma {:induction false} ReplaceSkipsPrefix(s: string, pat: string, repl: string, i: int)
    requires pat != "" && 0 <= i <= |s|
    requires forall j | 0 <= j < i :: !MatchAt(s, pat, j)
    ensures ReplaceNonEmpty(s, pat, repl) == s[..i] + ReplaceNonEmpty(s[i..], pat, repl)
    decreases i
  {
    if i > 0 && |s| >= |pat| {
      assert !MatchAt(s, pat, 0);
      assert s[..|pat|] != pat;
      NoMatchShifts(s, pat, i);
      ReplaceSkipsPrefix(s[1..], pat, repl, i - 1);
      assert s[1..][i - 1..] == s[i..];
      assert [s[0]] + s[1..][..i - 1] == s[..i];
    } else if i > 0 {
      assert s[..i] + s[i..] == s;
    }
  }

  /** No match before `i` in `s` means no match before `i - 1` in its tail. */
  lemma NoMatchShifts(s: string, pat: string, i: int)
    requires 0 < i <= |s|
    requires forall j | 0 <= j < i :: !MatchAt(s, pat, j)
    ensures forall j | 0 <= j < i - 1 :: !MatchAt(s[1..], pat, j)
  {
    forall j | 0 <= j < i - 1 ensures !MatchAt(s[1..], pat, j) {
      assert !MatchAt(s, pat, j + 1);
      if j + 1 + |pat| <= |s| {
        assert s[1..][j..j + |pat|] == s[j + 1..j + 1 + |pat|];
      }
    }
  }

  lemma {:induction false} FirstMatch(s: string, pat: string, n: int) returns (j: int)
    requires exists k | 0 <= k < n :: MatchAt(s, pat, k)
    ensures 0 <= j < n && MatchAt(s, pat, j)
    ensures forall k | 0 <= k < j :: !MatchAt(s, pat, k)
  {
    if exists k | 0 <= k < n - 1 :: MatchAt(s, pat, k) {
      j := FirstMatch(s, pat, n - 1);
    } else {
      j := n - 1;
    }
  }

  /** Replacing a key by a non-empty text that shares no character with it leaves no
      occurrence of the key: a new occurrence can neither overlap the inserted text
      nor lie wholly in copied text, where the leftmost scan would have found it. */
  lemma {:induction false} ReplaceLeavesNoOccurrence(s: string, pat: string, repl: string)
    requires pat != "" && repl != ""
    requires forall k | 0 <= k < |pat| :: pat[k] !in repl
    ensures !Contains(ReplaceNonEmpty(s, pat, repl), pat)
    decreases |s|
  {
    var r := ReplaceNonEmpty(s, pat, repl);
    if |s| < |pat| {
      assert r == s;
    } else if s[..|pat|] == pat {
      var rest := ReplaceNonEmpty(s[|pat|..], pat, repl);
      ReplaceLeavesNoOccurrence(s[|pat|..], pat, repl);
      assert r == repl + rest;
      forall p | 0 <= p <= |r| - |pat| ensures !MatchAt(r, pat, p) {
        if p < |repl| {
          // the occurrence would begin inside the inserted text
          assert r[p] == repl[p] && pat[0] !in repl;
        } else {
          assert r[p..p + |pat|] == rest[p - |repl|..p - |repl| + |pat|];
          assert !MatchAt(rest, pat, p - |repl|);
        }
      }
    } else {
      var rest := ReplaceNonEmpty(s[1..], pat, repl);
      ReplaceLeavesNoOccurrence(s[1..], pat, repl);
      assert r == [s[0]] + rest;
      forall p | 0 <= p <= |r| - |pat| ensures !MatchAt(r, pat, p) {
        if p > 0 {
          assert r[p..p + |pat|] == rest[p - 1..p - 1 + |pat|];
          assert !MatchAt(rest, pat, p - 1);
        } else {
          NoMatchAtStart(s, pat, repl);
        }
      }
    }
  }

  /** The case of the proof above where the occurrence would start at the first copied character. */
  lemma {:induction false} NoMatchAtStart(s: string, pat: string, repl: string)
    requires pat != "" && repl != "" && |s| >= |pat| && s[..|pat|] != pat
    requires forall k | 0 <= k < |pat| :: pat[k] !in repl
    ensures !MatchAt(ReplaceNonEmpty(s, pat, repl), pat, 0)
  {
    var r := ReplaceNonEmpty(s, pat, repl);
    if exists k | 0 <= k < |pat| :: MatchAt(s, pat, k) {
      // the first match lies inside the first |pat| characters: there r shows repl[0],
      // which no character of pat equals
      var j := FirstMatch(s, pat, |pat|);
      ReplaceSkipsPrefix(s, pat, repl, j);
      assert s[j..][..|pat|] == pat;
      var tail := ReplaceNonEmpty(s[j..], pat, repl);
      assert tail == repl + ReplaceNonEmpty(s[j..][|pat|..], pat, repl);
      assert r == s[..j] + tail;
      assert r[j] == repl[0] && pat[j] !in repl;
    } else {
      ReplaceSkipsPrefix(s, pat, repl, |pat|);
      assert r[..|pat|] == s[..|pat|];
    }
  }

  /** A string without an occurrence of `pat` is left as it is. */
  lemma ReplaceWithoutOccurrence(s: string, pat: string, repl: string)
    requires pat != "" && !Contains(s, pat)
    ensures Replace(s, pat, repl) == s
  {
    forall j | 0 <= j < |s| ensures !MatchAt(s, pat, j) {
      if MatchAt(s, pat, j) { ContainsWitness(s, pat, j); }
    }
    ReplaceSkipsPrefix(s, pat, repl, |s|);
    assert s[..|s|] == s;
  }

  // ---------------------------------------------------------------------------
  // The ordering of `sorted()` on strings: lexicographic by code point

  predicate LexLe(a: string, b: string) {
    a == "" || (b != "" && (a[0] < b[0] || (a[0] == b[0] && LexLe(a[1..], b[1..]))))
  }

  lemma {:induction false} LexTotal(a: string, b: string)
    ensures LexLe(a, b) || LexLe(b, a)
  {
    if a != "" && b != "" && a[0] == b[0] {
      LexTotal(a[1..], b[1..]);
    }
  }

  lemma {:induction false} LexAntisymmetric(a: string, b: string)
    requires LexLe(a, b) && LexLe(b, a)
    ensures a == b
  {
    if a != "" && b != "" {
      LexAntisymmetric(a[1..], b[1..]);
      assert a == [a[0]] + a[1..] && b == [b[0]] + b[1..];
    }
  }

  predicate Sorted(s: seq<string>) {
    forall i | 0 < i < |s| :: LexLe(s[i - 1], s[i])
  }

  function Insert(x: string, s: seq<string>): (r: seq<string>)
    requires Sorted(s)
    ensures Sorted(r) && multiset(r) == multiset(s) + multiset{x}
    ensures |r| > 0 && (r[0] == x || (|s| > 0 && r[0] == s[0]))
  {
    if s == [] || LexLe(x, s[0]) then [x] + s
    else
      LexTotal(x, s[0]);
      var tail := Insert(x, s[1..]);
      assert s == [s[0]] + s[1..];
      [s[0]] + tail
  }

  /** `sorted(xs)` on strings. */
  function Sort(s: seq<string>): (r: seq<string>)
    ensures Sorted(r) && multiset(r) == multiset(s)
  {
    if s == [] then []
    else
      assert s == [s[0]] + s[1..];
      Insert(s[0], Sort(s[1..]))
  }
}
