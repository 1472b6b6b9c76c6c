/** Python string semantics used throughout the analyst, restricted to ASCII:
    character classes, lower-casing, `in`, `strip()`, `split()`, `split(sep)`,
    `sep.join(...)`, maximal regex runs, slicing and integer formatting. */
module PyStrings {

  datatype Option<T> = None | Some(value: T)

  /** `d.get(key, default)`: the stored value, or the default when the key is absent. */
  function GetOr<T>(v: Option<T>, default: T): (r: T)
    ensures v.Some? ==> r == v.value
    ensures v.None? ==> r == default
  {
    match v
    case Some(x) => x
    case None => default
  }

  /** `d.get(k)` on a dict literal, written as its (key, value) pairs in insertion order. */
  function Lookup<K(==), V>(table: seq<(K, V)>, k: K): (r: Option<V>)
    ensures r.None? <==> forall i :: 0 <= i < |table| ==> table[i].0 != k
    ensures r.Some? ==> exists i :: 0 <= i < |table| && table[i] == (k, r.value)
  {
    if table == [] then None
    else if table[0].0 == k then Some(table[0].1)
    else Lookup(table[1..], k)
  }

  /** With pairwise distinct keys, the value stored under the key at index `i`. */
  lemma LookupAt<K, V>(table: seq<(K, V)>, i: nat)
    requires i < |table|
    requires forall a, b :: 0 <= a < b < |table| ==> table[a].0 != table[b].0
    ensures Lookup(table, table[i].0) == Some(table[i].1)
  {
    var r := Lookup(table, table[i].0);
    var j :| 0 <= j < |table| && table[j] == (table[i].0, r.value);
    assert j == i;
  }

  /** A subset is no larger than its superset, and only as large when the two are equal. */
  lemma {:induction false} SubsetCard<T>(s: set<T>, t: set<T>)
    requires s <= t
    ensures |s| <= |t|
    ensures |s| == |t| ==> s == t
    decreases |t|
  {
    if t != {} {
      var x :| x in t;
      SubsetCard(s - {x}, t - {x});
      if x in s {
        assert s == (s - {x}) + {x};
        assert t == (t - {x}) + {x};
      } else {
        assert s - {x} == s;
      }
    }
  }
  /** The keys of a dict literal, in order. */
  function KeysOf<K, V>(table: seq<(K, V)>): (r: seq<K>)
    ensures |r| == |table| && forall i :: 0 <= i < |r| ==> r[i] == table[i].0
  {
    seq(|table|, i requires 0 <= i < |table| => table[i].0)
  }

  /** The Python exceptions the modelled code can raise. */
  datatype PyError = ZeroDivisionError | AttributeError | TypeError | KeyError

  /** A value, or the exception raised instead. */
  datatype Result<T> = Ok(value: T) | Raises(error: PyError) {
    /** With these three members `var x :- e;` propagates a raised exception. */
    predicate IsFailure() { Raises? }
    function PropagateFailure<U>(): Result<U>
      requires Raises?
    {
      Raises(error)
    }
    function Extract(): T
      requires Ok?
    {
      value
    }
  }

  // ---------------------------------------------------------------------------
  // Character classes

  /** Whitespace as `str.isspace()`, `str.split()`, `str.strip()` and regex `\s` see it,
      restricted to ASCII: the six usual separators and the information separators
      U+001C to U+001F. */
  predicate IsSpace(c: char) {
    c == ' ' || c == '\t' || c == '\n' || c == '\r' || c == '\U{000B}' || c == '\U{000C}'
    || c == '\U{001C}' || c == '\U{001D}' || c == '\U{001E}' || c == '\U{001F}'
  }
  predicate NotSpace(c: char) { !IsSpace(c) }
  predicate IsUpper(c: char) { 'A' <= c <= 'Z' }
  predicate IsLower(c: char) { 'a' <= c <= 'z' }
  predicate IsLetter(c: char) { IsUpper(c) || IsLower(c) }
  predicate IsDigit(c: char) { '0' <= c <= '9' }
  predicate IsAlnum(c: char) { IsLetter(c) || IsDigit(c) }
  /** Regex `\w`: letters, digits and the underscore. */
  predicate IsWordChar(c: char) { IsAlnum(c) || c == '_' }

  function LowerChar(c: char): (r: char)
    ensures !IsUpper(r)
    ensures IsLetter(c) <==> IsLetter(r)
    ensures IsWordChar(c) <==> IsWordChar(r)
    ensures IsSpace(c) <==> IsSpace(r)
  {
    if IsUpper(c) then (c as int + 32) as char else c
  }

  /** `s.lower()`. */
  function Lower(s: string): (r: string)
    ensures |r| == |s|
    ensures forall i :: 0 <= i < |s| ==> r[i] == LowerChar(s[i])
  {
    if s == [] then [] else [LowerChar(s[0])] + Lower(s[1..])
  }

  /** `[w.lower() for w in ws]`. */
  function LowerEach(ws: seq<string>): (r: seq<string>)
    ensures |r| == |ws| && forall i :: 0 <= i < |ws| ==> r[i] == Lower(ws[i])
  {
    seq(|ws|, i requires 0 <= i < |ws| => Lower(ws[i]))
  }

  lemma LowerIdempotent(s: string)
    ensures Lower(Lower(s)) == Lower(s)
  {
    assert forall i :: 0 <= i < |s| ==> LowerChar(LowerChar(s[i])) == LowerChar(s[i]);
  }

  lemma LowerConcat(a: string, b: string)
    ensures Lower(a + b) == Lower(a) + Lower(b)
  {
    assert forall i :: 0 <= i < |a + b| ==> Lower(a + b)[i] == (Lower(a) + Lower(b))[i];
  }

  /** Lower-casing a joined text lower-cases each piece; the separator holds no
      upper-case letter. */
  lemma LowerJoin(ws: seq<string>, sep: string)
    requires forall i :: 0 <= i < |sep| ==> !IsUpper(sep[i])
    ensures Lower(Join(ws, sep)) == Join(LowerEach(ws), sep)
  {
    if |ws| > 1 {
      LowerJoin(ws[1..], sep);
      LowerConcat(ws[0] + sep, Join(ws[1..], sep));
      LowerConcat(ws[0], sep);
      LowerOfLowerCase(sep);
      assert LowerEach(ws)[1..] == LowerEach(ws[1..]);
    }
  }

  /** A text with no upper-case letter is its own lower-case form. */
  lemma LowerOfLowerCase(s: string)
    requires forall i :: 0 <= i < |s| ==> !IsUpper(s[i])
    ensures Lower(s) == s
  {
  }

  function UpperChar(c: char): (r: char)
    ensures !IsLower(r)
    ensures IsLetter(c) <==> IsLetter(r)
    ensures LowerChar(r) == LowerChar(c)
  {
    if IsLower(c) then (c as int - 32) as char else c
  }

  /** The character `s.title()` puts at position `i`. */
  function TitleChar(s: string, i: nat): char
    requires i < |s|
  {
    if i == 0 || !IsLetter(s[i - 1]) then UpperChar(s[i]) else LowerChar(s[i])
  }

  /** `s.title()`: a letter is upper-cased when it starts a run of letters and
      lower-cased inside one. */
  function Title(s: string): (r: string)
    ensures |r| == |s|
    ensures Lower(r) == Lower(s)
    ensures (exists i :: 0 <= i < |s| && IsLetter(s[i])) ==> PyIsTitle(r)
  {
    var r := seq(|s|, i requires 0 <= i < |s| => TitleChar(s, i));
    TitleLower(s, r);
    TitleIsTitle(s, r);
    r
  }

  /** Title-casing changes only the case of letters. */
  lemma TitleLower(s: string, r: string)
    requires |r| == |s| && forall i :: 0 <= i < |s| ==> r[i] == TitleChar(s, i)
    ensures Lower(r) == Lower(s)
  {
    forall i | 0 <= i < |s|
      ensures Lower(r)[i] == Lower(s)[i]
    {
      assert LowerChar(r[i]) == LowerChar(s[i]);
    }
  }

  /** A title-cased text with a letter in it passes `istitle()`. */
  lemma TitleIsTitle(s: string, r: string)
    requires |r| == |s| && forall i :: 0 <= i < |s| ==> r[i] == TitleChar(s, i)
    ensures (exists i :: 0 <= i < |s| && IsLetter(s[i])) ==> PyIsTitle(r)
  {
    forall i | 0 <= i < |s|
      ensures IsLetter(r[i]) <==> IsLetter(s[i])
    {
      assert r[i] == TitleChar(s, i);
    }
    if exists i :: 0 <= i < |s| && IsLetter(s[i]) {
      var k :| 0 <= k < |s| && IsLetter(s[k]);
      assert IsLetter(r[k]);
    }
    forall i | 0 <= i < |r| && IsUpper(r[i])
      ensures i == 0 || !IsLetter(r[i - 1])
    {
      assert r[i] == TitleChar(s, i);
    }
    forall i | 0 <= i < |r| && IsLower(r[i])
      ensures i > 0 && IsLetter(r[i - 1])
    {
      assert r[i] == TitleChar(s, i);
    }
  }

  /** Python `str.isupper()`: at least one cased character and no lower-case one. */
  predicate PyIsUpper(s: string) {
    (exists i :: 0 <= i < |s| && IsUpper(s[i])) && forall i :: 0 <= i < |s| ==> !IsLower(s[i])
  }

  /** Python `str.istitle()`: at least one cased character, upper-case letters only
      after uncased characters and lower-case letters only after cased ones. */
  predicate PyIsTitle(s: string) {
    && (exists i :: 0 <= i < |s| && IsLetter(s[i]))
    && (forall i :: 0 <= i < |s| && IsUpper(s[i]) ==> i == 0 || !IsLetter(s[i - 1]))
    && (forall i :: 0 <= i < |s| && IsLower(s[i]) ==> i > 0 && IsLetter(s[i - 1]))
  }

  // ---------------------------------------------------------------------------
  // Substrings

  predicate StartsWith(s: string, p: string) {
    |p| <= |s| && s[..|p|] == p
  }

  /** Python `sub in s`. */
  predicate Contains(s: string, sub: string)
    decreases |s|
  {
    StartsWith(s, sub) || (|s| > 0 && Contains(s[1..], sub))
  }

  lemma ContainsAt(s: string, sub: string, i: nat)
    requires i + |sub| <= |s| && s[i..i + |sub|] == sub
    ensures Contains(s, sub)
    decreases i
  {
    if i > 0 {
      assert s[1..][i - 1..i - 1 + |sub|] == sub;
      ContainsAt(s[1..], sub, i - 1);
    }
  }

  lemma ContainsWitness(s: string, sub: string) returns (i: nat)
    requires Contains(s, sub)
    ensures i + |sub| <= |s| && s[i..i + |sub|] == sub
    decreases |s|
  {
    if StartsWith(s, sub) {
      i := 0;
    } else {
      var j := ContainsWitness(s[1..], sub);
      assert s[1..][j..j + |sub|] == s[j + 1..j + 1 + |sub|];
      i := j + 1;
    }
  }

  /** Whether any of `words` is a substring of `s` (Python `any(w in s for w in words)`). */
  predicate ContainsAny(s: string, words: seq<string>) {
    exists w :: w in words && Contains(s, w)
  }

  /** A text shorter than `sub` cannot contain it. */
  lemma ShortNoContains(s: string, sub: string)
    requires |s| < |sub|
    ensures !Contains(s, sub)
    decreases |s|
  {
    if s != [] {
      ShortNoContains(s[1..], sub);
    }
  }

  /** Index of the first of `words` that occurs in `s`, or `|words|`. */
  function FirstContained(s: string, words: seq<string>): (k: nat)
    ensures k <= |words|
    ensures k < |words| ==> Contains(s, words[k])
    ensures forall j :: 0 <= j < k ==> !Contains(s, words[j])
  {
    if words == [] then 0
    else if Contains(s, words[0]) then 0
    else 1 + FirstContained(s, words[1..])
  }

  lemma FirstContainedIffAny(s: string, words: seq<string>)
    ensures FirstContained(s, words) < |words| <==> ContainsAny(s, words)
  {
    var k := FirstContained(s, words);
    if ContainsAny(s, words) {
      var w :| w in words && Contains(s, w);
      var j :| 0 <= j < |words| && words[j] == w;
    }
  }

  /** Index of the first group of `rules` with a member occurring in `s`, or `|rules|` when
      none has: the branch an `if any(..) elif any(..) else` chain of substring tests takes. */
  function FirstRule(s: string, rules: seq<seq<string>>): (k: nat)
    ensures k <= |rules|
    ensures k < |rules| ==> ContainsAny(s, rules[k])
    ensures forall j :: 0 <= j < k ==> !ContainsAny(s, rules[j])
  {
    if rules == [] then 0
    else if ContainsAny(s, rules[0]) then 0
    else 1 + FirstRule(s, rules[1..])
  }

  /** The first matching rule among three, spelled out. */
  lemma FirstRuleOfThree(s: string, r0: seq<string>, r1: seq<string>, r2: seq<string>)
    ensures FirstRule(s, [r0, r1, r2]) ==
      if ContainsAny(s, r0) then 0 else if ContainsAny(s, r1) then 1 else if ContainsAny(s, r2) then 2 else 3
  {
    var rules := [r0, r1, r2];
    assert rules[1..] == [r1, r2] && [r1, r2][1..] == [r2] && [r2][1..] == [];
    assert FirstRule(s, [r2]) == if ContainsAny(s, r2) then 0 else 1;
    assert FirstRule(s, [r1, r2]) == if ContainsAny(s, r1) then 0 else 1 + FirstRule(s, [r2]);
  }

  /** The first matching rule among five, spelled out. */
  lemma FirstRuleOfFive(s: string, r0: seq<string>, r1: seq<string>, r2: seq<string>,
                        r3: seq<string>, r4: seq<string>)
    ensures FirstRule(s, [r0, r1, r2, r3, r4]) ==
      if ContainsAny(s, r0) then 0 else if ContainsAny(s, r1) then 1
      else if ContainsAny(s, r2) then 2 else if ContainsAny(s, r3) then 3
      else if ContainsAny(s, r4) then 4 else 5
  {
    var rules := [r0, r1, r2, r3, r4];
    FirstRuleOfThree(s, r2, r3, r4);
    assert rules[1..] == [r1, r2, r3, r4] && [r1, r2, r3, r4][1..] == [r2, r3, r4];
    assert FirstRule(s, [r1, r2, r3, r4]) == if ContainsAny(s, r1) then 0 else 1 + FirstRule(s, [r2, r3, r4]);
  }

  /** Every character of `sub` occurs in a text that matches `sub` somewhere. */
  lemma MatchChars(s: string, sub: string, j: int)
    ensures MatchAt(s, sub, j) ==> forall k :: 0 <= k < |sub| ==> sub[k] in s
  {
    if MatchAt(s, sub, j) {
      forall k | 0 <= k < |sub|
        ensures sub[k] in s
      {
        assert s[j..j + |sub|][k] == s[j + k];
      }
    }
  }

  /** A text lacking one of the characters of `sub` does not contain `sub`. */
  lemma MissingCharNoContains(s: string, sub: string, c: char)
    requires c in sub && c !in s
    ensures !Contains(s, sub)
  {
    ContainsIffMatch(s, sub);
    forall j
      ensures !MatchAt(s, sub, j)
    {
      MatchChars(s, sub, j);
    }
  }

  /** The lower-cased text lacks `c` when the text has neither `c` nor its upper-case form,
      and then it does not contain any `sub` holding `c`. */
  lemma MissingCharNoContainsLower(s: string, sub: string, c: char)
    requires c in sub && c !in s && UpperChar(c) !in s
    ensures !Contains(Lower(s), sub)
  {
    forall i | 0 <= i < |s|
      ensures Lower(s)[i] != c
    {
    }
    MissingCharNoContains(Lower(s), sub, c);
  }

  lemma ContainsAnyOne(s: string, a: string)
    ensures ContainsAny(s, [a]) <==> Contains(s, a)
  {
    if Contains(s, a) { assert a in [a]; }
  }

  lemma ContainsAnyTwo(s: string, a: string, b: string)
    ensures ContainsAny(s, [a, b]) <==> Contains(s, a) || Contains(s, b)
  {
    if Contains(s, a) { assert a in [a, b]; }
    if Contains(s, b) { assert b in [a, b]; }
  }

  lemma ContainsAnyThree(s: string, a: string, b: string, c: string)
    ensures ContainsAny(s, [a, b, c]) <==> Contains(s, a) || Contains(s, b) || Contains(s, c)
  {
    if Contains(s, a) { assert a in [a, b, c]; }
    if Contains(s, b) { assert b in [a, b, c]; }
    if Contains(s, c) { assert c in [a, b, c]; }
  }

  /** `sub` occurs in `s` starting at index `j`. */
  predicate MatchAt(s: string, sub: string, j: int) {
    0 <= j && j + |sub| <= |s| && s[j..j + |sub|] == sub
  }

  lemma ContainsIffMatch(s: string, sub: string)
    ensures Contains(s, sub) <==> exists j :: MatchAt(s, sub, j)
  {
    if Contains(s, sub) {
      var j := ContainsWitness(s, sub);
      assert MatchAt(s, sub, j);
    }
    if exists j :: MatchAt(s, sub, j) {
      var j :| MatchAt(s, sub, j);
      ContainsAt(s, sub, j);
    }
  }

  /** `s.find(sep, k)`: the first index at or after `k` where `sep` occurs, or -1. */
  function FindFrom(s: string, sep: string, k: nat): (i: int)
    requires k <= |s|
    ensures i == -1 || (k <= i && MatchAt(s, sep, i))
    decreases |s| - k
  {
    if k + |sep| > |s| then -1
    else if s[k..k + |sep|] == sep then k
    else FindFrom(s, sep, k + 1)
  }

  /** The match `FindFrom` returns is the first one from `k` on, and -1 means none. */
  lemma {:induction false} FindFromFirst(s: string, sep: string, k: nat)
    requires k <= |s|
    ensures var i := FindFrom(s, sep, k);
      forall j :: k <= j && (i == -1 || j < i) ==> !MatchAt(s, sep, j)
    decreases |s| - k
  {
    if k + |sep| <= |s| && s[k..k + |sep|] != sep {
      FindFromFirst(s, sep, k + 1);
    }
  }

  // ---------------------------------------------------------------------------
  // strip()

  function LStrip(s: string): (r: string)
    ensures |r| <= |s| && r == s[|s| - |r|..]
    ensures r == [] || !IsSpace(r[0])
    ensures forall i :: 0 <= i < |s| - |r| ==> IsSpace(s[i])
  {
    if s != [] && IsSpace(s[0]) then
      var t := s[1..];
      var r := LStrip(t);
      assert forall i :: 1 <= i < |s| ==> s[i] == t[i - 1];
      assert t[|t| - |r|..] == s[|s| - |r|..];
      r
    else s
  }

  function RStrip(s: string): (r: string)
    ensures |r| <= |s| && r == s[..|r|]
    ensures r == [] || !IsSpace(r[|r| - 1])
    ensures forall i :: |r| <= i < |s| ==> IsSpace(s[i])
  {
    if s != [] && IsSpace(s[|s| - 1]) then
      var r := RStrip(s[..|s| - 1]);
      assert s[..|s| - 1][..|r|] == s[..|r|];
      r
    else s
  }

  /** `s.strip()`. */
  function Strip(s: string): (r: string)
    ensures |r| <= |s|
    ensures r == [] || (!IsSpace(r[0]) && !IsSpace(r[|r| - 1]))
  {
    RStrip(LStrip(s))
  }

  /** The stripped text is a slice of the original. */
  lemma StripIsSlice(s: string) returns (a: nat)
    ensures a + |Strip(s)| <= |s| && Strip(s) == s[a..a + |Strip(s)|]
  {
    var l := LStrip(s);
    a := |s| - |l|;
    assert Strip(s) == l[..|Strip(s)|];
  }

  /** Stripping introduces no character. */
  lemma StripChars(s: string)
    ensures forall c <- Strip(s) :: c in s
  {
    var a := StripIsSlice(s);
    forall c <- Strip(s) ensures c in s {
      var i :| 0 <= i < |Strip(s)| && Strip(s)[i] == c;
      assert s[a + i] == c;
    }
  }

  /** `s.replace(c, '')` for a single character `c`. */
  function RemoveChar(s: string, c: char): (r: string)
    ensures |r| <= |s| && c !in r
    ensures forall x <- r :: x in s
    ensures c !in s ==> r == s
  {
    if s == [] then []
    else (if s[0] == c then [] else [s[0]]) + RemoveChar(s[1..], c)
  }

  /** What occurs in the tail of a text occurs in the text. */
  lemma ContainsInTail(s: string, tail: string, sub: string)
    requires |tail| <= |s| && s[|s| - |tail|..] == tail && Contains(tail, sub)
    ensures Contains(s, sub)
  {
    assert s[|s| - |tail|..|s|] == tail;
    ContainsOfSlice(s, |s| - |tail|, |s|, sub);
  }

  /** What occurs in a slice occurs in the whole text. */
  lemma ContainsOfSlice(s: string, a: nat, b: nat, sub: string)
    requires a <= b <= |s| && Contains(s[a..b], sub)
    ensures Contains(s, sub)
  {
    var i := ContainsWitness(s[a..b], sub);
    forall k | 0 <= k < |sub|
      ensures s[a + i..a + i + |sub|][k] == sub[k]
    {
      assert sub[k] == s[a..b][i + k];
    }
    assert s[a + i..a + i + |sub|] == sub;
    ContainsAt(s, sub, a + i);
  }

  predicate Trimmed(s: string) {
    s == [] || (!IsSpace(s[0]) && !IsSpace(s[|s| - 1]))
  }

  lemma StripTrimmed(s: string)
    requires Trimmed(s)
    ensures Strip(s) == s
  {
  }

  /** A string is blank when `s.strip()` is empty. */
  lemma StripEmptyIffBlank(s: string)
    ensures Strip(s) == [] <==> forall i :: 0 <= i < |s| ==> IsSpace(s[i])
  {
    var l := LStrip(s);
    if l != [] {
      assert RStrip(l) != [] by { assert !IsSpace(l[0]); }
      assert s[|s| - |l|] == l[0];
    }
  }

  // ---------------------------------------------------------------------------
  // Maximal runs: `str.split()` and `re.findall(r'\b\w+\b', s)`

  /** Every character of `w` satisfies `p`. */
  predicate All(w: string, p: char -> bool) {
    forall i :: 0 <= i < |w| ==> p(w[i])
  }

  /** Length of the longest prefix of `s` whose characters all satisfy `p`. */
  function RunLen(s: string, p: char -> bool): (k: nat)
    ensures k <= |s|
    ensures forall i :: 0 <= i < k ==> p(s[i])
    ensures k == |s| || !p(s[k])
  {
    if s == [] || !p(s[0]) then 0 else 1 + RunLen(s[1..], p)
  }

  lemma RunLenOfPrefix(w: string, rest: string, p: char -> bool)
    requires All(w, p)
    requires rest == [] || !p(rest[0])
    ensures RunLen(w + rest, p) == |w|
  {
    if w != [] {
      assert (w + rest)[1..] == w[1..] + rest;
      RunLenOfPrefix(w[1..], rest, p);
    }
  }

  lemma RunLenAtLeast(t: string, p: char -> bool, n: nat)
    requires n <= |t| && forall k :: 0 <= k < n ==> p(t[k])
    ensures RunLen(t, p) >= n
  {
    if n > 0 {
      RunLenAtLeast(t[1..], p, n - 1);
    }
  }

  /** The maximal runs of characters satisfying `p`, in order. */
  function Runs(s: string, p: char -> bool): (r: seq<string>)
    ensures forall w <- r :: w != [] && All(w, p)
    decreases |s|
  {
    if s == [] then []
    else if !p(s[0]) then Runs(s[1..], p)
    else
      var k := RunLen(s, p);
      [s[..k]] + Runs(s[k..], p)
  }

  /** `s.split()`: the maximal runs of non-whitespace. */
  function Words(s: string): (r: seq<string>)
    ensures forall w <- r :: w != [] && All(w, NotSpace)
  {
    Runs(s, NotSpace)
  }

  /** `"a\x1fb".split()` is `['a', 'b']`: the unit separator splits words. */
  lemma UnitSeparatorSplitsWords()
    ensures Words("a\U{001F}b") == ["a", "b"]
  {
    var s := "a\U{001F}b";
    assert IsSpace(s[1]) && !IsSpace(s[2]);
    assert RunLen(s, NotSpace) == 1 by { assert RunLen(s[1..], NotSpace) == 0; }
    assert s[1..][1..] == "b" && s[..1] == "a";
    assert Runs("b", NotSpace) == ["b"] by {
      var b := "b";
      assert NotSpace(b[0]) && RunLen(b, NotSpace) == 1;
      assert b[..1] == b && b[1..] == [];
      assert Runs(b[1..], NotSpace) == [];
    }
    assert Runs(s[1..], NotSpace) == Runs("b", NotSpace);
  }

  /** `re.findall(r'\b\w+\b', s)`: the maximal runs of word characters. */
  function WordRuns(s: string): (r: seq<string>)
    ensures forall w <- r :: w != [] && All(w, IsWordChar)
  {
    Runs(s, IsWordChar)
  }

  /** `sep.join(ws)`. */
  function Join(ws: seq<string>, sep: string): string
  {
    if |ws| == 0 then [] else if |ws| == 1 then ws[0] else ws[0] + sep + Join(ws[1..], sep)
  }

  lemma JoinAppend(ws: seq<string>, w: string, sep: string)
    requires ws != []
    ensures Join(ws + [w], sep) == Join(ws, sep) + sep + w
  {
    if |ws| == 1 {
      assert ws + [w] == [ws[0], w];
    } else {
      assert (ws + [w])[1..] == ws[1..] + [w];
      JoinAppend(ws[1..], w, sep);
    }
  }

  lemma JoinConcat(a: seq<string>, b: seq<string>, sep: string)
    requires a != [] && b != []
    ensures Join(a + b, sep) == Join(a, sep) + sep + Join(b, sep)
    decreases |a|
  {
    if |a| == 1 {
      assert a + b == [a[0]] + b;
    } else {
      assert (a + b)[1..] == a[1..] + b;
      JoinConcat(a[1..], b, sep);
    }
  }

  lemma JoinLength(ws: seq<string>, sep: string)
    ensures |Join(ws, sep)| >= (if ws == [] then 0 else |ws[0]|)
  {
  }

  lemma RunsOfRunJoin(ws: seq<string>, p: char -> bool, sepChar: char)
    requires !p(sepChar)
    requires forall w <- ws :: w != [] && All(w, p)
    ensures Runs(Join(ws, [sepChar]), p) == ws
  {
    if |ws| == 1 {
      RunLenOfPrefix(ws[0], [], p);
      assert ws[0] + [] == ws[0];
      assert ws[0][|ws[0]|..] == [];
    } else if |ws| > 1 {
      var s := Join(ws, [sepChar]);
      var rest := Join(ws[1..], [sepChar]);
      assert s == ws[0] + ([sepChar] + rest);
      RunLenOfPrefix(ws[0], [sepChar] + rest, p);
      assert s[..|ws[0]|] == ws[0];
      assert s[|ws[0]|..] == [sepChar] + rest;
      assert ([sepChar] + rest)[1..] == rest;
      assert forall w <- ws[1..] :: w in ws;
      RunsOfRunJoin(ws[1..], p, sepChar);
    }
  }

  /** Every word of `s.split()` is made of characters of `s`. */
  lemma RunsChars(s: string, p: char -> bool)
    ensures forall w <- Runs(s, p) :: forall c <- w :: c in s
    decreases |s|
  {
    if s != [] {
      if !p(s[0]) {
        RunsChars(s[1..], p);
      } else {
        var k := RunLen(s, p);
        RunsChars(s[k..], p);
        assert forall c <- s[..k] :: c in s;
        assert forall c <- s[k..] :: c in s;
      }
    }
  }

  // ---------------------------------------------------------------------------
  // ' '.join(s.split())

  /** `' '.join(s.split())`: whitespace runs collapsed to one space, ends trimmed. */
  function Collapse(s: string): string
  {
    Join(Words(s), " ")
  }

  /** No leading, trailing or repeated whitespace, and the only whitespace is ' '. */
  predicate Normalized(t: string) {
    forall i :: 0 <= i < |t| && IsSpace(t[i]) ==> t[i] == ' ' && 0 < i < |t| - 1 && !IsSpace(t[i + 1])
  }

  /** The joined text starts with the first piece. */
  lemma JoinHead(ws: seq<string>, sep: string)
    requires ws != []
    ensures |Join(ws, sep)| >= |ws[0]| && Join(ws, sep)[..|ws[0]|] == ws[0]
  {
    if |ws| > 1 {
      assert Join(ws, sep) == ws[0] + (sep + Join(ws[1..], sep));
    }
  }

  lemma JoinWordsNormalized(ws: seq<string>)
    requires forall w <- ws :: w != [] && All(w, NotSpace)
    ensures Normalized(Join(ws, " "))
  {
    if |ws| > 1 {
      assert forall w <- ws[1..] :: w in ws;
      JoinWordsNormalized(ws[1..]);
      assert ws[0] in ws && ws[1] in ws;
      var rest := Join(ws[1..], " ");
      var t := Join(ws, " ");
      assert t == ws[0] + " " + rest;
      JoinHead(ws[1..], " ");
      assert rest != [] && !IsSpace(rest[0]) by {
        assert rest[0] == ws[1][0];
      }
      forall i | 0 <= i < |t| && IsSpace(t[i])
        ensures t[i] == ' ' && 0 < i < |t| - 1 && !IsSpace(t[i + 1])
      {
        if i > |ws[0]| {
          assert t[i] == rest[i - |ws[0]| - 1];
        }
      }
    } else if |ws| == 1 {
      assert ws[0] in ws;
    }
  }

  lemma CollapseNormalized(s: string)
    ensures Normalized(Collapse(s))
  {
    JoinWordsNormalized(Words(s));
  }

  lemma JoinChars(ws: seq<string>, sep: string)
    ensures forall c <- Join(ws, sep) :: c in sep || exists w <- ws :: c in w
  {
    if |ws| > 1 {
      JoinChars(ws[1..], sep);
    }
  }

  /** Collapsing introduces no character other than ' '. */
  lemma CollapseChars(s: string)
    ensures forall c <- Collapse(s) :: c == ' ' || c in s
  {
    JoinChars(Words(s), " ");
    RunsChars(s, NotSpace);
  }

  lemma CollapseIdempotent(s: string)
    ensures Collapse(Collapse(s)) == Collapse(s)
  {
    RunsOfRunJoin(Words(s), NotSpace, ' ');
  }

  /** Each word plus one separator fits inside the text it came from. */
  lemma CollapseLength(s: string)
    ensures |Collapse(s)| <= |s|
    decreases |s|
  {
    if s != [] {
      if !NotSpace(s[0]) {
        CollapseLength(s[1..]);
      } else {
        var k := RunLen(s, NotSpace);
        var rest := Runs(s[k..], NotSpace);
        assert Words(s) == [s[..k]] + rest;
        if rest != [] {
          assert k < |s| && !NotSpace(s[k]);
          assert rest == Words(s[k + 1..]) by {
            assert s[k..][1..] == s[k + 1..];
          }
          CollapseLength(s[k + 1..]);
          JoinConcat([s[..k]], rest, " ");
        }
      }
    }
  }

  /** `s.split()` is empty exactly when `s` is all whitespace. */
  lemma WordsEmptyIffBlank(s: string)
    ensures Words(s) == [] <==> forall i :: 0 <= i < |s| ==> IsSpace(s[i])
    decreases |s|
  {
    if s != [] && !NotSpace(s[0]) {
      WordsEmptyIffBlank(s[1..]);
      assert forall i :: 1 <= i < |s| ==> s[i] == s[1..][i - 1];
    }
  }

  lemma CollapseEmptyIffBlank(s: string)
    ensures Collapse(s) == [] <==> Words(s) == []
  {
    var ws := Words(s);
    if ws != [] {
      assert ws[0] in ws;
      JoinHead(ws, " ");
    }
  }

  /** `''.join(ps)`. */
  function Concat(ps: seq<string>): string {
    if ps == [] then [] else ps[0] + Concat(ps[1..])
  }

  lemma ConcatAppend(ps: seq<string>, p: string)
    ensures Concat(ps + [p]) == Concat(ps) + p
  {
    if ps != [] {
      assert (ps + [p])[1..] == ps[1..] + [p];
      ConcatAppend(ps[1..], p);
    }
  }

  // ---------------------------------------------------------------------------
  // split(sep)

  /** `s.split(sep)` for a non-empty separator. */
  function SplitOn(s: string, sep: string): (r: seq<string>)
    requires |sep| > 0
    ensures |r| >= 1
    decreases |s|
  {
    var i := FindFrom(s, sep, 0);
    if i < 0 then [s] else [s[..i]] + SplitOn(s[i + |sep|..], sep)
  }

  lemma JoinSplitOn(s: string, sep: string)
    requires |sep| > 0
    ensures Join(SplitOn(s, sep), sep) == s
    decreases |s|
  {
    var i := FindFrom(s, sep, 0);
    if i >= 0 {
      var t := s[i + |sep|..];
      var rest := SplitOn(t, sep);
      JoinSplitOn(t, sep);
      calc {
        Join(SplitOn(s, sep), sep);
        { SplitOnMatch(s, sep, i); }
        Join([s[..i]] + rest, sep);
        { JoinConcat([s[..i]], rest, sep); }
        s[..i] + sep + t;
        { assert s[i..i + |sep|] == sep; }
        s[..i] + s[i..i + |sep|] + s[i + |sep|..];
        s;
      }
    }
  }

  /** Splitting a text joined on a one-character separator that no piece holds gives the
      pieces back. */
  lemma {:induction false} SplitOnJoin(ws: seq<string>, c: char)
    requires ws != [] && forall w <- ws :: c !in w
    ensures SplitOn(Join(ws, [c]), [c]) == ws
  {
    var s := Join(ws, [c]);
    var w := ws[0];
    assert w in ws;
    if |ws| == 1 {
      assert forall j :: 0 <= j < |s| ==> !MatchAt(s, [c], j) by {
        forall j | 0 <= j < |s| ensures !MatchAt(s, [c], j) {
          assert s[j..j + 1] == [s[j]];
        }
      }
      FindFromFirst(s, [c], 0);
      assert FindFrom(s, [c], 0) == -1;
    } else {
      var rest := Join(ws[1..], [c]);
      assert s == w + [c] + rest;
      assert MatchAt(s, [c], |w|) by { assert s[|w|..|w| + 1] == [c]; }
      forall j | 0 <= j < |w| ensures !MatchAt(s, [c], j) {
        assert s[j..j + 1] == [w[j]];
      }
      var i := FindFrom(s, [c], 0);
      FindFromFirst(s, [c], 0);
      assert i == |w|;
      assert s[..i] == w && s[i + 1..] == rest;
      assert forall v <- ws[1..] :: v in ws;
      SplitOnJoin(ws[1..], c);
    }
  }

  /** No piece of `s.split(sep)` contains `sep`. */
  lemma SplitOnPiecesFree(s: string, sep: string)
    requires |sep| > 0
    ensures forall w <- SplitOn(s, sep) :: !Contains(w, sep)
    decreases |s|
  {
    var i := FindFrom(s, sep, 0);
    FindFromFirst(s, sep, 0);
    if i >= 0 {
      SplitOnPiecesFree(s[i + |sep|..], sep);
      var w := s[..i];
      forall j | MatchAt(w, sep, j)
        ensures false
      {
        assert w[j..j + |sep|] == s[j..j + |sep|];
        assert MatchAt(s, sep, j);
      }
      ContainsIffMatch(w, sep);
    } else {
      ContainsIffMatch(s, sep);
    }
  }

  /** One step of `SplitOn`: the text before the first match, then the pieces of the rest. */
  lemma SplitOnMatch(s: string, sep: string, i: int)
    requires |sep| > 0 && i == FindFrom(s, sep, 0) && i >= 0
    ensures SplitOn(s, sep) == [s[..i]] + SplitOn(s[i + |sep|..], sep)
  {
  }

  /** The last piece of a split is a suffix of the text. */
  lemma LastPieceIsSuffix(s: string, sep: string)
    requires |sep| > 0
    ensures var p := SplitOn(s, sep)[|SplitOn(s, sep)| - 1];
      |p| <= |s| && s[|s| - |p|..] == p
  {
    var ps := SplitOn(s, sep);
    var a := SplitOnLastShape(s, sep);
    if |ps| > 1 {
      AroundSeparator(a, sep, ps[|ps| - 1]);
    }
  }

  /** The text is the join of its pieces: the last piece alone, or the join of the others,
      the separator and the last piece. */
  lemma SplitOnLastShape(s: string, sep: string) returns (a: string)
    requires |sep| > 0
    ensures var ps := SplitOn(s, sep); var p := ps[|ps| - 1];
      (|ps| == 1 ==> s == p) && (|ps| > 1 ==> s == a + sep + p)
  {
    var ps := SplitOn(s, sep);
    JoinSplitOn(s, sep);
    a := if |ps| > 1 then Join(ps[..|ps| - 1], sep) else "";
    JoinLast(ps, sep);
  }

  /** A join is its last piece alone, or the join of the others, the separator and the last
      piece. */
  lemma JoinLast(ps: seq<string>, sep: string)
    requires ps != []
    ensures |ps| == 1 ==> Join(ps, sep) == ps[0]
    ensures |ps| > 1 ==> Join(ps, sep) == Join(ps[..|ps| - 1], sep) + sep + ps[|ps| - 1]
  {
    if |ps| > 1 {
      assert ps == ps[..|ps| - 1] + [ps[|ps| - 1]];
      JoinAppend(ps[..|ps| - 1], ps[|ps| - 1], sep);
    }
  }

  /** In `a + sep + p` the separator matches right after `a`, and `p` is the suffix. */
  lemma AroundSeparator(a: string, sep: string, p: string)
    ensures var s := a + sep + p;
      MatchAt(s, sep, |a|) && |s| - |p| - |sep| == |a| && s[|s| - |p|..] == p
  {
    var s := a + sep + p;
    assert s[|a|..|a| + |sep|] == sep;
    assert s[|s| - |p|..] == p;
  }

  /** The last piece of a split is a suffix of the text free of the separator. */
  lemma LastPiece(s: string, sep: string)
    requires |sep| > 0
    ensures var p := Last(SplitOn(s, sep));
      |p| <= |s| && s[|s| - |p|..] == p && !Contains(p, sep)
  {
    LastPieceIsSuffix(s, sep);
    SplitOnPiecesFree(s, sep);
    assert Last(SplitOn(s, sep)) in SplitOn(s, sep);
  }

  /** Unless the text holds no separator, its last piece follows an occurrence of it. */
  lemma LastPieceAfterSeparator(s: string, sep: string)
    requires |sep| > 0
    ensures var ps := SplitOn(s, sep); var p := ps[|ps| - 1];
      |p| <= |s| &&
      (|ps| == 1 ==> p == s) &&
      (|ps| > 1 ==> MatchAt(s, sep, |s| - |p| - |sep|))
  {
    var ps := SplitOn(s, sep);
    var a := SplitOnLastShape(s, sep);
    if |ps| > 1 {
      AroundSeparator(a, sep, ps[|ps| - 1]);
    }
  }

  /** A text holding the separator splits into more than one piece. */
  lemma SplitOnContaining(s: string, sep: string)
    requires |sep| > 0 && Contains(s, sep)
    ensures |SplitOn(s, sep)| > 1
  {
    ContainsIffMatch(s, sep);
    var j :| MatchAt(s, sep, j);
    FindFromFirst(s, sep, 0);
    assert FindFrom(s, sep, 0) >= 0;
  }

  /** A character of the text is a one-character substring of it. */
  lemma ContainsChar(s: string, c: char)
    requires c in s
    ensures Contains(s, [c])
  {
    var i :| 0 <= i < |s| && s[i] == c;
    assert s[i..i + 1] == [c];
    ContainsAt(s, [c], i);
  }

  function Last<T>(s: seq<T>): T
    requires |s| > 0
  {
    s[|s| - 1]
  }

  /** `os.path.basename` on POSIX paths: the text after the last '/'. */
  function Basename(path: string): (r: string)
    ensures !Contains(r, "/")
  {
    SplitOnPiecesFree(path, "/");
    var r := Last(SplitOn(path, "/"));
    assert r in SplitOn(path, "/");
    r
  }

  // ---------------------------------------------------------------------------
  // Numbers and slices

  function DigitChar(d: nat): char
    requires d < 10
  {
    ('0' as int + d) as char
  }

  /** `str(n)` for a natural number. */
  function NatToString(n: nat): (r: string)
    ensures |r| > 0 && forall c <- r :: IsDigit(c)
    decreases n
  {
    if n < 10 then [DigitChar(n)] else NatToString(n / 10) + [DigitChar(n % 10)]
  }

  /** Different numbers print differently. */
  lemma {:induction false} NatToStringInjective(a: nat, b: nat)
    requires NatToString(a) == NatToString(b)
    ensures a == b
    decreases a
  {
    var s := NatToString(a);
    if a >= 10 && b >= 10 {
      assert NatToString(a / 10) == s[..|s| - 1] == NatToString(b / 10);
      NatToStringInjective(a / 10, b / 10);
      assert DigitChar(a % 10) == s[|s| - 1] == DigitChar(b % 10);
    }
  }

  /** `str(i)` for an integer. */
  function IntToString(i: int): string
  {
    if i < 0 then "-" + NatToString(-i) else NatToString(i)
  }

  /** Python `s[:k]`, including a negative `k` counted from the end. */
  function PySliceTo<T>(s: seq<T>, k: int): (r: seq<T>)
    ensures |r| <= |s| && r == s[..|r|]
    ensures k >= 0 ==> |r| == if k < |s| then k else |s|
  {
    if k >= 0 then (if k < |s| then s[..k] else s)
    else if |s| + k > 0 then s[..|s| + k] else []
  }

  function Min(a: int, b: int): int { if a < b then a else b }
  function Max(a: int, b: int): int { if a < b then b else a }
  function MinReal(a: real, b: real): real { if a < b then a else b }
  function MaxReal(a: real, b: real): real { if a < b then b else a }

  /** `sum(xs)`. */
  function SumReal(xs: seq<real>): real
  {
    if xs == [] then 0.0 else xs[0] + SumReal(xs[1..])
  }

  lemma SumRealAppend(xs: seq<real>, x: real)
    ensures SumReal(xs + [x]) == SumReal(xs) + x
  {
    if xs != [] {
      assert (xs + [x])[1..] == xs[1..] + [x];
      SumRealAppend(xs[1..], x);
    }
  }

  /** Number of occurrences of `x` in `xs` (`xs.count(x)`). */
  function CountOf<T(==)>(xs: seq<T>, x: T): (n: nat)
    ensures n <= |xs|
  {
    if xs == [] then 0 else (if xs[0] == x then 1 else 0) + CountOf(xs[1..], x)
  }

  lemma {:induction false} CountOfAppend<T>(xs: seq<T>, x: T, y: T)
    ensures CountOf(xs + [x], y) == CountOf(xs, y) + (if x == y then 1 else 0)
  {
    if xs != [] {
      assert (xs + [x])[1..] == xs[1..] + [x];
      CountOfAppend(xs[1..], x, y);
    }
  }

  /** `xs.index(x)` when `x` occurs: the first position holding it; `|xs|` otherwise. */
  function IndexOf<T(==)>(xs: seq<T>, x: T): (k: nat)
    ensures k <= |xs|
    ensures k < |xs| ==> xs[k] == x
    ensures forall j :: 0 <= j < k ==> xs[j] != x
  {
    if xs == [] then 0 else if xs[0] == x then 0 else 1 + IndexOf(xs[1..], x)
  }

  /** `list(dict.fromkeys(xs))`: distinct elements in first-occurrence order. */
  function Distinct<T(==,!new)>(xs: seq<T>): (r: seq<T>)
    ensures forall x :: x in r <==> x in xs
    ensures forall i, j :: 0 <= i < j < |r| ==> r[i] != r[j]
  {
    DistinctFrom(xs, [])
  }

  function DistinctFrom<T(==,!new)>(xs: seq<T>, seen: seq<T>): (r: seq<T>)
    requires forall i, j :: 0 <= i < j < |seen| ==> seen[i] != seen[j]
    ensures forall x :: x in r <==> x in xs || x in seen
    ensures forall i, j :: 0 <= i < j < |r| ==> r[i] != r[j]
    ensures |seen| <= |r| && r[..|seen|] == seen
    decreases |xs|
  {
    if xs == [] then seen
    else if xs[0] in seen then DistinctFrom(xs[1..], seen)
    else DistinctFrom(xs[1..], seen + [xs[0]])
  }
}
