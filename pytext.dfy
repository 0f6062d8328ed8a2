/**
 * The few Python string built-ins the bot's parsing relies on, on Dafny strings:
 * str.find, str.split(sep), str.replace, str.strip, str.split() with no separator,
 * str.partition, and int() on decimal numerals.
 */
module PyText {
  import opened Wrappers

  /** Python's str.isspace() for a single character. */
  predicate IsSpace(c: char) {
    || c == ' '
    || ('\U{9}' <= c <= '\U{d}')
    || ('\U{1c}' <= c <= '\U{1f}')
    || c == '\U{85}' || c == '\U{a0}' || c == '\U{1680}'
    || ('\U{2000}' <= c <= '\U{200a}')
    || c == '\U{2028}' || c == '\U{2029}' || c == '\U{202f}' || c == '\U{205f}' || c == '\U{3000}'
  }

  predicate NoSpace(s: string) {
    forall i :: 0 <= i < |s| ==> !IsSpace(s[i])
  }

  // ---------------------------------------------------------------------------
  // find / split(sep) / replace

  /** pat occurs in s starting at index j. */
  predicate OccursAt(s: string, pat: string, j: int) {
    0 <= j && j + |pat| <= |s| && s[j..j + |pat|] == pat
  }

  /** str.find: the leftmost occurrence of pat in s, if any. */
  function Find(s: string, pat: string): (r: Option<nat>)
    requires |pat| > 0
    ensures r.Some? ==> OccursAt(s, pat, r.value)
    ensures r.Some? ==> forall j :: 0 <= j < r.value ==> !OccursAt(s, pat, j)
    ensures r.None? ==> forall j :: !OccursAt(s, pat, j)
    decreases |s|
  {
    if |s| < |pat| then None
    else if s[..|pat|] == pat then Some(0)
    else
      var rest := Find(s[1..], pat);
      assert forall j :: 1 <= j ==> (OccursAt(s, pat, j) <==> OccursAt(s[1..], pat, j - 1)) by {
        forall j | 1 <= j ensures OccursAt(s, pat, j) <==> OccursAt(s[1..], pat, j - 1) {
          if j + |pat| <= |s| {
            assert s[1..][j - 1..j - 1 + |pat|] == s[j..j + |pat|];
          }
        }
      }
      assert !OccursAt(s, pat, 0);
      match rest
      case None => None
      case Some(i) => Some(i + 1)
  }

  /** str.startswith(p). */
  predicate StartsWith(s: string, p: string) {
    OccursAt(s, p, 0)
  }

  /** A string that starts with p does not start with a q whose first character differs. */
  lemma StartsWithDiffers(s: string, p: string, q: string)
    requires StartsWith(s, p) && p != [] && q != [] && p[0] != q[0]
    ensures !StartsWith(s, q) && s[0] == p[0]
  {
    assert s[..|p|][0] == s[0];
  }

  /** s does not contain pat anywhere. */
  predicate Free(s: string, pat: string)
    requires |pat| > 0
  {
    Find(s, pat).None?
  }

  /** str.split(sep): the pieces between leftmost, non-overlapping occurrences of sep. */
  function Split(s: string, sep: string): (parts: seq<string>)
    requires |sep| > 0
    ensures |parts| >= 1
    ensures forall k :: 0 <= k < |parts| ==> Free(parts[k], sep)
    decreases |s|
  {
    match Find(s, sep)
    case None => [s]
    case Some(i) =>
      assert Free(s[..i], sep) by {
        forall j ensures !OccursAt(s[..i], sep, j) {
          if OccursAt(s[..i], sep, j) {
            SliceOfPrefix(s, i, j, |sep|);
            assert OccursAt(s, sep, j);
          }
        }
      }
      [s[..i]] + Split(s[i + |sep|..], sep)
  }

  /** A slice inside a prefix of s is the same slice of s. */
  lemma SliceOfPrefix(s: string, i: int, j: int, n: int)
    requires 0 <= j && 0 <= n && j + n <= i <= |s|
    ensures s[..i][j..j + n] == s[j..j + n]
  {
  }

  /** A slice that lies in the left operand of a concatenation. */
  lemma SliceOfLeft(x: string, y: string, j: int, m: int)
    requires 0 <= j && 0 <= m && j + m <= |x|
    ensures (x + y)[j..j + m] == x[j..j + m]
  {
  }

  /** A slice that lies in the right operand of a concatenation. */
  lemma SliceOfRight(x: string, y: string, j: int, m: int)
    requires |x| <= j && 0 <= m && j + m <= |x| + |y|
    ensures (x + y)[j..j + m] == y[j - |x|..j - |x| + m]
  {
  }

  /** The first n characters of a slice. */
  lemma PrefixOfSlice(s: string, j: int, m: int, n: int)
    requires 0 <= j && 0 <= n <= m && j + m <= |s|
    ensures s[j..j + m][..n] == s[j..j + n]
  {
  }

  /** sep.join(parts). */
  function Join(parts: seq<string>, sep: string): string
    requires |parts| >= 1
    decreases |parts|
  {
    if |parts| == 1 then parts[0] else parts[0] + sep + Join(parts[1..], sep)
  }

  /** str.replace(pat, rep): every leftmost, non-overlapping occurrence replaced, scanning once. */
  function ReplaceAll(s: string, pat: string, rep: string): string
    requires |pat| > 0
    decreases |s|
  {
    match Find(s, pat)
    case None => s
    case Some(i) => s[..i] + rep + ReplaceAll(s[i + |pat|..], pat, rep)
  }

  /** Splitting and joining back with the same separator gives the original string. */
  lemma {:induction false} JoinSplit(s: string, sep: string)
    requires |sep| > 0
    ensures Join(Split(s, sep), sep) == s
    decreases |s|
  {
    match Find(s, sep)
    case None =>
    case Some(i) =>
      var head, tail := s[..i], s[i + |sep|..];
      JoinSplit(tail, sep);
      SplitAt(s, sep, i);
      JoinCons(head, Split(tail, sep), sep);
  }

  /** At the first occurrence i of sep, s is its head, sep and its tail, and the split peels off the head. */
  lemma SplitAt(s: string, sep: string, i: nat)
    requires |sep| > 0 && Find(s, sep) == Some(i)
    ensures i + |sep| <= |s|
    ensures s == s[..i] + sep + s[i + |sep|..]
    ensures Split(s, sep) == [s[..i]] + Split(s[i + |sep|..], sep)
  {
    assert s[i..i + |sep|] == sep;
  }

  lemma JoinCons(head: string, rest: seq<string>, sep: string)
    requires |rest| >= 1
    ensures Join([head] + rest, sep) == head + sep + Join(rest, sep)
  {
    assert ([head] + rest)[1..] == rest;
  }

  /** s.replace(pat, rep) is rep.join(s.split(pat)). */
  lemma {:induction false} ReplaceIsJoinOfSplit(s: string, pat: string, rep: string)
    requires |pat| > 0
    ensures ReplaceAll(s, pat, rep) == Join(Split(s, pat), rep)
    decreases |s|
  {
    match Find(s, pat)
    case None =>
    case Some(i) =>
      var tail := s[i + |pat|..];
      ReplaceIsJoinOfSplit(tail, pat, rep);
      assert Split(s, pat)[1..] == Split(tail, pat);
  }

  /** If pat's first character never appears in s, pat does not occur in s. */
  lemma FreeOfFirstChar(s: string, pat: string)
    requires |pat| > 0 && pat[0] !in s
    ensures Free(s, pat)
  {
  }

  /** A prefix that already contains pat fixes where the first occurrence is. */
  lemma {:induction false} FindInPrefix(x: string, y: string, pat: string)
    requires |pat| > 0 && Find(x, pat).Some?
    ensures Find(x + y, pat) == Find(x, pat)
  {
    var i := Find(x, pat).value;
    assert (x + y)[i..i + |pat|] == x[i..i + |pat|];
    assert OccursAt(x + y, pat, i);
    forall j | 0 <= j < i ensures !OccursAt(x + y, pat, j) {
      assert (x + y)[j..j + |pat|] == x[j..j + |pat|];
      assert !OccursAt(x, pat, j);
    }
    var r := Find(x + y, pat);
    assert r.Some?;
    assert r.value == i;
  }

  /** Split peels off a leading field when the separator first occurs right after it. */
  lemma SplitCons(a: string, sep: string, b: string)
    requires |sep| > 0 && Find(a + sep, sep) == Some(|a|)
    ensures Split(a + sep + b, sep) == [a] + Split(b, sep)
  {
    FindInPrefix(a + sep, b, sep);
    var s := a + sep + b;
    assert s[..|a|] == a;
    assert s[|a| + |sep|..] == b;
  }

  /** The separator is first found right after a, when one of its characters cannot start earlier. */
  lemma FirstOccurrenceAfter(a: string, sep: string, m: nat)
    requires m < |sep| && sep[m] !in a && sep[m] !in sep[..m]
    ensures Find(a + sep, sep) == Some(|a|)
  {
    var s := a + sep;
    assert s[|a|..|a| + |sep|] == sep;
    assert OccursAt(s, sep, |a|);
    forall j | 0 <= j < |a| ensures !OccursAt(s, sep, j) {
      if j + |sep| <= |s| {
        if j + m < |a| {
          assert s[j + m] == a[j + m];
        } else {
          assert s[j + m] == sep[..m][j + m - |a|];
        }
        assert s[j..j + |sep|][m] == s[j + m] != sep[m];
      }
    }
    var r := Find(s, sep);
    assert r.Some?;
    assert r.value == |a|;
  }

  // ---------------------------------------------------------------------------
  // strip / split()

  /** str.lstrip(): drop leading whitespace. */
  function TrimStart(s: string): (r: string)
    ensures |r| <= |s| && r == s[|s| - |r|..]
    ensures forall i :: 0 <= i < |s| - |r| ==> IsSpace(s[i])
    ensures r == [] || !IsSpace(r[0])
    decreases |s|
  {
    if s != [] && IsSpace(s[0]) then TrimStart(s[1..]) else s
  }

  /** str.rstrip(): drop trailing whitespace. */
  function TrimEnd(s: string): (r: string)
    ensures |r| <= |s| && r == s[..|r|]
    ensures forall i :: |r| <= i < |s| ==> IsSpace(s[i])
    ensures r == [] || !IsSpace(r[|r| - 1])
    decreases |s|
  {
    if s != [] && IsSpace(s[|s| - 1]) then TrimEnd(s[..|s| - 1]) else s
  }

  /** str.strip(). */
  function Strip(s: string): string {
    TrimEnd(TrimStart(s))
  }

  /** strip() leaves a string alone that neither starts nor ends with whitespace. */
  lemma StripNoop(s: string)
    requires s != [] && !IsSpace(s[0]) && !IsSpace(s[|s| - 1])
    ensures Strip(s) == s
  {
    assert TrimStart(s) == s;
  }

  /** Length of the run of non-whitespace characters that starts s. */
  function WordLength(s: string): (n: nat)
    ensures n <= |s|
    ensures forall i :: 0 <= i < n ==> !IsSpace(s[i])
    ensures n < |s| ==> IsSpace(s[n])
    decreases |s|
  {
    if s == [] || IsSpace(s[0]) then 0 else 1 + WordLength(s[1..])
  }

  /** str.split() with no argument: the maximal runs of non-whitespace characters. */
  function Words(s: string): (ws: seq<string>)
    ensures forall k :: 0 <= k < |ws| ==> ws[k] != [] && NoSpace(ws[k])
    decreases |s|
  {
    var t := TrimStart(s);
    if t == [] then []
    else
      var n := WordLength(t);
      var rest := Words(t[n..]);
      LeadingWord(t);
      WordsPrepend(t[..n], rest);
      [t[..n]] + rest
  }

  /** Prepending a word to a list of words gives a list of words. */
  lemma WordsPrepend(w: string, rest: seq<string>)
    requires w != [] && NoSpace(w)
    requires forall k :: 0 <= k < |rest| ==> rest[k] != [] && NoSpace(rest[k])
    ensures forall k :: 0 <= k < |[w] + rest| ==> ([w] + rest)[k] != [] && NoSpace(([w] + rest)[k])
  {
    forall k | 0 <= k < |[w] + rest| ensures ([w] + rest)[k] != [] && NoSpace(([w] + rest)[k]) {
      if k > 0 {
        assert ([w] + rest)[k] == rest[k - 1];
      }
    }
  }

  /** The run of non-whitespace at the start of a string that does not start with whitespace is a word. */
  lemma LeadingWord(t: string)
    requires t != [] && !IsSpace(t[0])
    ensures var w := t[..WordLength(t)]; w != [] && NoSpace(w)
  {
    var w := t[..WordLength(t)];
    forall i | 0 <= i < |w| ensures !IsSpace(w[i]) {
      assert w[i] == t[i];
    }
  }

  /** The first word of s starts with a character of s. */
  lemma FirstWordFromText(s: string)
    requires Words(s) != []
    ensures Words(s)[0][0] in s
  {
    var t := TrimStart(s);
    assert Words(s)[0][0] == t[0] == s[|s| - |t|];
  }

  /** A non-empty whitespace-free word followed by whitespace (or nothing) is split off first. */
  lemma WordsCons(w: string, rest: string)
    requires w != [] && NoSpace(w)
    requires rest == [] || IsSpace(rest[0])
    ensures Words(w + rest) == [w] + Words(rest)
  {
    var s := w + rest;
    assert TrimStart(s) == s;
    WordLengthOf(w, rest);
    assert s[..|w|] == w && s[|w|..] == rest;
  }

  lemma {:induction false} WordLengthOf(w: string, rest: string)
    requires NoSpace(w)
    requires rest == [] || IsSpace(rest[0])
    ensures WordLength(w + rest) == |w|
    decreases |w|
  {
    if w != [] {
      assert (w + rest)[1..] == w[1..] + rest;
      WordLengthOf(w[1..], rest);
    }
  }

  /** A word on its own splits into itself. */
  lemma WordsSingle(w: string)
    requires w != [] && NoSpace(w)
    ensures Words(w) == [w]
  {
    WordsCons(w, []);
    assert w + [] == w;
    assert Words([]) == [];
  }

  /** split() of two words joined by one space gives back the two words. */
  lemma WordsOfPair(a: string, b: string)
    requires a != [] && NoSpace(a) && b != [] && NoSpace(b)
    ensures Words(a + " " + b) == [a, b]
  {
    var rest := " " + b;
    assert a + " " + b == a + rest;
    WordsAfterWord(a, rest);
    WordsLeadingSpace(b);
    WordsSingle(b);
  }

  lemma WordsAfterWord(a: string, rest: string)
    requires a != [] && NoSpace(a) && |rest| > 0 && rest[0] == ' '
    ensures Words(a + rest) == [a] + Words(rest)
  {
    WordsCons(a, rest);
  }

  /** A leading space does not change split(). */
  lemma WordsLeadingSpace(b: string)
    ensures Words(" " + b) == Words(b)
  {
    WordsSkipSpace(' ', b);
  }

  /** A leading whitespace character does not change split(). */
  lemma WordsSkipSpace(c: char, b: string)
    requires IsSpace(c)
    ensures Words([c] + b) == Words(b)
  {
    var s := [c] + b;
    assert s[1..] == b;
    assert TrimStart(s) == TrimStart(b);
  }

  /** A leading run of whitespace does not change split(); a string of whitespace only has no words. */
  lemma WordsSkipSpaces(sp: string, x: string)
    requires forall i :: 0 <= i < |sp| ==> IsSpace(sp[i])
    ensures Words(sp + x) == Words(x)
  {
    TrimSpaces(sp, x);
  }

  /** lstrip() drops a leading run of whitespace whatever follows it. */
  lemma {:induction false} TrimSpaces(sp: string, x: string)
    requires forall i :: 0 <= i < |sp| ==> IsSpace(sp[i])
    ensures TrimStart(sp + x) == TrimStart(x)
    decreases |sp|
  {
    if sp != [] {
      var s := sp + x;
      assert s[0] == sp[0] && s[1..] == sp[1..] + x;
      TrimSpaces(sp[1..], x);
    } else {
      assert sp + x == x;
    }
  }

  /**
   * split() cuts at every whitespace character: the words of a + [c] + b are those of a followed by
   * those of b. With WordsSingle and WordsSkipSpaces this fixes split() on every string.
   */
  lemma {:induction false} WordsSplitAtSpace(a: string, c: char, b: string)
    requires IsSpace(c)
    ensures Words(a + [c] + b) == Words(a) + Words(b)
    decreases |a|
  {
    if a == [] {
      assert a + [c] + b == [c] + b;
      WordsSkipSpace(c, b);
      assert Words(a) == [];
      EmptyAppend(Words(b));
    } else if IsSpace(a[0]) {
      var a' := a[1..];
      assert a + [c] + b == [a[0]] + (a' + [c] + b);
      assert a == [a[0]] + a';
      WordsSkipSpace(a[0], a' + [c] + b);
      WordsSkipSpace(a[0], a');
      WordsSplitAtSpace(a', c, b);
      assert Words(a + [c] + b) == Words(a' + [c] + b);
      assert Words(a) == Words(a');
    } else {
      var n := WordLength(a);
      var w, r := a[..n], a[n..];
      LeadingWord(a);
      assert a == w + r;
      assert a + [c] + b == w + (r + [c] + b);
      WordThenSpace(w, r, c, b);
      WordsSplitAtSpace(r, c, b);
      assert Words(a + [c] + b) == [w] + Words(r + [c] + b);
      assert Words(a) == [w] + Words(r);
      ConsAppend(w, Words(r), Words(b));
    }
  }

  lemma EmptyAppend<T>(q: seq<T>)
    ensures [] + q == q
  {
  }

  lemma ConsAppend<T>(x: T, p: seq<T>, q: seq<T>)
    ensures [x] + (p + q) == ([x] + p) + q
  {
  }

  /** A word followed by whitespace is split off both from the rest r and from r + [c] + b. */
  lemma WordThenSpace(w: string, r: string, c: char, b: string)
    requires w != [] && NoSpace(w) && (r == [] || IsSpace(r[0])) && IsSpace(c)
    ensures Words(w + (r + [c] + b)) == [w] + Words(r + [c] + b)
    ensures Words(w + r) == [w] + Words(r)
  {
    assert (r + [c] + b)[0] == if r == [] then c else r[0];
    WordsCons(w, r + [c] + b);
    WordsCons(w, r);
  }

  // ---------------------------------------------------------------------------
  // partition

  /** str.partition(sep) without the middle element: what comes before and after the first sep. */
  function Partition(s: string, sep: string): (r: (string, string))
    requires |sep| > 0
    ensures Find(s, sep).None? ==> r == (s, "")
    ensures Find(s, sep).Some? ==> r.0 + sep + r.1 == s && Free(r.0 + sep[..|sep| - 1], sep)
  {
    match Find(s, sep)
    case None => (s, "")
    case Some(i) =>
      assert s[i..i + |sep|] == sep;
      assert s == s[..i] + sep + s[i + |sep|..];
      var pre := s[..i] + sep[..|sep| - 1];
      assert Free(pre, sep) by {
        forall j ensures !OccursAt(pre, sep, j) {
          if OccursAt(pre, sep, j) {
            assert j < i;
            assert pre == s[..i + |sep| - 1];
            SliceOfPrefix(s, i + |sep| - 1, j, |sep|);
            assert OccursAt(s, sep, j);
          }
        }
      }
      (s[..i], s[i + |sep|..])
  }

  // ---------------------------------------------------------------------------
  // int() on decimal numerals, and str() of an int

  predicate IsDigit(c: char) {
    '0' <= c <= '9'
  }

  /** Decimal digits with single underscores between digits, as int() and float() accept them. */
  predicate IsDigitString(s: string)
    decreases |s|
  {
    && |s| > 0
    && IsDigit(s[0])
    && (|s| == 1 || (if s[1] == '_' then IsDigitString(s[2..]) else IsDigitString(s[1..])))
  }

  /** A digit string holds no space. */
  lemma {:induction false} SpaceBreaksDigitString(s: string, k: int)
    requires 0 <= k < |s| && s[k] == ' '
    ensures !IsDigitString(s)
    decreases |s|
  {
    if IsDigitString(s) {
      assert k > 0 && |s| > 1;
      if s[1] == '_' {
        SpaceBreaksDigitString(s[2..], k - 2);
      } else {
        SpaceBreaksDigitString(s[1..], k - 1);
      }
    }
  }

  /** The value of a digit string; underscores are skipped. */
  function DigitsValue(s: string): nat
    decreases |s|
  {
    if s == [] then 0
    else if IsDigit(s[|s| - 1]) then 10 * DigitsValue(s[..|s| - 1]) + (s[|s| - 1] as int - '0' as int)
    else DigitsValue(s[..|s| - 1])
  }

  /** int(s) for a decimal numeral: surrounding whitespace, an optional sign, then digits. */
  function ParseInteger(s: string): (r: Option<int>)
    ensures r.Some? ==> Strip(s) != []
  {
    var t := Strip(s);
    if |t| > 0 && (t[0] == '-' || t[0] == '+') then
      if IsDigitString(t[1..]) then
        var v: int := DigitsValue(t[1..]);
        Some(if t[0] == '-' then -v else v)
      else None
    else if IsDigitString(t) then Some(DigitsValue(t))
    else None
  }

  function DigitChar(d: nat): (c: char)
    requires d < 10
    ensures IsDigit(c) && c as int - '0' as int == d
  {
    (d + '0' as int) as char
  }

  /** str(n) for n >= 0. */
  function ShowNat(n: nat): (s: string)
    ensures s != [] && forall i :: 0 <= i < |s| ==> IsDigit(s[i])
  {
    if n < 10 then [DigitChar(n)] else ShowNat(n / 10) + [DigitChar(n % 10)]
  }

  /** str(n). */
  function ShowInt(n: int): (s: string)
    ensures s != [] && IsDigit(s[|s| - 1])
    ensures forall i :: 0 <= i < |s| ==> IsDigit(s[i]) || (i == 0 && s[i] == '-')
  {
    if n < 0 then "-" + ShowNat(-n) else ShowNat(n)
  }

  lemma {:induction false} AllDigitsIsDigitString(s: string)
    requires s != [] && forall i :: 0 <= i < |s| ==> IsDigit(s[i])
    ensures IsDigitString(s)
    decreases |s|
  {
    if |s| > 1 {
      AllDigitsIsDigitString(s[1..]);
    }
  }

  lemma {:induction false} ShowNatValue(n: nat)
    ensures DigitsValue(ShowNat(n)) == n
  {
    if n >= 10 {
      ShowNatValue(n / 10);
      var s := ShowNat(n);
      assert s[..|s| - 1] == ShowNat(n / 10);
    }
  }

  /** The text of a number carries no surrounding whitespace. */
  lemma StripShowInt(n: int)
    ensures Strip(ShowInt(n)) == ShowInt(n)
  {
    var s := ShowInt(n);
    assert !IsSpace(s[0]) && !IsSpace(s[|s| - 1]);
    StripNoop(s);
  }

  /** int(str(n)) == n. */
  lemma ParseShowInt(n: int)
    ensures ParseInteger(ShowInt(n)) == Some(n)
  {
    var s := ShowInt(n);
    StripShowInt(n);
    if n < 0 {
      assert s[1..] == ShowNat(-n);
      AllDigitsIsDigitString(ShowNat(-n));
      ShowNatValue(-n);
    } else {
      assert s == ShowNat(n);
      assert s[0] != '-' && s[0] != '+';
      AllDigitsIsDigitString(s);
      ShowNatValue(n);
    }
  }

  /** The text of a number never holds whitespace, nor any of the given punctuation. */
  lemma ShowIntChars(n: int, c: char)
    requires c != '-' && !IsDigit(c)
    ensures c !in ShowInt(n) && NoSpace(ShowInt(n))
  {
  }
}
