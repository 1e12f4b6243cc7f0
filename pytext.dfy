/**
 * The few pieces of Python's string and `os.path` library that the scripts
 * rely on, written out with the behaviour CPython gives them:
 * `posixpath.join`, `posixpath.basename`, `posixpath.splitext(..)[0]`,
 * `str.split()` without arguments and `str.replace`.
 */
module PyText {
  import opened Slices

  /** `s` ends with `suffix`. */
  predicate EndsWith(s: string, suffix: string) {
    |suffix| <= |s| && s[|s| - |suffix|..] == suffix
  }

  /** `s` starts with `prefix`. */
  predicate StartsWith(s: string, prefix: string) {
    |prefix| <= |s| && s[..|prefix|] == prefix
  }

  predicate NoChar(s: string, c: char) {
    forall i :: 0 <= i < |s| ==> s[i] != c
  }

  lemma NoCharAppend(a: string, b: string, c: char)
    requires NoChar(a, c) && NoChar(b, c)
    ensures NoChar(a + b, c)
  {
  }

  /** Index of the last occurrence of `c` in `s`, or -1 (Python's `str.rfind`). */
  function RFind(s: string, c: char): (r: int)
    ensures -1 <= r < |s|
    ensures r >= 0 ==> s[r] == c
    ensures forall i :: r < i < |s| ==> s[i] != c
  {
    if s == [] then -1
    else if s[|s| - 1] == c then |s| - 1
    else RFind(s[..|s| - 1], c)
  }

  // ---------------------------------------------------------------------------
  // posixpath.join(a, b): an absolute `b` replaces what came before; otherwise
  // a separator is inserted unless `a` is empty or already ends with '/'.
  // A join of several components is the left fold of this one.
  // ---------------------------------------------------------------------------

  function Join(a: string, b: string): (r: string)
    ensures |b| > 0 && b[0] == '/' ==> r == b
    ensures |b| <= |r| <= |a| + |b| + 1
  {
    if |b| > 0 && b[0] == '/' then b
    else if a == [] || a[|a| - 1] == '/' then a + b
    else a + "/" + b
  }

  /**
   * A join ends with its last component; a relative component keeps what came
   * before as a prefix, separated by exactly one '/'.
   */
  lemma JoinShape(a: string, b: string)
    ensures EndsWith(Join(a, b), b)
    ensures (b == [] || b[0] != '/') ==> StartsWith(Join(a, b), a)
    ensures (b == [] || b[0] != '/') && a != [] && a[|a| - 1] != '/' ==> Join(a, b) == a + "/" + b
    ensures (b == [] || b[0] != '/') && (a == [] || a[|a| - 1] == '/') ==> Join(a, b) == a + b
  {
    var p := Join(a, b);
    assert p[|p| - |b|..] == b;
  }

  /** The empty string is neutral for concatenation. */
  lemma AppendEmpty(s: string)
    ensures s + "" == s && "" + s == s
  {
  }

  /** The separator a relative component is joined with. */
  function Sep(a: string): string {
    if a == [] || a[|a| - 1] == '/' then "" else "/"
  }

  lemma JoinRelative(a: string, b: string)
    requires b == [] || b[0] != '/'
    ensures Join(a, b) == (a + Sep(a)) + b
  {
  }

  /** A common prefix cancels. */
  lemma AppendCancel(p: string, x: string, y: string)
    ensures p + x == p + y ==> x == y
  {
    assert (p + x)[|p|..] == x;
    assert (p + y)[|p|..] == y;
  }

  /** Joining distinct relative components onto the same directory gives distinct paths. */
  lemma JoinDistinct(a: string, b1: string, b2: string)
    requires b1 != b2
    requires b1 == [] || b1[0] != '/'
    requires b2 == [] || b2[0] != '/'
    ensures Join(a, b1) != Join(a, b2)
  {
    JoinRelative(a, b1);
    JoinRelative(a, b2);
    AppendCancel(a + Sep(a), b1, b2);
  }

  /**
   * Under a relative, non-empty directory, joining is injective: an absolute
   * component yields an absolute path and a relative one a relative path.
   */
  lemma JoinInjective(a: string, b1: string, b2: string)
    requires a != [] && a[0] != '/'
    requires b1 != b2
    ensures Join(a, b1) != Join(a, b2)
  {
    var abs1 := |b1| > 0 && b1[0] == '/';
    var abs2 := |b2| > 0 && b2[0] == '/';
    if !abs1 && !abs2 {
      JoinDistinct(a, b1, b2);
    } else if abs1 && !abs2 {
      JoinShape(a, b2);
      assert Join(a, b2)[0] == a[0];
    } else if !abs1 && abs2 {
      JoinShape(a, b1);
      assert Join(a, b1)[0] == a[0];
    }
  }

  function Join3(a: string, b: string, c: string): string {
    Join(Join(a, b), c)
  }

  /** posixpath.basename: the text after the last '/'. */
  function Basename(p: string): (r: string)
    ensures NoChar(r, '/')
    ensures EndsWith(p, r)
    ensures r == p || p[|p| - |r| - 1] == '/'
  {
    p[RFind(p, '/') + 1..]
  }

  /** A character that does not occur is not found. */
  lemma RFindAbsent(s: string, c: char)
    requires NoChar(s, c)
    ensures RFind(s, c) == -1
  {
  }

  /** The last `c` is the one after which no `c` follows. */
  lemma {:induction false} RFindLast(s: string, c: char, t: string)
    requires NoChar(t, c)
    ensures RFind(s + [c] + t, c) == |s|
    decreases |t|
  {
    if t != [] {
      var front := t[..|t| - 1];
      assert (s + [c] + t)[..|s + [c] + t| - 1] == s + [c] + front;
      RFindLast(s, c, front);
    }
  }

  lemma BasenameOfChild(dir: string, name: string)
    requires NoChar(name, '/')
    ensures Basename(dir + "/" + name) == name
  {
    RFindLast(dir, '/', name);
    assert dir + "/" + name == dir + ['/'] + name;
  }

  /** Some character of `p[lo..hi]` is not a '.'. */
  predicate HasNonDot(p: string, lo: int, hi: int)
    requires 0 <= lo <= hi <= |p|
  {
    exists i :: lo <= i < hi && p[i] != '.'
  }

  /**
   * posixpath.splitext(p)[0]: drop the last extension. The last '.' starts an
   * extension only when it comes after the last '/' and the file name before it
   * is not made of dots alone (".bashrc" has no extension).
   */
  function Stem(p: string): (r: string)
    ensures StartsWith(p, r)
    ensures r == p || (|r| < |p| && p[|r|] == '.' && NoChar(p[|r| + 1..], '.') && NoChar(p[|r|..], '/'))
  {
    var sep := RFind(p, '/');
    var dot := RFind(p, '.');
    if dot > sep && HasNonDot(p, sep + 1, dot) then
      assert forall i :: 0 <= i < |p[dot..]| ==> p[dot..][i] == p[dot + i];
      p[..dot]
    else p
  }

  /**
   * Dropping the extension of a plain file name `name.ext` leaves `name`,
   * provided `name` is not made of dots alone.
   */
  lemma StemOfFileName(name: string, ext: string)
    requires NoChar(name, '/') && NoChar(ext, '/') && NoChar(ext, '.')
    requires HasNonDot(name, 0, |name|)
    ensures Stem(name + "." + ext) == name
  {
    var p := name + "." + ext;
    assert p == name + ['.'] + ext;
    RFindLast(name, '.', ext);
    RFindAbsent(p, '/');
    var i :| 0 <= i < |name| && name[i] != '.';
    assert p[i] == name[i];
    assert p[..|name|] == name;
  }

  // ---------------------------------------------------------------------------
  // str.split() without a separator: maximal runs of non-whitespace characters.
  // ---------------------------------------------------------------------------

  /** The characters for which Python's `str.isspace` holds. */
  predicate IsSpace(c: char) {
    c in Whitespace
  }

  const Whitespace: set<char> := {
    '\t', '\n', '\U{0B}', '\U{0C}', '\r', '\U{1C}', '\U{1D}', '\U{1E}', '\U{1F}', ' ',
    '\U{85}', '\U{A0}', '\U{1680}',
    '\U{2000}', '\U{2001}', '\U{2002}', '\U{2003}', '\U{2004}', '\U{2005}', '\U{2006}',
    '\U{2007}', '\U{2008}', '\U{2009}', '\U{200A}',
    '\U{2028}', '\U{2029}', '\U{202F}', '\U{205F}', '\U{3000}'
  }

  predicate NoSpace(w: string) {
    forall i :: 0 <= i < |w| ==> !IsSpace(w[i])
  }

  /** The space character is whitespace. */
  lemma SpaceIsSpace()
    ensures IsSpace(' ')
  {
  }

  /** A word of printable ASCII characters (codes 33 to 126) holds no whitespace. */
  lemma PrintableNoSpace(w: string)
    requires forall i :: 0 <= i < |w| ==> 33 <= w[i] as int <= 126
    ensures NoSpace(w)
  {
    assert forall c :: c in Whitespace ==> c as int <= 32 || 127 <= c as int;
  }

  /** Length of the run of non-whitespace characters that starts `s`. */
  function WordLen(s: string): (n: nat)
    ensures n <= |s|
    ensures NoSpace(s[..n])
    ensures n < |s| ==> IsSpace(s[n])
  {
    if s == [] || IsSpace(s[0]) then 0 else 1 + WordLen(s[1..])
  }

  /** `str.split()`: every token is a non-empty run without whitespace. */
  function Split(s: string): (r: seq<string>)
    ensures forall k :: 0 <= k < |r| ==> r[k] != [] && NoSpace(r[k])
    decreases |s|
  {
    if s == [] then []
    else if IsSpace(s[0]) then Split(s[1..])
    else
      var n := WordLen(s);
      [s[..n]] + Split(s[n..])
  }

  /** `" ".join(words)`. */
  function JoinWords(words: seq<string>): string {
    if words == [] then ""
    else if |words| == 1 then words[0]
    else words[0] + (" " + JoinWords(words[1..]))
  }

  lemma {:induction false} WordLenOfWord(w: string, rest: string)
    requires NoSpace(w)
    requires rest == [] || IsSpace(rest[0])
    ensures WordLen(w + rest) == |w|
  {
    if w != [] {
      assert (w + rest)[1..] == w[1..] + rest;
      WordLenOfWord(w[1..], rest);
    }
  }

  /** A whitespace-free word followed by whitespace is split off whole. */
  lemma SplitWord(w: string, rest: string)
    requires w != [] && NoSpace(w)
    requires rest == [] || IsSpace(rest[0])
    ensures Split(w + rest) == [w] + Split(rest)
  {
    WordLenOfWord(w, rest);
    assert (w + rest)[..|w|] == w;
    assert (w + rest)[|w|..] == rest;
  }

  /** Splitting is a left inverse of joining with single spaces. */
  lemma {:induction false} SplitJoinWords(words: seq<string>)
    requires forall k :: 0 <= k < |words| ==> words[k] != [] && NoSpace(words[k])
    ensures Split(JoinWords(words)) == words
  {
    if |words| == 1 {
      SplitWord(words[0], "");
      assert words[0] + "" == words[0];
    } else if |words| > 1 {
      SplitJoinWords(words[1..]);
      SplitJoinStep(words);
    }
  }

  /** One step of `SplitJoinWords`: the first word is split off, then the single space is skipped. */
  lemma SplitJoinStep(words: seq<string>)
    requires |words| > 1 && words[0] != [] && NoSpace(words[0])
    ensures Split(JoinWords(words)) == [words[0]] + Split(JoinWords(words[1..]))
  {
    var tail := JoinWords(words[1..]);
    SpaceIsSpace();
    SplitWord(words[0], " " + tail);
    SplitSpaceHead(" " + tail);
    assert (" " + tail)[1..] == tail;
  }

  /** Leading whitespace is skipped. */
  lemma SplitSpaceHead(s: string)
    requires s != [] && IsSpace(s[0])
    ensures Split(s) == Split(s[1..])
  {
  }

  /** Splitting two texts and appending the tokens equals splitting them joined by a space. */
  lemma {:induction false} SplitAppend(a: string, b: string)
    ensures Split(a + " " + b) == Split(a) + Split(b)
    decreases |a|
  {
    if a == [] {
      assert a + " " + b == " " + b;
      SpaceIsSpace();
      SplitSpaceHead(" " + b);
      assert (" " + b)[1..] == b;
    } else if IsSpace(a[0]) {
      SplitAppendSpace(a, b);
      SplitAppend(a[1..], b);
    } else {
      var n := WordLen(a);
      SplitAppendWord(a, b);
      SplitAppend(a[n..], b);
      assert [a[..n]] + (Split(a[n..]) + Split(b)) == ([a[..n]] + Split(a[n..])) + Split(b);
    }
  }

  /** The same with the space grouped with what follows it. */
  lemma SplitAppendSpaced(a: string, b: string)
    ensures Split(a + (" " + b)) == Split(a) + Split(b)
  {
    AppendAssoc(a, " ", b);
    SplitAppend(a, b);
  }

  /** A word on its own is its only token. */
  lemma SingleWord(w: string)
    requires w != [] && NoSpace(w)
    ensures Split(w) == [w]
  {
    SplitWord(w, "");
    AppendEmpty(w);
  }

  /** Two words joined by a space split into exactly those two words. */
  lemma TwoWords(a: string, b: string)
    requires a != [] && NoSpace(a) && b != [] && NoSpace(b)
    ensures Split(a + " " + b) == [a, b]
  {
    SplitAppend(a, b);
    SingleWord(a);
    SingleWord(b);
  }

  lemma SplitAppendSpace(a: string, b: string)
    requires a != [] && IsSpace(a[0])
    ensures Split(a + " " + b) == Split(a[1..] + " " + b)
    ensures Split(a) == Split(a[1..])
  {
    assert (a + " " + b)[1..] == a[1..] + " " + b;
    SplitSpaceHead(a + " " + b);
  }

  /** A word at the head of the left text is split off on both sides. */
  lemma SplitAppendWord(a: string, b: string)
    requires a != [] && !IsSpace(a[0])
    ensures Split(a + " " + b) == [a[..WordLen(a)]] + Split(a[WordLen(a)..] + " " + b)
    ensures Split(a) == [a[..WordLen(a)]] + Split(a[WordLen(a)..])
  {
    var n := WordLen(a);
    var w := a[..n];
    var rest := a[n..];
    assert a == w + rest;
    assert a + " " + b == w + (rest + " " + b);
    SpaceIsSpace();
    SplitWord(w, rest + " " + b);
    assert rest + " " + b == rest + (" " + b);
  }

  // ---------------------------------------------------------------------------
  // str.replace(pat, rep): every non-overlapping occurrence, left to right.
  // ---------------------------------------------------------------------------

  function Replace(s: string, pat: string, rep: string): (r: string)
    ensures pat != [] && |rep| == |pat| ==> |r| == |s|
    ensures pat != [] && NoOccurrence(s, pat) ==> r == s
    decreases |s|
  {
    if pat == [] then (if s == [] then rep else rep + [s[0]] + Replace(s[1..], pat, rep))
    else if |s| < |pat| then s
    else if s[..|pat|] == pat then
      assert OccursAt(s, pat, 0);
      rep + Replace(s[|pat|..], pat, rep)
    else
      NoOccurrenceTail(s, pat);
      [s[0]] + Replace(s[1..], pat, rep)
  }

  /** A text without the pattern has none after its first character either. */
  lemma NoOccurrenceTail(s: string, pat: string)
    requires s != []
    ensures NoOccurrence(s, pat) ==> NoOccurrence(s[1..], pat)
  {
    if NoOccurrence(s, pat) {
      forall i: nat | i <= |s[1..]|
        ensures !OccursAt(s[1..], pat, i)
      {
        assert !OccursAt(s, pat, i + 1);
        if i + |pat| <= |s[1..]| {
          assert s[1..][i..i + |pat|] == s[i + 1..i + 1 + |pat|];
        }
      }
    }
  }

  /** `pat` occurs in `s` at index `i`. */
  predicate OccursAt(s: string, pat: string, i: nat) {
    i + |pat| <= |s| && s[i..i + |pat|] == pat
  }

  /** `pat` occurs nowhere in `s`. */
  predicate NoOccurrence(s: string, pat: string) {
    forall i: nat :: i <= |s| ==> !OccursAt(s, pat, i)
  }

  /** Replacing a single character by a text without it leaves no occurrence of it. */
  lemma {:induction false} ReplaceRemovesChar(s: string, c: char, rep: string)
    requires NoChar(rep, c)
    ensures NoChar(Replace(s, [c], rep), c)
    decreases |s|
  {
    if |s| >= 1 {
      ReplaceRemovesChar(s[1..], c, rep);
      if s[..1] != [c] {
        assert s[0] != c;
      }
    }
  }

  /** A character absent from both the text and the replacement is absent from the result. */
  lemma {:induction false} ReplaceKeepsAbsent(s: string, pat: string, rep: string, c: char)
    requires NoChar(s, c) && NoChar(rep, c)
    ensures NoChar(Replace(s, pat, rep), c)
    decreases |s|
  {
    if pat == [] {
      if s != [] {
        ReplaceKeepsAbsent(s[1..], pat, rep, c);
      }
    } else if |s| >= |pat| {
      if s[..|pat|] == pat {
        ReplaceKeepsAbsent(s[|pat|..], pat, rep, c);
      } else {
        ReplaceKeepsAbsent(s[1..], pat, rep, c);
      }
    }
  }
}
