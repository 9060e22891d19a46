/**
 * String helpers shared by the backend (Ruby) and frontend (TypeScript)
 * models: whitespace, trimming, splitting on a separator, awk-style word
 * splitting, prefix and substring tests.
 *
 * One whitespace class is used for Ruby `strip`, Ruby `\s`, Rails `blank?`
 * and JavaScript `trim`/`\S`: space, tab, line feed, vertical tab, form
 * feed and carriage return.
 */
module Text {

  predicate IsSpace(c: char) {
    c == ' ' || c == '\t' || c == '\n' || c == '\r' || c == '\U{B}' || c == '\U{C}'
  }

  predicate IsDigit(c: char) {
    '0' <= c <= '9'
  }

  /** `/[A-Za-z]/` on one character. */
  predicate IsAsciiLetter(c: char) {
    ('A' <= c <= 'Z') || ('a' <= c <= 'z')
  }

  predicate AllDigits(s: string) {
    forall i :: 0 <= i < |s| ==> IsDigit(s[i])
  }

  /** Rails `blank?` on a string: empty or whitespace only. */
  predicate IsBlank(s: string) {
    forall i :: 0 <= i < |s| ==> IsSpace(s[i])
  }

  predicate StartsWith(s: string, prefix: string) {
    |prefix| <= |s| && s[..|prefix|] == prefix
  }

  /** `s` has `p` as a contiguous substring starting at `i`. */
  predicate OccursAt(s: string, p: string, i: int) {
    0 <= i && i + |p| <= |s| && s[i..i + |p|] == p
  }

  predicate Contains(s: string, p: string) {
    exists i :: 0 <= i <= |s| - |p| && OccursAt(s, p, i)
  }

  /** The character `j` places before the end of `s`. */
  function FromEnd(s: string, j: nat): char
    requires j < |s|
  {
    s[|s| - 1 - j]
  }

  /** Leading whitespace removed: what is kept is a suffix of `s`. */
  function TrimLeft(s: string): (r: string)
    ensures |r| <= |s| && forall j :: 0 <= j < |r| ==> FromEnd(r, j) == FromEnd(s, j)
    ensures r == [] || !IsSpace(r[0])
  {
    if s != [] && IsSpace(s[0]) then TrimLeft(s[1..]) else s
  }

  /** The characters `TrimLeft` keeps, by their position in `s`. */
  lemma TrimLeftAt(s: string, i: nat)
    requires i < |TrimLeft(s)|
    ensures TrimLeft(s)[i] == s[|s| - |TrimLeft(s)| + i]
  {
    var r := TrimLeft(s);
    assert FromEnd(r, |r| - 1 - i) == FromEnd(s, |r| - 1 - i);
  }

  /** Everything `TrimLeft` drops is whitespace. */
  lemma {:induction false} TrimLeftDropsSpaces(s: string)
    ensures forall i :: 0 <= i < |s| - |TrimLeft(s)| ==> IsSpace(s[i])
  {
    if s != [] && IsSpace(s[0]) {
      TrimLeftDropsSpaces(s[1..]);
    }
  }

  /** Trailing whitespace removed. */
  function TrimRight(s: string): (r: string)
    ensures |r| <= |s| && forall i :: 0 <= i < |r| ==> r[i] == s[i]
    ensures r == [] || !IsSpace(r[|r| - 1])
  {
    if s != [] && IsSpace(s[|s| - 1]) then TrimRight(s[..|s| - 1]) else s
  }

  /** Everything `TrimRight` drops is whitespace. */
  lemma {:induction false} TrimRightDropsSpaces(s: string)
    ensures forall i :: |TrimRight(s)| <= i < |s| ==> IsSpace(s[i])
  {
    if s != [] && IsSpace(s[|s| - 1]) {
      TrimRightDropsSpaces(s[..|s| - 1]);
    }
  }

  /** Ruby `strip`, JavaScript `trim`. */
  function Trim(s: string): (r: string)
    ensures r == [] || (!IsSpace(r[0]) && !IsSpace(r[|r| - 1]))
  {
    TrimRight(TrimLeft(s))
  }

  /** No whitespace at either end. */
  predicate Trimmed(s: string) {
    s == [] || (!IsSpace(s[0]) && !IsSpace(s[|s| - 1]))
  }

  /** A string that starts and ends with non-whitespace is its own trim. */
  lemma TrimIdentity(s: string)
    requires s != [] && !IsSpace(s[0]) && !IsSpace(s[|s| - 1])
    ensures Trim(s) == s
  {
    assert TrimLeft(s) == s;
  }

  /** Trimming yields the empty string exactly for blank input. */
  lemma TrimEmptyIffBlank(s: string)
    ensures Trim(s) == [] <==> IsBlank(s)
  {
    if IsBlank(s) {
      TrimLeftBlank(s);
    } else {
      var k :| 0 <= k < |s| && !IsSpace(s[k]);
      TrimLeftNonBlank(s, k);
      TrimRightKeepsNonSpace(TrimLeft(s));
    }
  }

  lemma TrimLeftBlank(s: string)
    requires IsBlank(s)
    ensures TrimLeft(s) == []
  {
    var l := TrimLeft(s);
    if l != [] {
      TrimLeftAt(s, 0);
      assert false;
    }
  }

  lemma TrimLeftNonBlank(s: string, k: int)
    requires 0 <= k < |s| && !IsSpace(s[k])
    ensures TrimLeft(s) != []
  {
    var l := TrimLeft(s);
    TrimLeftDropsSpaces(s);
    assert k >= |s| - |l|;
  }

  lemma TrimRightKeepsNonSpace(l: string)
    requires l != [] && !IsSpace(l[0])
    ensures TrimRight(l) != []
  {
  }

  /**
   * Every field between occurrences of `sep`, empty ones included; this is
   * JavaScript `s.split(sep)`, and the field list before Ruby drops its
   * trailing empty fields.
   */
  function SplitAll(s: string, sep: char): (fields: seq<string>)
    ensures |fields| >= 1
    ensures forall k, i :: 0 <= k < |fields| && 0 <= i < |fields[k]| ==> fields[k][i] != sep
  {
    if s == [] then [""]
    else if s[0] == sep then [""] + SplitAll(s[1..], sep)
    else
      var rest := SplitAll(s[1..], sep);
      [[s[0]] + rest[0]] + rest[1..]
  }

  function Join(fields: seq<string>, sep: char): string
    requires |fields| >= 1
  {
    if |fields| == 1 then fields[0] else fields[0] + [sep] + Join(fields[1..], sep)
  }

  /** Splitting loses nothing: joining the fields with the separator rebuilds the input. */
  lemma {:induction false} JoinSplitAll(s: string, sep: char)
    ensures Join(SplitAll(s, sep), sep) == s
  {
    if s == [] {
    } else if s[0] == sep {
      JoinSplitAll(s[1..], sep);
      assert s == [sep] + s[1..];
    } else {
      var rest := SplitAll(s[1..], sep);
      JoinSplitAll(s[1..], sep);
      if |rest| == 1 {
        assert s == [s[0]] + s[1..];
      } else {
        assert Join(rest, sep) == rest[0] + [sep] + Join(rest[1..], sep);
        assert ([[s[0]] + rest[0]] + rest[1..])[1..] == rest[1..];
        assert s == [s[0]] + s[1..];
      }
    }
  }

  /** A string without the separator is a single field. */
  lemma {:induction false} SplitAllNoSep(s: string, sep: char)
    requires sep !in s
    ensures SplitAll(s, sep) == [s]
  {
    if s != [] {
      SplitAllNoSep(s[1..], sep);
      assert s == [s[0]] + s[1..];
    }
  }

  /** A separator-free head becomes the first field, the rest is split on its own. */
  lemma {:induction false} SplitAllCons(head: string, sep: char, tail: string)
    requires sep !in head
    ensures SplitAll(head + [sep] + tail, sep) == [head] + SplitAll(tail, sep)
  {
    var s := head + [sep] + tail;
    if head == [] {
      assert s == [sep] + tail;
      assert s[1..] == tail;
    } else {
      assert s[1..] == head[1..] + [sep] + tail;
      SplitAllCons(head[1..], sep, tail);
      assert [s[0]] + head[1..] == head;
    }
  }

  /** Removes the empty fields at the end of a field list. */
  function DropTrailingEmpty(fields: seq<string>): (r: seq<string>)
    ensures |r| <= |fields| && forall k :: 0 <= k < |r| ==> r[k] == fields[k]
    ensures r == [] || r[|r| - 1] != ""
    ensures forall k :: |r| <= k < |fields| ==> fields[k] == ""
  {
    if fields != [] && fields[|fields| - 1] == "" then DropTrailingEmpty(fields[..|fields| - 1]) else fields
  }

  /** Ruby `s.split(sep)` with a one-character string separator. */
  function RubySplit(s: string, sep: char): seq<string> {
    DropTrailingEmpty(SplitAll(s, sep))
  }

  function MapTrim(xs: seq<string>): (r: seq<string>)
    ensures |r| == |xs| && forall k {:trigger r[k]} :: 0 <= k < |xs| ==> r[k] == Trim(xs[k])
  {
    if xs == [] then [] else [Trim(xs[0])] + MapTrim(xs[1..])
  }

  /** The longest prefix of `s` free of whitespace. */
  function LeadingWord(s: string): (w: string)
    ensures |w| <= |s| && forall i :: 0 <= i < |w| ==> w[i] == s[i]
    ensures forall i :: 0 <= i < |w| ==> !IsSpace(w[i])
    ensures |w| == |s| || IsSpace(s[|w|])
  {
    if s == [] || IsSpace(s[0]) then [] else [s[0]] + LeadingWord(s[1..])
  }

  /** A non-empty run of non-whitespace characters. */
  predicate IsWord(w: string) {
    w != [] && forall i :: 0 <= i < |w| ==> !IsSpace(w[i])
  }

  /**
   * Ruby `s.split(' ')` (awk mode): the maximal runs of non-whitespace, in
   * order.
   */
  function Words(s: string): (ws: seq<string>)
    decreases |s|
  {
    var t := TrimLeft(s);
    if t == [] then []
    else
      var w := LeadingWord(t);
      assert w != [];
      var rest := t[|w|..];
      assert |rest| < |s|;
      [w] + Words(rest)
  }

  /** Each element of `Words(s)` is a word. */
  lemma {:induction false} WordsAreWords(s: string)
    ensures forall k :: 0 <= k < |Words(s)| ==> IsWord(Words(s)[k])
    decreases |s|
  {
    forall k | 0 <= k < |Words(s)|
      ensures IsWord(Words(s)[k])
    {
      WordAt(s, k);
    }
  }

  lemma {:induction false} WordAt(s: string, k: nat)
    requires k < |Words(s)|
    ensures IsWord(Words(s)[k])
    decreases |s|
  {
    var p, w0, rest := WordsUnfold(s);
    if k > 0 {
      WordAt(rest, k - 1);
    }
  }

  /** A string without a non-space character has no words; one with one has some. */
  lemma {:induction false} WordsEmptyIffBlank(s: string)
    ensures Words(s) == [] <==> IsBlank(s)
  {
    var t := TrimLeft(s);
    TrimLeftDropsSpaces(s);
    if t != [] {
      TrimLeftAt(s, 0);
      assert !IsSpace(s[|s| - |t|]);
    }
  }

  /** A word followed by nothing or by whitespace is the leading word. */
  lemma LeadingWordOf(w: string, rest: string)
    requires IsWord(w) && (rest == [] || IsSpace(rest[0]))
    ensures LeadingWord(w + rest) == w
  {
    var s := w + rest;
    if rest != [] {
      assert s[|w|] == rest[0];
    }
    var lw := LeadingWord(s);
    if |lw| < |w| {
      assert false;
    } else if |lw| > |w| {
      assert false;
    }
  }

  /** A single word is its own word list. */
  lemma WordsOfOne(b: string)
    requires IsWord(b)
    ensures Words(b) == [b]
  {
    assert TrimLeft(b) == b;
    LeadingWordOf(b, []);
    assert b + [] == b;
    assert b[|b|..] == [];
  }

  /** A word followed by one space is a word list of one. */
  lemma WordsOfOneTrailing(a: string)
    requires IsWord(a)
    ensures Words(a + " ") == [a]
  {
    var s := a + " ";
    assert TrimLeft(s) == s by {
      assert s[0] == a[0];
    }
    LeadingWordOf(a, " ");
    assert s[|a|..] == " ";
    WordsStep(s, a);
    WordsEmptyIffBlank(" ");
  }

  /** A word is never blank. */
  lemma WordNotBlank(w: string)
    requires IsWord(w)
    ensures !IsBlank(w)
  {
    assert !IsSpace(w[0]);
  }

  /** Leading whitespace does not change the words. */
  lemma WordsAfterSpace(b: string)
    requires IsWord(b)
    ensures Words(" " + b) == Words(b)
  {
    var t := " " + b;
    assert t[1..] == b;
    assert TrimLeft(t) == TrimLeft(b);
  }

  /** One step of `Words`: the leading word of the left-trimmed text, then the words of the remainder. */
  lemma WordsStep(s: string, w: string)
    requires TrimLeft(s) == s && s != [] && LeadingWord(s) == w
    ensures Words(s) == [w] + Words(s[|w|..])
  {
  }

  /** The first of two space-separated words comes off first. */
  lemma WordsOfTwoHead(a: string, b: string)
    requires IsWord(a) && IsWord(b)
    ensures Words(a + " " + b) == [a] + Words(" " + b)
  {
    var s := a + " " + b;
    var t := " " + b;
    assert a + t == s;
    assert TrimLeft(s) == s by {
      assert !IsSpace(s[0]);
    }
    assert LeadingWord(s) == a by {
      LeadingWordOf(a, t);
    }
    assert s[|a|..] == t;
    WordsStep(s, a);
  }

  /** Two words joined by one space split back into the two words. */
  lemma WordsOfTwo(a: string, b: string)
    requires IsWord(a) && IsWord(b)
    ensures Words(a + " " + b) == [a, b]
  {
    WordsOfTwoHead(a, b);
    WordsAfterSpace(b);
    WordsOfOne(b);
  }

  /**
   * `w` is the last whitespace-delimited run of `s`: it occurs at a word
   * boundary and only whitespace follows it.
   */
  predicate EndsWithWord(s: string, w: string) {
    exists i :: 0 <= i <= |s| - |w| && OccursAt(s, w, i) && IsBlank(s[i + |w|..]) && (i == 0 || IsSpace(s[i - 1]))
  }

  /** A word after a boundary and before trailing whitespace ends the string. */
  lemma EndsWithWordBase(p: string, w: string, r: string)
    requires IsWord(w) && IsBlank(r) && (p == [] || IsSpace(p[|p| - 1]))
    ensures EndsWithWord(p + w + r, w)
  {
    var s := p + w + r;
    assert s[|p|..|p| + |w|] == w;
    assert s[|p| + |w|..] == r;
    if p != [] {
      assert s[|p| - 1] == p[|p| - 1];
    }
    assert OccursAt(s, w, |p|);
  }

  /** Text in front of a string that starts with whitespace keeps its trailing word. */
  lemma EndsWithWordPrefix(p: string, r: string, w: string)
    requires EndsWithWord(r, w) && IsWord(w) && r != [] && IsSpace(r[0])
    ensures EndsWithWord(p + r, w)
  {
    var j :| 0 <= j <= |r| - |w| && OccursAt(r, w, j) && IsBlank(r[j + |w|..]) && (j == 0 || IsSpace(r[j - 1]));
    assert j != 0 by {
      assert r[j] == w[0];
    }
    var s := p + r;
    var i := |p| + j;
    assert s[i..i + |w|] == r[j..j + |w|];
    assert s[i + |w|..] == r[j + |w|..];
    assert s[i - 1] == r[j - 1];
    assert OccursAt(s, w, i);
  }

  /**
   * One step of `Words` as a decomposition of `s`: leading whitespace `p`,
   * the first word, then a remainder that is empty or starts with
   * whitespace.
   */
  lemma WordsUnfold(s: string) returns (p: string, w0: string, rest: string)
    requires Words(s) != []
    ensures s == p + w0 + rest && Words(s) == [w0] + Words(rest)
    ensures IsWord(w0) && (p == [] || IsSpace(p[|p| - 1])) && (rest == [] || IsSpace(rest[0]))
    ensures |rest| < |s|
  {
    var t := TrimLeft(s);
    TrimLeftSplit(s);
    p := s[..|s| - |t|];
    assert t != [];
    LeadingWordSplit(t);
    w0 := LeadingWord(t);
    rest := t[|w0|..];
    assert t == w0 + rest;
    assert s == p + t;
    SeqAssoc(p, w0, rest);
    assert Words(s) == [w0] + Words(rest);
  }

  /** `s` is the whitespace `TrimLeft` drops followed by what it keeps. */
  lemma TrimLeftSplit(s: string)
    ensures s == s[..|s| - |TrimLeft(s)|] + TrimLeft(s)
    ensures forall i :: 0 <= i < |s| - |TrimLeft(s)| ==> IsSpace(s[i])
  {
    var t := TrimLeft(s);
    var off := |s| - |t|;
    TrimLeftDropsSpaces(s);
    forall i | 0 <= i < |t|
      ensures s[off..][i] == t[i]
    {
    }
    assert s[off..] == t;
    assert s == s[..off] + s[off..];
  }

  /** A text starting with a non-space character begins with a word, followed by nothing or whitespace. */
  lemma LeadingWordSplit(t: string)
    requires t != [] && !IsSpace(t[0])
    ensures IsWord(LeadingWord(t)) && t == LeadingWord(t) + t[|LeadingWord(t)|..]
    ensures |LeadingWord(t)| == |t| || IsSpace(t[|LeadingWord(t)|])
  {
    var w := LeadingWord(t);
    assert w == [t[0]] + LeadingWord(t[1..]);
    assert t[..|w|] == w;
    assert t == t[..|w|] + t[|w|..];
  }

  /** The last element of `Words(s)` is the trailing word of `s`. */
  lemma {:induction false} WordsLastTrails(s: string)
    requires Words(s) != []
    ensures IsWord(Words(s)[|Words(s)| - 1]) && EndsWithWord(s, Words(s)[|Words(s)| - 1])
    decreases |s|
  {
    var p, w0, rest := WordsUnfold(s);
    if Words(rest) == [] {
      WordsEmptyIffBlank(rest);
      EndsWithWordBase(p, w0, rest);
    } else {
      WordsLastTrails(rest);
      var w := Words(rest)[|Words(rest)| - 1];
      assert w == Words(s)[|Words(s)| - 1];
      EndsWithWordPrefix(p + w0, rest, w);
    }
  }

  /**
   * JavaScript `s.replace(/c/g, '')`: no `c` is left, and every other
   * character occurs as often as before.
   */
  function RemoveAll(s: string, c: char): (r: string)
    ensures forall i :: 0 <= i < |r| ==> r[i] != c
    ensures forall x :: x != c ==> multiset(r)[x] == multiset(s)[x]
    ensures |r| <= |s|
  {
    if s == [] then []
    else
      assert s == [s[0]] + s[1..];
      (if s[0] == c then [] else [s[0]]) + RemoveAll(s[1..], c)
  }

  /**
   * Removal works piece by piece, so the other characters keep their
   * order: the text of `a + b` loses its `c`s in `a` and in `b` separately.
   */
  lemma {:induction false} RemoveAllAppend(a: string, b: string, c: char)
    ensures RemoveAll(a + b, c) == RemoveAll(a, c) + RemoveAll(b, c)
  {
    if a == [] {
      assert a + b == b;
    } else {
      var head := if a[0] == c then [] else [a[0]];
      assert (a + b)[0] == a[0];
      assert (a + b)[1..] == a[1..] + b;
      calc {
        RemoveAll(a + b, c);
        head + RemoveAll(a[1..] + b, c);
        { RemoveAllAppend(a[1..], b, c); }
        head + (RemoveAll(a[1..], c) + RemoveAll(b, c));
        (head + RemoveAll(a[1..], c)) + RemoveAll(b, c);
        RemoveAll(a, c) + RemoveAll(b, c);
      }
    }
  }

  /** A single character stays exactly when it is not the one removed. */
  lemma RemoveAllOne(x: char, c: char)
    ensures RemoveAll([x], c) == if x == c then [] else [x]
  {
    assert [x][1..] == [];
  }

  /** Concatenation of sequences is associative. */
  lemma SeqAssoc<T>(a: seq<T>, b: seq<T>, c: seq<T>)
    ensures (a + b) + c == a + (b + c)
  {
  }

  /** Concatenation of a list of strings. */
  function Concat(xs: seq<string>): string {
    if xs == [] then [] else xs[0] + Concat(xs[1..])
  }

  lemma {:induction false} ConcatAppend(xs: seq<string>, ys: seq<string>)
    ensures Concat(xs + ys) == Concat(xs) + Concat(ys)
  {
    if xs == [] {
      assert xs + ys == ys;
    } else {
      ConcatAppend(xs[1..], ys);
      assert (xs + ys)[1..] == xs[1..] + ys;
      assert Concat(xs + ys) == xs[0] + Concat(xs[1..] + ys);
      SeqAssoc(xs[0], Concat(xs[1..]), Concat(ys));
    }
  }

  /** The pieces before `n` and the pieces from `n` on make up the whole concatenation. */
  lemma {:induction false} ConcatSplit(chunks: seq<string>, n: nat)
    requires n <= |chunks|
    ensures Concat(chunks) == Concat(chunks[..n]) + Concat(chunks[n..])
  {
    assert chunks[..n] + chunks[n..] == chunks;
    ConcatAppend(chunks[..n], chunks[n..]);
  }

  /** One more piece extends the concatenation of the pieces before it by that piece. */
  lemma {:induction false} ConcatSnoc(chunks: seq<string>, k: nat)
    requires k < |chunks|
    ensures Concat(chunks[..k + 1]) == Concat(chunks[..k]) + chunks[k]
  {
    assert chunks[..k + 1] == chunks[..k] + [chunks[k]];
    ConcatAppend(chunks[..k], [chunks[k]]);
    assert Concat([chunks[k]]) == chunks[k] + Concat([]);
  }

  /** The value of a run of decimal digits, most significant first. */
  function DigitsValue(s: string): (n: nat)
    requires AllDigits(s)
  {
    if s == [] then 0 else DigitsValue(s[..|s| - 1]) * 10 + (s[|s| - 1] - '0') as int
  }

  /** The decimal rendering of a natural number (`Integer#to_s`). */
  function NatToString(n: nat): (s: string)
    ensures s != [] && AllDigits(s)
    decreases n
  {
    (if n < 10 then [] else NatToString(n / 10)) + [('0' as int + n % 10) as char]
  }

  /** `Integer#to_s`: a '-' sign before negative values. */
  function IntToString(n: int): string {
    if n < 0 then "-" + NatToString(-n) else NatToString(n)
  }

  /** Reading back a rendered natural number yields it again. */
  lemma {:induction false} DigitsValueNatToString(n: nat)
    ensures DigitsValue(NatToString(n)) == n
    decreases n
  {
    var s := NatToString(n);
    var last := ('0' as int + n % 10) as char;
    if n < 10 {
      assert s == [last];
      assert s[..0] == [];
    } else {
      DigitsValueNatToString(n / 10);
      assert s[..|s| - 1] == NatToString(n / 10);
    }
  }
  /** `Array#join(sep)`. */
  function JoinWith(xs: seq<string>, sep: string): string {
    if xs == [] then [] else if |xs| == 1 then xs[0] else xs[0] + sep + JoinWith(xs[1..], sep)
  }
}
