/**
 * Splitting a message for speech (hooks/useTTS.ts): the text is cut into
 * maximal runs of ASCII letters and of everything else, so that each run
 * can be spoken with an English or a Korean voice. Speech synthesis
 * itself is not modelled.
 */
module UseTTS {
  /** `/[A-Za-z]/.test(ch)`: digits, spaces, punctuation and Hangul are not English. */
  predicate IsEnglishLetter(c: char) {
    ('A' <= c <= 'Z') || ('a' <= c <= 'z')
  }

  /** One run of text and whether it is spoken as English. */
  datatype Part = Part(text: string, isEnglish: bool)

  /** The texts of the parts, one after another. */
  function Joined(parts: seq<Part>): string {
    if parts == [] then [] else parts[0].text + Joined(parts[1..])
  }

  lemma {:induction false} JoinedSnoc(parts: seq<Part>, p: Part)
    ensures Joined(parts + [p]) == Joined(parts) + p.text
  {
    if parts == [] {
      assert parts + [p] == [p];
      assert [p][1..] == [];
    } else {
      assert (parts + [p])[1..] == parts[1..] + [p];
      JoinedSnoc(parts[1..], p);
    }
  }

  /** Every character of the part is of the part's class. */
  predicate Uniform(p: Part) {
    forall j :: 0 <= j < |p.text| ==> IsEnglishLetter(p.text[j]) == p.isEnglish
  }

  /**
   * `parts` cuts `content` into non-empty runs of one class each, and
   * neighbouring runs are of different classes.
   */
  predicate LanguageRuns(content: string, parts: seq<Part>) {
    Joined(parts) == content
    && (forall i :: 0 <= i < |parts| ==> parts[i].text != [] && Uniform(parts[i]))
    && (forall i :: 0 < i < |parts| ==> parts[i].isEnglish != parts[i - 1].isEnglish)
  }

  /**
   * `splitByLanguage`: the parts rebuild the content, none is empty, each
   * is of one class, neighbours alternate, and the first part's class is
   * that of the first character; empty content gives no part.
   */
  method SplitByLanguage(content: string) returns (parts: seq<Part>)
    ensures Joined(parts) == content
    ensures forall i :: 0 <= i < |parts| ==> parts[i].text != []
    ensures forall i :: 0 <= i < |parts| ==> Uniform(parts[i])
    ensures forall i :: 0 < i < |parts| ==> parts[i].isEnglish != parts[i - 1].isEnglish
    ensures parts == [] <==> content == []
    ensures content != [] ==> parts[0].isEnglish == IsEnglishLetter(content[0])
  {
    parts := [];
    var buffer := "";
    var isEnglish := content != [] && IsEnglishLetter(content[0]);
    for k := 0 to |content|
      invariant Scanned(content, k, parts, buffer, isEnglish)
    {
      var ch := content[k];
      var nowEnglish := IsEnglishLetter(ch);
      if nowEnglish != isEnglish && |buffer| > 0 {
        ScanCut(content, k, parts, buffer, isEnglish);
        parts := parts + [Part(buffer, isEnglish)];
        buffer := [ch];
        isEnglish := nowEnglish;
      } else {
        ScanExtend(content, k, parts, buffer, isEnglish);
        buffer := buffer + [ch];
      }
    }
    ScanEnd(content, parts, buffer, isEnglish);
    if |buffer| > 0 {
      parts := parts + [Part(buffer, isEnglish)];
    }
  }

  /**
   * The state of the loop after `k` characters: the finished parts and the
   * buffer rebuild the prefix read, the buffer is of the current class
   * and is empty only before the first character, and the finished parts
   * satisfy `LanguageRuns`, the last of a class other than the buffer's.
   */
  ghost predicate Scanned(content: string, k: nat, parts: seq<Part>, buffer: string, isEnglish: bool) {
    k <= |content|
    && Joined(parts) + buffer == content[..k]
    && (k > 0 ==> buffer != [])
    && (forall i :: 0 <= i < |parts| ==> parts[i].text != [] && Uniform(parts[i]))
    && Uniform(Part(buffer, isEnglish))
    && (forall i :: 0 < i < |parts| ==> parts[i].isEnglish != parts[i - 1].isEnglish)
    && (parts != [] ==> parts[|parts| - 1].isEnglish != isEnglish)
    && (content != [] ==> (if parts == [] then isEnglish else parts[0].isEnglish) == IsEnglishLetter(content[0]))
  }

  /** A character of the other class closes the buffer as a part and starts a new one. */
  lemma ScanCut(content: string, k: nat, parts: seq<Part>, buffer: string, isEnglish: bool)
    requires Scanned(content, k, parts, buffer, isEnglish) && k < |content|
    requires IsEnglishLetter(content[k]) != isEnglish && buffer != []
    ensures Scanned(content, k + 1, parts + [Part(buffer, isEnglish)], [content[k]], IsEnglishLetter(content[k]))
  {
    assert content[..k + 1] == content[..k] + [content[k]];
    JoinedSnoc(parts, Part(buffer, isEnglish));
  }

  /** A character of the buffer's class, or the first character, joins the buffer. */
  lemma ScanExtend(content: string, k: nat, parts: seq<Part>, buffer: string, isEnglish: bool)
    requires Scanned(content, k, parts, buffer, isEnglish) && k < |content|
    requires !(IsEnglishLetter(content[k]) != isEnglish && buffer != [])
    ensures Scanned(content, k + 1, parts, buffer + [content[k]], isEnglish)
  {
    assert content[..k + 1] == content[..k] + [content[k]];
    assert Joined(parts) + (buffer + [content[k]]) == (Joined(parts) + buffer) + [content[k]];
  }

  /** After the last character, closing a non-empty buffer completes the split. */
  lemma ScanEnd(content: string, parts: seq<Part>, buffer: string, isEnglish: bool)
    requires Scanned(content, |content|, parts, buffer, isEnglish)
    ensures buffer != [] ==> LanguageRuns(content, parts + [Part(buffer, isEnglish)])
    ensures buffer == [] ==> content == [] && parts == []
    ensures content != [] ==> (parts + [Part(buffer, isEnglish)])[0].isEnglish == IsEnglishLetter(content[0])
  {
    assert content[..|content|] == content;
    JoinedSnoc(parts, Part(buffer, isEnglish));
  }

  /** The first part of a split, and the split of what follows it. */
  lemma LanguageRunsTail(content: string, parts: seq<Part>)
    requires LanguageRuns(content, parts) && parts != []
    ensures |parts[0].text| <= |content| && content[..|parts[0].text|] == parts[0].text
    ensures LanguageRuns(content[|parts[0].text|..], parts[1..])
  {
    var n := |parts[0].text|;
    assert content == parts[0].text + Joined(parts[1..]);
    assert content[n..] == Joined(parts[1..]);
    forall i | 0 < i < |parts[1..]|
      ensures parts[1..][i].isEnglish != parts[1..][i - 1].isEnglish
    {
      assert parts[1..][i] == parts[i + 1] && parts[1..][i - 1] == parts[i];
    }
  }

  /** A split whose text is not empty has a first part, whose first character begins the text. */
  lemma LanguageRunsHead(content: string, parts: seq<Part>)
    requires LanguageRuns(content, parts) && content != []
    ensures parts != [] && parts[0].isEnglish == IsEnglishLetter(content[0])
  {
    assert parts == [] ==> Joined(parts) == [];
    LanguageRunsTail(content, parts);
    assert content[0] == parts[0].text[0];
  }

  /**
   * The properties of `SplitByLanguage` admit one answer only: the
   * maximal runs.
   */
  lemma {:induction false} LanguageRunsUnique(content: string, a: seq<Part>, b: seq<Part>)
    requires LanguageRuns(content, a) && LanguageRuns(content, b)
    ensures a == b
    decreases |content|
  {
    if content != [] {
      LanguageRunsHead(content, a);
      LanguageRunsHead(content, b);
      LanguageRunsTail(content, a);
      LanguageRunsTail(content, b);
      var n := |a[0].text|;
      RunBoundary(content, a, b);
      RunBoundary(content, b, a);
      assert a[0] == b[0];
      LanguageRunsUnique(content[n..], a[1..], b[1..]);
      assert a == [a[0]] + a[1..] && b == [b[0]] + b[1..];
    }
  }

  /** A first run reaches at least as far as any other split's first run. */
  lemma RunBoundary(content: string, a: seq<Part>, b: seq<Part>)
    requires LanguageRuns(content, a) && LanguageRuns(content, b) && content != []
    ensures |b[0].text| <= |a[0].text|
  {
    LanguageRunsHead(content, a);
    LanguageRunsHead(content, b);
    LanguageRunsTail(content, a);
    LanguageRunsTail(content, b);
    var n := |a[0].text|;
    if n < |content| {
      var rest := content[n..];
      LanguageRunsHead(rest, a[1..]);
      assert a[1..][0] == a[1];
      assert IsEnglishLetter(content[n]) != b[0].isEnglish;
      assert forall j :: 0 <= j < |b[0].text| ==> b[0].text[j] == content[j];
    }
  }
}
