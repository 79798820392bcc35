/**
 * Keyword extraction: lower-case the text, delete every character that is
 * neither a word character nor white space, split on runs of white space,
 * keep the tokens longer than two characters that are not stop words, and
 * drop repetitions, keeping first occurrences in order.
 */
module Keywords {
  import opened Collections
  import opened Strings

  /**
   * The stop-word entry that was meant as the bullet "•" (U+2022) and is
   * stored as its UTF-8 bytes read as Windows-1252: U+00E2 U+20AC U+00A2.
   */
  const MisencodedBullet: string := "\U{00E2}\U{20AC}\U{00A2}"

  const StopWords: set<string> := {
    "i", "me", "my", "myself", "we", "our", "ours", "ourselves", "you", "your", "yours",
    "yourself", "yourselves", "he", "him", "his", "himself", "she", "her", "hers",
    "herself", "it", "its", "itself", "they", "them", "their", "theirs", "themselves",
    "what", "which", "who", "whom", "this", "that", "these", "those", "am", "is", "are",
    "was", "were", "be", "been", "being", "have", "has", "had", "having", "do", "does",
    "did", "doing", "a", "an", "the", "and", "but", "if", "or", "because", "as", "until",
    "while", "of", "at", "by", "for", "with", "about", "against", "between", "into",
    "through", "during", "before", "after", "above", "below", "to", "from", "up", "down",
    "in", "out", "on", "off", "over", "under", "again", "further", "then", "once", "here",
    "there", "when", "where", "why", "how", "all", "any", "both", "each", "few", "more",
    "most", "other", "some", "such", "no", "nor", "not", "only", "own", "same", "so",
    "than", "too", "very", "s", "t", "can", "will", "just", "don", "should", "now",
    "also", "use", "using", "new", "get", "like", MisencodedBullet
  }

  /** The characters `.replace(/[^\w\s]/g, '')` keeps. */
  predicate IsKept(c: char)
  {
    IsWordChar(c) || IsSpace(c)
  }

  /** The characters a keyword can consist of. */
  predicate IsKeywordChar(c: char)
  {
    ('a' <= c <= 'z') || ('0' <= c <= '9') || c == '_'
  }

  /** The filter applied to each token: longer than two characters and not a stop word. */
  predicate IsSignificant(w: string)
  {
    |w| > 2 && w !in StopWords
  }

  /** `text.toLowerCase().replace(/[^\w\s]/g, '')`. */
  function Normalize(text: string): (r: string)
    ensures |r| <= |text|
    ensures forall c :: c in r ==> IsKept(c) && c in ToLower(text)
    ensures IsSubsequence(r, ToLower(text))
    ensures forall i :: 0 <= i < |text| && IsKept(LowerChar(text[i])) ==> LowerChar(text[i]) in r
    ensures forall c :: IsKept(c) ==> multiset(r)[c] == multiset(ToLower(text))[c]
  {
    FilterIsSubsequence(ToLower(text), IsKept);
    var dropped := Filter(ToLower(text), (c: char) => !IsKept(c));
    FilterPartition(ToLower(text), IsKept, (c: char) => !IsKept(c));
    assert forall c :: IsKept(c) ==> c !in dropped;
    Filter(ToLower(text), IsKept)
  }

  /**
   * `s.split(/\s+/)`: the pieces between maximal runs of white space. A
   * leading or trailing run yields an empty first or last piece, and the
   * empty string yields one empty piece.
   */
  function Split(s: string): (r: seq<string>)
    ensures |r| >= 1
    ensures s != [] && IsSpace(s[0]) ==> r[0] == ""
    ensures s != [] && !IsSpace(s[0]) ==> r[0] != "" && r[0][0] == s[0]
  {
    if s == [] then [""]
    else
      var rest := Split(s[1..]);
      if !IsSpace(s[0]) then [[s[0]] + rest[0]] + rest[1..]
      else if |s| > 1 && IsSpace(s[1]) then rest
      else [""] + rest
  }

  /** The tokens of `text` that survive the length and stop-word filter, in text order. */
  function Tokens(text: string): (r: seq<string>)
    ensures forall w :: w in r ==> IsSignificant(w) && w in Split(Normalize(text))
    ensures forall w, c :: w in r && c in w ==> !IsSpace(c) && c in Normalize(text)
    ensures forall w :: w in Split(Normalize(text)) && IsSignificant(w) ==> w in r
  {
    SplitPieces(Normalize(text));
    Filter(Split(Normalize(text)), IsSignificant)
  }

  /** `extractKeywords(text)`. */
  function ExtractKeywords(text: string): (r: seq<string>)
    ensures text == "" ==> r == []
    ensures NoDuplicates(r)
    ensures forall w :: w in r ==> w in Tokens(text)
    ensures forall i :: 0 <= i < |Tokens(text)| ==> Tokens(text)[i] in r
    ensures forall w :: w in r ==> IsSignificant(w)
  {
    if text == "" then [] else Dedup(Tokens(text))
  }

  // ---------------------------------------------------------------------
  // What the pieces of a split are made of

  /** No piece of a split holds white space, and every character of a piece comes from the input. */
  lemma {:induction false} SplitPieces(s: string)
    ensures forall w, c :: w in Split(s) && c in w ==> c in s && !IsSpace(c)
  {
    if s != [] {
      SplitPieces(s[1..]);
      var rest := Split(s[1..]);
      forall w, c | w in Split(s) && c in w ensures c in s && !IsSpace(c) {
        if !IsSpace(s[0]) && w == [s[0]] + rest[0] {
          if c != s[0] {
            assert c in rest[0];
          }
        } else {
          assert w in rest;
        }
      }
    }
  }

  lemma NormalizedChars(text: string, c: char)
    requires c in Normalize(text) && !IsSpace(c)
    ensures IsKeywordChar(c)
  {
    ToLowerHasNoUpper(text, c);
  }

  /** Every keyword is made of lower-case ASCII letters, digits and underscores only. */
  lemma KeywordChars(text: string, w: string)
    requires w in ExtractKeywords(text)
    ensures forall c :: c in w ==> IsKeywordChar(c)
  {
    SplitPieces(Normalize(text));
    forall c | c in w ensures IsKeywordChar(c) {
      NormalizedChars(text, c);
    }
  }

  /** Keywords appear in the order of their first surviving occurrence in the text. */
  lemma KeywordOrder(text: string)
    ensures forall i, j :: 0 <= i < j < |ExtractKeywords(text)| ==>
      IndexOf(Tokens(text), ExtractKeywords(text)[i]) < IndexOf(Tokens(text), ExtractKeywords(text)[j])
  {
    if text != "" {
      DedupFirstOccurrenceOrder(Tokens(text));
    }
  }

  /**
   * The empty-input guard changes nothing: the pipeline alone already turns
   * "" into no keywords.
   */
  lemma EmptyGuardRedundant(text: string)
    ensures ExtractKeywords(text) == Dedup(Tokens(text))
  {
    assert Normalize("") == "";
  }

  /** Text made of white space only has no keywords. */
  lemma BlankHasNoKeywords(text: string)
    ensures IsBlank(text) ==> ExtractKeywords(text) == []
  {
    if IsBlank(text) {
      BlankTextHasNoTokens(text);
    }
  }

  lemma BlankTextHasNoTokens(text: string)
    requires IsBlank(text)
    ensures Tokens(text) == []
  {
    var n := Normalize(text);
    forall i | 0 <= i < |n| ensures IsSpace(n[i]) {
      assert n[i] in ToLower(text);
      var j :| 0 <= j < |ToLower(text)| && ToLower(text)[j] == n[i];
    }
    SplitBlank(n);
    FilterNone(Split(n), IsSignificant);
  }

  /** White space alone splits into empty pieces only. */
  lemma {:induction false} SplitBlank(s: string)
    requires IsBlank(s)
    ensures forall w :: w in Split(s) ==> w == ""
  {
    if s != [] {
      SplitBlank(s[1..]);
    }
  }

  // ---------------------------------------------------------------------
  // Case, punctuation and the bullet entry

  /** Upper-casing the text first does not change the keywords. */
  lemma ExtractIgnoresCase(text: string)
    ensures ExtractKeywords(ToUpper(text)) == ExtractKeywords(text)
  {
    ToLowerAfterToUpper(text);
  }

  /**
   * The misencoded bullet can never reach the stop-word test: the characters it
   * is made of are deleted before splitting. Dropping it from the stop words
   * leaves every token list as it is.
   */
  lemma BulletEntryUnreachable(text: string)
    ensures MisencodedBullet !in Split(Normalize(text))
    ensures Tokens(text) == Filter(Split(Normalize(text)), w => |w| > 2 && w !in StopWords - {MisencodedBullet})
  {
    SplitPieces(Normalize(text));
    if MisencodedBullet in Split(Normalize(text)) {
      var c := MisencodedBullet[0];
      assert c in MisencodedBullet;
      NormalizedChars(text, c);
      assert false;
    }
    FilterCongruent(Split(Normalize(text)), IsSignificant, w => |w| > 2 && w !in StopWords - {MisencodedBullet});
  }

  /**
   * Punctuation is deleted rather than turned into a separator: a character
   * that is neither a word character nor white space, between two runs of
   * keyword characters, glues them into one token.
   */
  lemma PunctuationIsDeleted(a: string, b: string, p: char)
    requires forall i :: 0 <= i < |a| ==> IsKeywordChar(a[i])
    requires forall i :: 0 <= i < |b| ==> IsKeywordChar(b[i])
    requires !IsKept(p) && !IsUpper(p)
    ensures Normalize(a + [p] + b) == a + b
    ensures ExtractKeywords(a + [p] + b) == if IsSignificant(a + b) then [a + b] else []
  {
    var text, w := a + [p] + b, a + b;
    NormalizeGlues(a, b, p);
    KeywordCharsKept(w);
    SplitWithoutSpace(w);
    assert Tokens(text) == Filter([w], IsSignificant);
    assert Filter([w], IsSignificant) == if IsSignificant(w) then [w] else [];
    assert Dedup([w]) == [w] by {
      assert [w][..0] == [];
    }
  }

  lemma NormalizeGlues(a: string, b: string, p: char)
    requires forall i :: 0 <= i < |a| ==> IsKeywordChar(a[i])
    requires forall i :: 0 <= i < |b| ==> IsKeywordChar(b[i])
    requires !IsKept(p) && !IsUpper(p)
    ensures Normalize(a + [p] + b) == a + b
  {
    var text := a + [p] + b;
    LowerFixed(text);
    KeywordCharsKept(a);
    KeywordCharsKept(b);
    assert Filter([p], IsKept) == [];
    calc {
      Normalize(text);
      Filter(text, IsKept);
      { FilterConcat(a + [p], b, IsKept); }
      Filter(a + [p], IsKept) + Filter(b, IsKept);
      { FilterConcat(a, [p], IsKept); }
      a + [] + b;
      { assert a + [] == a; }
      a + b;
    }
  }

  /** Lower-casing a string without upper-case ASCII letters changes nothing. */
  lemma LowerFixed(s: string)
    requires forall i :: 0 <= i < |s| ==> !IsUpper(s[i])
    ensures ToLower(s) == s
  {
  }

  /** A word made of keyword characters passes the punctuation filter untouched and holds no white space. */
  lemma KeywordCharsKept(w: string)
    requires forall i :: 0 <= i < |w| ==> IsKeywordChar(w[i])
    ensures Filter(w, IsKept) == w
    ensures forall c :: c in w ==> !IsSpace(c)
  {
    FilterKeepsAll(w, IsKept);
  }

  /** A string without white space splits into itself alone. */
  lemma {:induction false} SplitWithoutSpace(w: string)
    requires forall c :: c in w ==> !IsSpace(c)
    ensures Split(w) == [w]
  {
    if w != [] {
      SplitWithoutSpace(w[1..]);
      assert [w[0]] + w[1..] == w;
    }
  }

  // ---------------------------------------------------------------------
  // Splitting a concatenation

  /** A string that starts with white space splits into an empty first piece. */
  lemma SplitLeadingSpace(z: string)
    requires z != [] && IsSpace(z[0])
    ensures Split(z)[0] == ""
  {
    if |z| > 1 && IsSpace(z[1]) {
      SplitLeadingSpace(z[1..]);
    }
  }

  /**
   * Joining `a` and `b` with one white-space character `c`: the first piece of
   * `a` stays the first piece, and apart from it the pieces that pass a filter
   * rejecting "" are those of `a` followed by those of `b`.
   */
  lemma {:induction false} SplitAroundSpace(a: string, c: char, b: string, p: string -> bool)
    requires IsSpace(c) && !p("")
    ensures Split(a + [c] + b)[0] == Split(a)[0]
    ensures Filter(Split(a + [c] + b)[1..], p) == Filter(Split(a)[1..], p) + Filter(Split(b), p)
  {
    if a == [] {
      SplitAfterSpace(c, b, p);
    } else {
      SplitAroundSpace(a[1..], c, b, p);
      SplitStep(a, c, b, p);
    }
  }

  /** The induction step of `SplitAroundSpace`: from the tail of `a` to `a`. */
  lemma SplitStep(a: string, c: char, b: string, p: string -> bool)
    requires IsSpace(c) && !p("") && a != []
    requires Split(a[1..] + [c] + b)[0] == Split(a[1..])[0]
    requires Filter(Split(a[1..] + [c] + b)[1..], p) == Filter(Split(a[1..])[1..], p) + Filter(Split(b), p)
    ensures Split(a + [c] + b)[0] == Split(a)[0]
    ensures Filter(Split(a + [c] + b)[1..], p) == Filter(Split(a)[1..], p) + Filter(Split(b), p)
  {
    JoinedTail(a, c, b);
    SplitCases(a + [c] + b, a, Filter(Split(b), p), p);
  }

  /** The first characters and the tail of `a + [c] + b` for a non-empty `a`. */
  lemma JoinedTail(a: string, c: char, b: string)
    requires a != []
    ensures (a + [c] + b)[1..] == a[1..] + [c] + b
    ensures (a + [c] + b)[0] == a[0]
    ensures (a + [c] + b)[1] == if |a| == 1 then c else a[1]
  {
  }

  /**
   * `s` and `a` start with the same character, and when `a` has no second
   * character `s` goes on with white space; the relation between the splits
   * of their tails carries over to them.
   */
  lemma SplitCases(s: string, a: string, tail: seq<string>, p: string -> bool)
    requires |s| > 1 && a != [] && s[0] == a[0] && !p("")
    requires |a| == 1 ==> IsSpace(s[1])
    requires |a| > 1 ==> s[1] == a[1]
    requires Split(s[1..])[0] == Split(a[1..])[0]
    requires Filter(Split(s[1..])[1..], p) == Filter(Split(a[1..])[1..], p) + tail
    ensures Split(s)[0] == Split(a)[0]
    ensures Filter(Split(s)[1..], p) == Filter(Split(a)[1..], p) + tail
  {
    if !IsSpace(a[0]) {
      SplitStepWord(s, a, tail, p);
    } else if |a| == 1 {
      SplitStepLastSpace(s, a, tail, p);
    } else if IsSpace(a[1]) {
      SplitStepSpaceRun(s, a, tail, p);
    } else {
      SplitStepSpace(s, a, tail, p);
    }
  }

  /** The case of `SplitAroundSpace` with nothing before the space. */
  lemma SplitAfterSpace(c: char, b: string, p: string -> bool)
    requires IsSpace(c) && !p("")
    ensures Split([c] + b)[0] == ""
    ensures Filter(Split([c] + b)[1..], p) == Filter(Split(b), p)
  {
    var s := [c] + b;
    assert s[1..] == b;
    if |s| > 1 && IsSpace(s[1]) {
      SplitLeadingSpace(b);
      assert Split(b) == [""] + Split(b)[1..];
      FilterConcat([""], Split(b)[1..], p);
    }
  }

  /*
   * The four cases of the step. In each, `s` and `a` start with the same
   * character, and the hypotheses relate the splits of their tails.
   */

  /** A word character extends the first piece of both. */
  lemma SplitStepWord(s: string, a: string, tail: seq<string>, p: string -> bool)
    requires s != [] && a != [] && s[0] == a[0] && !IsSpace(a[0])
    requires Split(s[1..])[0] == Split(a[1..])[0]
    requires Filter(Split(s[1..])[1..], p) == Filter(Split(a[1..])[1..], p) + tail
    ensures Split(s)[0] == Split(a)[0]
    ensures Filter(Split(s)[1..], p) == Filter(Split(a)[1..], p) + tail
  {
  }

  /** `a` is a single white-space character and `s` continues with more white space. */
  lemma SplitStepLastSpace(s: string, a: string, tail: seq<string>, p: string -> bool)
    requires |s| > 1 && |a| == 1 && s[0] == a[0] && IsSpace(a[0]) && IsSpace(s[1]) && !p("")
    requires Split(s[1..])[0] == Split(a[1..])[0]
    requires Filter(Split(s[1..])[1..], p) == Filter(Split(a[1..])[1..], p) + tail
    ensures Split(s)[0] == Split(a)[0]
    ensures Filter(Split(s)[1..], p) == Filter(Split(a)[1..], p) + tail
  {
    assert a[1..] == [];
    assert Split(a) == ["", ""];
    assert Filter(Split(a)[1..], p) == Filter([""], p) == [];
    assert Filter(Split(a[1..])[1..], p) == Filter([], p) == [];
  }

  /** Both continue with white space: the leading space adds nothing. */
  lemma SplitStepSpaceRun(s: string, a: string, tail: seq<string>, p: string -> bool)
    requires |s| > 1 && |a| > 1 && s[0] == a[0] && s[1] == a[1] && IsSpace(a[0]) && IsSpace(a[1])
    requires Split(s[1..])[0] == Split(a[1..])[0]
    requires Filter(Split(s[1..])[1..], p) == Filter(Split(a[1..])[1..], p) + tail
    ensures Split(s)[0] == Split(a)[0]
    ensures Filter(Split(s)[1..], p) == Filter(Split(a)[1..], p) + tail
  {
  }

  /** Both continue with a word character: the leading space opens an empty first piece. */
  lemma SplitStepSpace(s: string, a: string, tail: seq<string>, p: string -> bool)
    requires |s| > 1 && |a| > 1 && s[0] == a[0] && s[1] == a[1] && IsSpace(a[0]) && !IsSpace(a[1]) && !p("")
    requires Split(s[1..])[0] == Split(a[1..])[0]
    requires Filter(Split(s[1..])[1..], p) == Filter(Split(a[1..])[1..], p) + tail
    ensures Split(s)[0] == Split(a)[0]
    ensures Filter(Split(s)[1..], p) == Filter(Split(a)[1..], p) + tail
  {
    var rs, ra := Split(s[1..]), Split(a[1..]);
    FilterSameHead(rs, ra, tail, p);
    assert Split(s) == [""] + rs && ([""] + rs)[1..] == rs;
    assert Split(a) == [""] + ra && ([""] + ra)[1..] == ra;
  }

  /** The pieces that pass a filter rejecting "" split over a white-space join. */
  lemma SplitConcat(a: string, c: char, b: string, p: string -> bool)
    requires IsSpace(c) && !p("")
    ensures Filter(Split(a + [c] + b), p) == Filter(Split(a), p) + Filter(Split(b), p)
  {
    SplitAroundSpace(a, c, b, p);
    FilterSameHead(Split(a + [c] + b), Split(a), Filter(Split(b), p), p);
  }

  lemma NormalizeConcat(x: string, y: string)
    ensures Normalize(x + " " + y) == Normalize(x) + " " + Normalize(y)
  {
    ToLowerConcat(x + " ", y);
    ToLowerConcat(x, " ");
    assert ToLower(" ") == " ";
    FilterConcat(ToLower(x) + " ", ToLower(y), IsKept);
    FilterConcat(ToLower(x), " ", IsKept);
    assert Filter(" ", IsKept) == " ";
  }

  /** Swapping two parts of a text leaves its keywords unchanged as a set. */
  lemma SwapSameKeywords(x: string, y: string, w: string)
    ensures w in ExtractKeywords(x + " " + y) <==> w in ExtractKeywords(y + " " + x)
  {
    TokensConcat(x, y);
    TokensConcat(y, x);
  }

  /** The tokens of two texts joined by a space are the tokens of the first followed by those of the second. */
  lemma TokensConcat(x: string, y: string)
    ensures Tokens(x + " " + y) == Tokens(x) + Tokens(y)
  {
    NormalizeConcat(x, y);
    assert Normalize(x) + " " + Normalize(y) == Normalize(x) + [' '] + Normalize(y);
    SplitConcat(Normalize(x), ' ', Normalize(y), IsSignificant);
  }

  // ---------------------------------------------------------------------
  // Extracting again from the keywords

  /** A keyword on its own is its only token. */
  lemma KeywordTokens(w: string)
    requires forall i :: 0 <= i < |w| ==> IsKeywordChar(w[i])
    requires IsSignificant(w)
    ensures Tokens(w) == [w]
  {
    LowerFixed(w);
    KeywordCharsKept(w);
    SplitWithoutSpace(w);
    assert [w][1..] == [];
  }

  /** Keywords joined by spaces split back into the same keywords. */
  lemma {:induction false} TokensOfKeywords(ks: seq<string>)
    requires forall k :: k in ks ==> IsSignificant(k) && forall c :: c in k ==> IsKeywordChar(c)
    ensures Tokens(Join(ks, " ")) == ks
  {
    if ks == [] {
      assert Normalize("") == "";
    } else {
      var k := ks[0];
      assert k in ks;
      assert forall i :: 0 <= i < |k| ==> IsKeywordChar(k[i]) by {
        assert forall i :: 0 <= i < |k| ==> k[i] in k;
      }
      KeywordTokens(k);
      if |ks| > 1 {
        assert forall x :: x in ks[1..] ==> x in ks;
        TokensOfKeywords(ks[1..]);
        TokensCons(k, ks[1..]);
        HeadTail(ks);
      }
    }
  }

  /** One more keyword in front of a joined list puts its tokens in front. */
  lemma TokensCons(k: string, rest: seq<string>)
    requires Tokens(k) == [k] && Tokens(Join(rest, " ")) == rest
    ensures Tokens(k + " " + Join(rest, " ")) == [k] + rest
  {
    TokensConcat(k, Join(rest, " "));
  }

  /** Extracting keywords from the keywords joined by spaces gives the same keywords, in the same order. */
  lemma ExtractKeywordsIdempotent(text: string)
    ensures ExtractKeywords(Join(ExtractKeywords(text), " ")) == ExtractKeywords(text)
  {
    var ks := ExtractKeywords(text);
    forall k | k in ks
      ensures IsSignificant(k) && forall c :: c in k ==> IsKeywordChar(c)
    {
      KeywordChars(text, k);
    }
    TokensOfKeywords(ks);
    DedupOfDistinct(ks);
  }
}
