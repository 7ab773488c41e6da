/**
  Where Split cuts, said of the text alone: at every separator, and inside a run of letters and digits
  exactly before a capital that follows a small letter or digit or precedes a small letter.
 */
module SplitLaws {
  import opened StringCase

  // ----- separators

  /** s is t with the words ws in front; the last character read matters only inside a word. */
  ghost predicate After(s: Scan, t: Scan, ws: seq<string>) {
    s.words == ws + t.words && s.cur == t.cur && (s.cur != [] ==> s.prev == t.prev)
  }

  lemma {:induction false} AfterStep(s: Scan, t: Scan, ws: seq<string>, r: char)
    requires After(s, t, ws)
    ensures After(Step(s, r), Step(t, r), ws)
  {
    assert ws + (t.words + [t.cur]) == (ws + t.words) + [t.cur];
    if |t.cur| >= 2 {
      var w := t.cur[..|t.cur| - 1];
      assert ws + (t.words + [w]) == (ws + t.words) + [w];
    }
  }

  lemma {:induction false} AfterFold(s: Scan, t: Scan, ws: seq<string>, text: string)
    requires After(s, t, ws)
    ensures After(Fold(s, text), Fold(t, text), ws)
    decreases |text|
  {
    if text != [] {
      AfterStep(s, t, ws, text[0]);
      AfterFold(Step(s, text[0]), Step(t, text[0]), ws, text[1..]);
    }
  }

  /** A separator always ends a word: the two sides are split on their own. */
  lemma {:induction false} SplitsAtSeparators(a: string, c: char, b: string)
    requires IsSeparator(c)
    ensures Split(a + [c] + b) == Split(a) + Split(b)
  {
    var s := Fold(START, a);
    var mid := Step(s, c);
    assert Fold(START, a + [c] + b) == Fold(mid, b) by {
      FoldConcat(START, a + [c], b);
      FoldConcat(START, a, [c]);
      assert [c][1..] == [];
      assert Fold(s, [c]) == Fold(mid, []);
    }
    assert Push(s) + [] == Push(s);
    assert After(mid, START, Push(s));
    AfterFold(mid, START, Push(s), b);
    var t := Fold(START, b);
    assert Push(s) + (t.words + [t.cur]) == (Push(s) + t.words) + [t.cur];
  }

  // ----- inside a run of letters and digits

  predicate IsRun(t: string) {
    forall i :: 0 <= i < |t| ==> IsAlnum(t[i])
  }

  /** A word starts at position i: a capital after a small letter or digit, or before a small letter. */
  predicate Boundary(t: string, i: int) {
    0 < i < |t| && IsUpper(t[i]) && (!IsUpper(t[i - 1]) || (i + 1 < |t| && IsLower(t[i + 1])))
  }

  /** Where the words end, laid end to end. */
  function Ends(words: seq<string>): (r: set<nat>)
    ensures forall e :: e in r ==> e <= |Flat(words)|
    ensures words != [] ==> |Flat(words)| in r
  {
    if words == [] then {} else Ends(words[..|words| - 1]) + {|Flat(words)|}
  }

  lemma {:induction false} EndsAppend(words: seq<string>, w: string)
    ensures Ends(words + [w]) == Ends(words) + {|Flat(words)| + |w|} && |Flat(words + [w])| == |Flat(words)| + |w|
  {
    assert (words + [w])[..|words|] == words;
    FlatAppend(words, w);
  }

  /** A scan of the run t: cut exactly at the boundaries seen so far. */
  ghost predicate Scanned(t: string, s: Scan) {
    && Flat(s.words) + s.cur == t
    && (t != [] ==> s.cur != [] && s.prev == t[|t| - 1])
    && (forall i :: i in Ends(s.words) <==> Boundary(t, i))
  }

  /** What one more character makes a boundary: itself, or the capital before it. */
  lemma {:induction false} BoundaryAfter(t: string, r: char, i: int)
    ensures Boundary(t + [r], i) <==>
            || Boundary(t, i)
            || (i == |t| && t != [] && IsUpper(r) && !IsUpper(t[|t| - 1]))
            || (i == |t| - 1 && |t| >= 2 && IsLower(r) && IsUpper(t[|t| - 1]))
  {
  }

  lemma {:induction false} CurrentIs(t: string, s: Scan)
    requires Scanned(t, s) && t != []
    ensures |s.cur| == |t| - |Flat(s.words)| && forall i :: 0 <= i < |s.cur| ==> s.cur[i] == t[|Flat(s.words)| + i]
  {
    assert t == Flat(s.words) + s.cur;
  }

  lemma {:induction false} CutBeforeLast(t: string, s: Scan)
    requires Scanned(t, s) && |t| >= 2
    ensures |s.cur| == 1 <==> Boundary(t, |t| - 1)
  {
    CurrentIs(t, s);
    if s.words == [] { assert Flat(s.words) == []; }
  }

  /** The current word grows by a character that brings no boundary. */
  lemma {:induction false} Grow(t: string, s: Scan, r: char)
    requires Scanned(t, s) && IsAlnum(r)
    requires forall i :: Boundary(t + [r], i) <==> Boundary(t, i)
    ensures Scanned(t + [r], Scan(s.words, s.cur + [r], r))
  {
    assert Flat(s.words) + (s.cur + [r]) == t + [r];
  }

  /** The current word ends before the new character. */
  lemma {:induction false} StartNew(t: string, s: Scan, r: char)
    requires Scanned(t, s) && t != []
    requires forall i :: Boundary(t + [r], i) <==> Boundary(t, i) || i == |t|
    ensures Scanned(t + [r], Scan(s.words + [s.cur], [r], r))
  {
    CurrentIs(t, s);
    EndsAppend(s.words, s.cur);
    FlatAppend(s.words, s.cur);
  }

  /** The current word gives its last capital to a new one. */
  lemma {:induction false} GiveLast(t: string, s: Scan, r: char)
    requires Scanned(t, s) && |s.cur| >= 2
    requires forall i :: Boundary(t + [r], i) <==> Boundary(t, i) || i == |t| - 1
    ensures Scanned(t + [r], Scan(s.words + [s.cur[..|s.cur| - 1]], [s.cur[|s.cur| - 1], r], r))
  {
    var w, last := s.cur[..|s.cur| - 1], s.cur[|s.cur| - 1];
    assert t != [];
    CurrentIs(t, s);
    EndsAppend(s.words, w);
    FlatAppend(s.words, w);
    assert w + [last] == s.cur;
    assert Flat(s.words) + w + [last, r] == Flat(s.words) + s.cur + [r];
  }

  lemma {:induction false} UpperStep(t: string, s: Scan, r: char)
    requires Scanned(t, s) && IsRun(t) && IsUpper(r)
    ensures Scanned(t + [r], Step(s, r))
  {
    forall i ensures Boundary(t + [r], i) <==> Boundary(t, i) || (i == |t| && t != [] && !IsUpper(t[|t| - 1])) {
      BoundaryAfter(t, r, i);
    }
    if t != [] && !IsUpper(t[|t| - 1]) { StartNew(t, s, r); } else { Grow(t, s, r); }
  }

  lemma {:induction false} DigitStep(t: string, s: Scan, r: char)
    requires Scanned(t, s) && IsRun(t) && IsDigit(r)
    ensures Scanned(t + [r], Step(s, r))
  {
    forall i ensures Boundary(t + [r], i) <==> Boundary(t, i) {
      BoundaryAfter(t, r, i);
    }
    Grow(t, s, r);
  }

  /** An acronym is cut before its last capital exactly when that is a boundary the small letter brings. */
  lemma {:induction false} AcronymIff(t: string, s: Scan)
    requires Scanned(t, s) && IsRun(t)
    ensures Acronym(s) <==> |t| >= 2 && IsUpper(t[|t| - 1]) && !Boundary(t, |t| - 1)
  {
    if t != [] { CurrentIs(t, s); }
    if |t| >= 2 { CutBeforeLast(t, s); }
  }

  lemma {:induction false} LowerStep(t: string, s: Scan, r: char)
    requires Scanned(t, s) && IsRun(t) && IsLower(r)
    ensures Scanned(t + [r], Step(s, r))
  {
    forall i ensures Boundary(t + [r], i) <==> Boundary(t, i) || (i == |t| - 1 && |t| >= 2 && IsUpper(t[|t| - 1])) {
      BoundaryAfter(t, r, i);
    }
    AcronymIff(t, s);
    if Acronym(s) { GiveLast(t, s, r); } else { Grow(t, s, r); }
  }

  lemma {:induction false} ScanOfRun(t: string)
    requires IsRun(t)
    ensures Scanned(t, Fold(START, t))
  {
    if t == [] {
      assert Flat([]) == [];
    } else {
      var n := |t| - 1;
      var before, r := t[..n], t[n];
      ScanOfRun(before);
      FoldConcat(START, before, [r]);
      var s := Fold(START, before);
      assert [r][1..] == [] && Fold(s, [r]) == Fold(Step(s, r), []);
      assert t == before + [r];
      if IsUpper(r) {
        UpperStep(before, s, r);
      } else if IsDigit(r) {
        DigitStep(before, s, r);
      } else {
        LowerStep(before, s, r);
      }
    }
  }

  /** Together with SplitKeepsText this fixes the words of a run: they end exactly at its boundaries and at its end. */
  lemma {:induction false} SplitsAtBoundaries(t: string)
    requires IsRun(t) && t != []
    ensures Flat(Split(t)) == t
    ensures forall i :: i in Ends(Split(t)) <==> Boundary(t, i) || i == |t|
  {
    ScanOfRun(t);
    var s := Fold(START, t);
    EndsAppend(s.words, s.cur);
    FlatAppend(s.words, s.cur);
  }

  /** Capitals on both sides of a separator are two words. */
  lemma {:induction false} CapitalsAfterSeparator(a: string, b: string)
    requires IsRun(a) && IsRun(b) && a != [] && b != []
    requires (forall i :: 0 <= i < |a| ==> IsUpper(a[i])) && forall i :: 0 <= i < |b| ==> IsUpper(b[i])
    ensures Split(a + ['_'] + b) == [a, b]
  {
    SplitsAtSeparators(a, '_', b);
    AllCapitals(a);
    AllCapitals(b);
  }

  lemma {:induction false} AllCapitals(a: string)
    requires a != [] && forall i :: 0 <= i < |a| ==> IsUpper(a[i])
    ensures Split(a) == [a]
  {
    SplitsAtBoundaries(a);
    SplitKeepsText(a);
    var ws := Split(a);
    assert Flat([]) == [];
    if |ws| > 1 {
      var k := EarlierEnd(ws);
      assert false;
    } else {
      assert ws[..0] == [] && Flat(ws) == Flat([]) + ws[0] == ws[0];
      assert ws == [ws[0]];
    }
  }

  /** Of several words all but the last end before the text does. */
  lemma {:induction false} EarlierEnd(ws: seq<string>) returns (k: nat)
    requires |ws| > 1 && forall i :: 0 <= i < |ws| ==> IsWord(ws[i])
    ensures k in Ends(ws) && 0 < k < |Flat(ws)|
  {
    var n := |ws| - 1;
    FirstWord(ws[..n]);
    k := |Flat(ws[..n])|;
  }

  lemma {:induction false} FirstWord(ws: seq<string>)
    requires ws != [] && forall i :: 0 <= i < |ws| ==> IsWord(ws[i])
    ensures |Flat(ws)| > 0
  {
    assert Flat(ws) == Flat(ws[..|ws| - 1]) + ws[|ws| - 1];
  }

  // ----- the separators of the joined forms

  lemma {:induction false} JoinedCharacters(words: seq<string>, sep: char)
    requires forall i :: 0 <= i < |words| ==> IsLowerWord(words[i])
    ensures forall c :: c in Join(words, sep) ==> IsLower(c) || IsDigit(c) || c == sep
    ensures |words| > 1 ==> sep in Join(words, sep)
  {
    if |words| > 1 {
      JoinedCharacters(words[1..], sep);
    }
  }

  /** Snake is small letters, digits and underscores, Kebab with dashes instead; several words show the separator. */
  lemma {:induction false} SeparatorsOfForms(text: string)
    ensures forall c :: c in Snake(text) ==> IsLower(c) || IsDigit(c) || c == '_'
    ensures forall c :: c in Kebab(text) ==> IsLower(c) || IsDigit(c) || c == '-'
    ensures |Split(text)| > 1 ==> '_' in Snake(text) && '-' in Kebab(text)
  {
    var ws := Lowered(Split(text));
    SplitKeepsText(text);
    forall i | 0 <= i < |ws| ensures IsLowerWord(ws[i]) {
      LowerOfWord(Split(text)[i]);
    }
    JoinedCharacters(ws, '_');
    JoinedCharacters(ws, '-');
  }
}
