/** Word splitting and case conversion of the stringcase package, on the ASCII letters and digits it handles. */
module StringCase {
  predicate IsUpper(c: char) { 'A' <= c <= 'Z' }

  predicate IsLower(c: char) { 'a' <= c <= 'z' }

  predicate IsDigit(c: char) { '0' <= c <= '9' }

  predicate IsLetter(c: char) { IsUpper(c) || IsLower(c) }

  predicate IsAlnum(c: char) { IsLetter(c) || IsDigit(c) }

  predicate IsSeparator(c: char) { c == '_' || c == '-' || c == ' ' || c == '.' }

  function LowerChar(c: char): (r: char)
    ensures IsAlnum(c) ==> IsLower(r) || IsDigit(r)
    ensures !IsUpper(c) ==> r == c
  {
    if IsUpper(c) then (c as int + 32) as char else c
  }

  function UpperChar(c: char): (r: char)
    ensures IsLetter(c) ==> IsUpper(r)
    ensures !IsLower(c) ==> r == c
    ensures LowerChar(r) == LowerChar(c)
  {
    if IsLower(c) then (c as int - 32) as char else c
  }

  function Lower(w: string): (r: string)
    ensures |r| == |w| && forall i :: 0 <= i < |w| ==> r[i] == LowerChar(w[i])
  {
    seq(|w|, i requires 0 <= i < |w| => LowerChar(w[i]))
  }

  function Title(w: string): (r: string)
    ensures |r| == |w|
    ensures w != [] ==> r[0] == UpperChar(LowerChar(w[0]))
    ensures forall i :: 1 <= i < |w| ==> r[i] == LowerChar(w[i])
  {
    if w == [] then [] else [UpperChar(Lower(w)[0])] + Lower(w)[1..]
  }

  // ----- Split

  datatype Scan = Scan(words: seq<string>, cur: string, prev: char)

  const START := Scan([], [], 0 as char)

  function Push(s: Scan): seq<string> {
    if s.cur != [] then s.words + [s.cur] else s.words
  }

  /** Two capitals and then a small letter: the second capital begins a word. */
  predicate Acronym(s: Scan) {
    |s.cur| >= 2 && IsUpper(s.prev) && IsUpper(s.cur[|s.cur| - 2])
  }

  function Step(s: Scan, r: char): Scan {
    if IsSeparator(r) then Scan(Push(s), [], r)
    else if IsUpper(r) then
      if s.cur != [] && (IsLower(s.prev) || IsDigit(s.prev)) then Scan(s.words + [s.cur], [r], r)
      else Scan(s.words, s.cur + [r], r)
    else if IsLower(r) then
      if Acronym(s) then Scan(s.words + [s.cur[..|s.cur| - 1]], [s.cur[|s.cur| - 1], r], r)
      else Scan(s.words, s.cur + [r], r)
    else if IsDigit(r) then Scan(s.words, s.cur + [r], r)
    else s.(prev := r)
  }

  function Fold(s: Scan, text: string): Scan
    decreases |text|
  {
    if text == [] then s else Fold(Step(s, text[0]), text[1..])
  }

  function Split(text: string): seq<string> {
    Push(Fold(START, text))
  }

  method SplitWords(text: string) returns (words: seq<string>)
    ensures words == Split(text)
  {
    words := [];
    var cur, prev := [], 0 as char;
    for i := 0 to |text|
      invariant Fold(Scan(words, cur, prev), text[i..]) == Fold(START, text)
    {
      var r := text[i];
      ghost var before := Scan(words, cur, prev);
      assert text[i..][1..] == text[i + 1..];
      if r == '_' || r == '-' || r == ' ' || r == '.' {
        if |cur| > 0 {
          words, cur := words + [cur], [];
        }
      } else if IsUpper(r) {
        if |cur| > 0 && (IsLower(prev) || IsDigit(prev)) {
          words, cur := words + [cur], [];
        }
        cur := cur + [r];
      } else if IsLower(r) {
        if |cur| > 1 && IsUpper(prev) && |cur| >= 2 && IsUpper(cur[|cur| - 2]) {
          var next := cur[|cur| - 1];
          words, cur := words + [cur[..|cur| - 1]], [next];
        }
        cur := cur + [r];
      } else if IsDigit(r) {
        cur := cur + [r];
      }
      prev := r;
      assert Scan(words, cur, prev) == Step(before, r);
    }
    if |cur| > 0 {
      words := words + [cur];
    }
  }

  lemma {:induction false} FoldConcat(s: Scan, a: string, b: string)
    ensures Fold(s, a + b) == Fold(Fold(s, a), b)
    decreases |a|
  {
    if a == [] {
      assert a + b == b;
    } else {
      FoldConcat(Step(s, a[0]), a[1..], b);
      assert (a + b)[1..] == a[1..] + b;
    }
  }

  // ----- the words are the input's letters and digits, in order

  function Alnums(text: string): string {
    if text == [] then [] else (if IsAlnum(text[0]) then [text[0]] else []) + Alnums(text[1..])
  }

  function Flat(words: seq<string>): string {
    if words == [] then [] else Flat(words[..|words| - 1]) + words[|words| - 1]
  }

  predicate IsWord(w: string) {
    w != [] && forall i :: 0 <= i < |w| ==> IsAlnum(w[i])
  }

  ghost predicate ScanInv(s: Scan) {
    (forall i :: 0 <= i < |s.words| ==> IsWord(s.words[i])) && (s.cur == [] || IsWord(s.cur))
  }

  lemma {:induction false} FlatAppend(words: seq<string>, w: string)
    ensures Flat(words + [w]) == Flat(words) + w
  {
    assert (words + [w])[..|words|] == words;
  }

  /** What the scanner has kept so far. */
  function Kept(s: Scan): string {
    Flat(s.words) + s.cur
  }

  function Keeps(r: char): string {
    if IsAlnum(r) then [r] else []
  }

  lemma {:induction false} Cut(words: seq<string>, a: string, b: string, whole: string)
    requires a + b == whole
    ensures Flat(words + [a]) + b == Flat(words) + whole
  {
    FlatAppend(words, a);
    assert Flat(words) + a + b == Flat(words) + (a + b);
  }

  lemma {:induction false} StepKeepsText(s: Scan, r: char)
    ensures Kept(Step(s, r)) == Kept(s) + Keeps(r)
  {
    var t := Step(s, r);
    var whole := s.cur + Keeps(r);
    assert Kept(s) + Keeps(r) == Flat(s.words) + whole;
    if t.words == s.words {
      assert t.cur == whole;
    } else {
      var a := t.words[|s.words|];
      assert t.words == s.words + [a];
      assert a + t.cur == whole;
      Cut(s.words, a, t.cur, whole);
    }
  }

  lemma {:induction false} StepKeepsWords(s: Scan, r: char)
    requires ScanInv(s)
    ensures ScanInv(Step(s, r))
  {
  }

  lemma {:induction false} FoldKeepsWords(s: Scan, text: string)
    requires ScanInv(s)
    ensures ScanInv(Fold(s, text))
    decreases |text|
  {
    if text != [] {
      StepKeepsWords(s, text[0]);
      FoldKeepsWords(Step(s, text[0]), text[1..]);
    }
  }

  lemma {:induction false} FoldKeepsText(s: Scan, text: string)
    ensures Kept(Fold(s, text)) == Kept(s) + Alnums(text)
    decreases |text|
  {
    if text == [] {
      assert Kept(s) + [] == Kept(s);
    } else {
      StepKeepsText(s, text[0]);
      FoldKeepsText(Step(s, text[0]), text[1..]);
      Assoc(Kept(s), Keeps(text[0]), Alnums(text[1..]));
    }
  }

  lemma {:induction false} Assoc(a: string, b: string, c: string)
    ensures a + b + c == a + (b + c)
  {
  }

  /** Words are non-empty and, laid end to end, are exactly the letters and digits of the input. */
  lemma {:induction false} SplitKeepsText(text: string)
    ensures Flat(Split(text)) == Alnums(text)
    ensures forall i :: 0 <= i < |Split(text)| ==> IsWord(Split(text)[i])
  {
    var s := Fold(START, text);
    assert Kept(s) == Alnums(text) by {
      FoldKeepsText(START, text);
      assert Kept(START) == [] && [] + Alnums(text) == Alnums(text);
    }
    assert ScanInv(s) by { FoldKeepsWords(START, text); }
    PushKeeps(s);
  }

  /** The word in progress at the end is pushed if there is one. */
  lemma {:induction false} PushKeeps(s: Scan)
    requires ScanInv(s)
    ensures Flat(Push(s)) == Kept(s)
    ensures forall i :: 0 <= i < |Push(s)| ==> IsWord(Push(s)[i])
  {
    if s.cur == [] {
      assert Flat(s.words) + [] == Flat(s.words);
    } else {
      FlatAppend(s.words, s.cur);
    }
  }

  // ----- Snake and Kebab

  function Lowered(words: seq<string>): (r: seq<string>)
    ensures |r| == |words| && forall i :: 0 <= i < |words| ==> r[i] == Lower(words[i])
  {
    seq(|words|, i requires 0 <= i < |words| => Lower(words[i]))
  }

  function Join(words: seq<string>, sep: char): string {
    if words == [] then []
    else if |words| == 1 then words[0]
    else words[0] + [sep] + Join(words[1..], sep)
  }

  function Snake(text: string): string {
    Join(Lowered(Split(text)), '_')
  }

  function Kebab(text: string): string {
    Join(Lowered(Split(text)), '-')
  }

  method LowerAndJoin(text: string, sep: char) returns (r: string)
    ensures r == Join(Lowered(Split(text)), sep)
  {
    var words := SplitWords(text);
    var out := new string[|words|];
    for i := 0 to |words|
      invariant forall k :: 0 <= k < i ==> out[k] == Lower(words[k])
    {
      out[i] := Lower(words[i]);
    }
    assert out[..] == Lowered(words);
    r := Join(out[..], sep);
  }

  /** A word as Lower leaves it: no capital in it. */
  predicate IsLowerWord(w: string) {
    w != [] && forall i :: 0 <= i < |w| ==> IsLower(w[i]) || IsDigit(w[i])
  }

  lemma {:induction false} Regather(cur: string, w: string)
    requires w != []
    ensures cur + [w[0]] + w[1..] == cur + w
  {
  }

  /** Small letters and digits only ever extend the current word. */
  lemma {:induction false} FoldLower(s: Scan, w: string)
    requires !IsUpper(s.prev) && forall i :: 0 <= i < |w| ==> IsLower(w[i]) || IsDigit(w[i])
    ensures Fold(s, w) == Scan(s.words, s.cur + w, if w == [] then s.prev else w[|w| - 1])
    decreases |w|
  {
    if w == [] {
      assert s.cur + w == s.cur;
    } else {
      var t := Step(s, w[0]);
      assert t == Scan(s.words, s.cur + [w[0]], w[0]);
      FoldLower(t, w[1..]);
      Regather(s.cur, w);
    }
  }

  lemma {:induction false} FoldJoin(s: Scan, words: seq<string>, sep: char)
    requires IsSeparator(sep) && !IsUpper(s.prev) && s.cur == [] && words != []
    requires forall i :: 0 <= i < |words| ==> IsLowerWord(words[i])
    ensures Push(Fold(s, Join(words, sep))) == s.words + words
    decreases |words|
  {
    var w := words[0];
    FoldLower(s, w);
    assert [] + w == w;
    if |words| == 1 {
      assert words == [w];
    } else {
      var rest := Join(words[1..], sep);
      var afterSep := Scan(s.words + [w], [], sep);
      assert Fold(s, w + [sep] + rest) == Fold(afterSep, rest) by {
        FoldConcat(s, w + [sep], rest);
        FoldConcat(s, w, [sep]);
        assert Fold(Fold(s, w), [sep]) == Step(Fold(s, w), sep);
      }
      FoldJoin(afterSep, words[1..], sep);
      assert s.words + [w] + words[1..] == s.words + words;
    }
  }

  lemma {:induction false} LowerOfWord(w: string)
    requires IsWord(w)
    ensures IsLowerWord(Lower(w)) && Lower(Lower(w)) == Lower(w)
  {
  }

  /** Splitting the joined lower-case words gives them back, whatever the input was. */
  lemma {:induction false} SplitOfJoined(text: string, sep: char)
    requires IsSeparator(sep)
    ensures Split(Join(Lowered(Split(text)), sep)) == Lowered(Split(text))
  {
    var ws := Lowered(Split(text));
    SplitKeepsText(text);
    forall i | 0 <= i < |ws| ensures IsLowerWord(ws[i]) {
      LowerOfWord(Split(text)[i]);
    }
    if ws != [] {
      FoldJoin(START, ws, sep);
      assert [] + ws == ws;
    }
  }

  /** Snake and Kebab undo nothing the second time. */
  lemma {:induction false} SnakeKebabIdempotent(text: string)
    ensures Split(Snake(text)) == Lowered(Split(text)) && Snake(Snake(text)) == Snake(text)
    ensures Split(Kebab(text)) == Lowered(Split(text)) && Kebab(Kebab(text)) == Kebab(text)
  {
    SplitOfJoined(text, '_');
    SplitOfJoined(text, '-');
    SplitKeepsText(text);
    var ws := Split(text);
    forall i | 0 <= i < |ws| ensures Lower(Lower(ws[i])) == Lower(ws[i]) {
      LowerOfWord(ws[i]);
    }
    assert Lowered(Lowered(ws)) == Lowered(ws);
  }

  // ----- Pascal and Camel

  function Titled(words: seq<string>): (r: seq<string>)
    ensures |r| == |words| && forall i :: 0 <= i < |words| ==> r[i] == Title(words[i])
  {
    seq(|words|, i requires 0 <= i < |words| => Title(words[i]))
  }

  /** The words of a title-cased run, end to end. */
  function Titles(words: seq<string>): string {
    if words == [] then [] else Title(words[0]) + Titles(words[1..])
  }

  function Pascal(text: string): string {
    Titles(Split(text))
  }

  function Camel(text: string): string {
    var ws := Split(text);
    if ws == [] then [] else Lower(ws[0]) + Titles(ws[1..])
  }

  lemma {:induction false} TitlesStep(r: string, words: seq<string>, i: nat)
    requires i < |words|
    ensures r + Titles(words[i..]) == (r + Title(words[i])) + Titles(words[i + 1..])
  {
    assert words[i..][1..] == words[i + 1..];
  }

  method ToPascal(text: string) returns (r: string)
    ensures r == Pascal(text)
  {
    var words := SplitWords(text);
    r := [];
    for i := 0 to |words|
      invariant r + Titles(words[i..]) == Titles(words)
    {
      TitlesStep(r, words, i);
      r := r + Title(words[i]);
    }
  }

  method ToCamel(text: string) returns (r: string)
    ensures r == Camel(text)
  {
    var words := SplitWords(text);
    if words == [] {
      return [];
    }
    ghost var want := Lower(words[0]) + Titles(words[1..]);
    r := Lower(words[0]);
    for i := 1 to |words|
      invariant r + Titles(words[i..]) == want
    {
      TitlesStep(r, words, i);
      r := r + Title(words[i]);
    }
    assert r == want;
  }

  /** Whether a titled word w, coming after the character prev, is seen as a new word. */
  predicate Breaks(prev: char, w: string) {
    w != [] && IsLetter(w[0]) && (!IsUpper(prev) || (|w| >= 2 && IsLetter(w[1])))
  }

  function Last(w: string): char {
    if w == [] then 0 as char else w[|w| - 1]
  }

  /** A word in progress and the last character read. */
  ghost predicate InWord(s: Scan) {
    IsWord(s.cur) && s.prev == Last(s.cur)
  }

  function After(s: Scan, w: string): Scan {
    var t := Title(w);
    if w == [] then s
    else if Breaks(s.prev, w) then Scan(s.words + [s.cur], t, Last(t)) else Scan(s.words, s.cur + t, Last(t))
  }

  lemma {:induction false} TitleShape(w: string)
    requires IsWord(w)
    ensures IsWord(Title(w))
    ensures IsUpper(Title(w)[0]) <==> IsLetter(w[0])
    ensures IsLetter(w[0]) || (IsDigit(w[0]) && Title(w)[0] == w[0])
    ensures forall i :: 1 <= i < |w| ==> (if IsLetter(w[i]) then IsLower(Title(w)[i]) else IsDigit(Title(w)[i]))
  {
  }

  /** The tail of a titled word only extends the current word, unless it ends an acronym. */
  lemma {:induction false} FoldTail(s: Scan, t: string)
    requires t != [] && s.cur != [] && s.prev == t[0]
    requires forall i :: 1 <= i < |t| ==> IsLower(t[i]) || IsDigit(t[i])
    requires !Acronym(s) || |t| == 1 || IsDigit(t[1])
    ensures Fold(s, t[1..]) == Scan(s.words, s.cur + t[1..], t[|t| - 1])
  {
    var tail := t[1..];
    if tail == [] {
      assert s.cur + [] == s.cur;
    } else {
      FoldLower(Step(s, tail[0]), tail[1..]);
      Regather(s.cur, tail);
    }
  }

  /** An acronym is pending: the first letter of t moves to the new word. */
  lemma {:induction false} FoldAcronym(s: Scan, t: string)
    requires InWord(s) && IsUpper(s.prev) && |t| >= 2 && IsUpper(t[0]) && IsLower(t[1])
    requires forall i :: 1 <= i < |t| ==> IsLower(t[i]) || IsDigit(t[i])
    ensures Fold(s, t) == Scan(s.words + [s.cur], t, t[|t| - 1])
  {
    var s1 := Step(s, t[0]);
    assert s1 == Scan(s.words, s.cur + [t[0]], t[0]);
    assert s1.cur[..|s.cur|] == s.cur;
    var s2 := Step(s1, t[1]);
    assert s2 == Scan(s.words + [s.cur], [t[0], t[1]], t[1]);
    FoldLower(s2, t[2..]);
    assert t[1..][1..] == t[2..] && [t[0], t[1]] + t[2..] == t;
  }

  /** Reading a titled word in the middle of another: it starts a new word or is swallowed. */
  lemma {:induction false} FoldTitle(s: Scan, w: string)
    requires InWord(s) && IsWord(w)
    ensures Fold(s, Title(w)) == After(s, w)
  {
    var t := Title(w);
    TitleShape(w);
    if IsLetter(w[0]) && IsUpper(s.prev) && |w| >= 2 && IsLetter(w[1]) {
      FoldAcronym(s, t);
    } else {
      FoldTail(Step(s, t[0]), t);
      if Breaks(s.prev, w) {
        assert [t[0]] + t[1..] == t;
      } else {
        Regather(s.cur, t);
      }
    }
  }

  lemma {:induction false} AfterInWord(s: Scan, w: string)
    requires InWord(s) && IsWord(w)
    ensures InWord(After(s, w))
  {
    TitleShape(w);
    var t := Title(w);
    assert (s.cur + t)[|s.cur| + |t| - 1] == t[|t| - 1];
  }

  /** The words a reader sees when titled words ws follow the unfinished word cur. */
  function Seen(cur: string, ws: seq<string>): seq<string>
    decreases |ws|
  {
    if ws == [] then [cur]
    else if Breaks(Last(cur), ws[0]) then [cur] + Seen(Title(ws[0]), ws[1..])
    else Seen(cur + Title(ws[0]), ws[1..])
  }

  lemma {:induction false} SeenStep(s: Scan, ws: seq<string>)
    requires InWord(s) && ws != [] && ws[0] != []
    ensures var t := After(s, ws[0]); t.words + Seen(t.cur, ws[1..]) == s.words + Seen(s.cur, ws)
  {
    var t := After(s, ws[0]);
    if Breaks(s.prev, ws[0]) {
      assert s.words + [s.cur] + Seen(t.cur, ws[1..]) == s.words + ([s.cur] + Seen(t.cur, ws[1..]));
    }
  }

  lemma {:induction false} FoldTitles(s: Scan, ws: seq<string>)
    requires InWord(s) && forall i :: 0 <= i < |ws| ==> IsWord(ws[i])
    ensures Push(Fold(s, Titles(ws))) == s.words + Seen(s.cur, ws)
    decreases |ws|
  {
    if ws != [] {
      var t := After(s, ws[0]);
      assert Fold(s, Titles(ws)) == Fold(t, Titles(ws[1..])) by {
        FoldConcat(s, Title(ws[0]), Titles(ws[1..]));
        FoldTitle(s, ws[0]);
      }
      AfterInWord(s, ws[0]);
      FoldTitles(t, ws[1..]);
      SeenStep(s, ws);
    }
  }

  // ----- exactly when Pascal and Camel can be split back

  /** Between consecutive words u and v a titled v starts a new word. */
  predicate Separates(u: string, v: string) {
    u != [] && v != [] && IsLetter(v[0]) && (|u| >= 2 || IsDigit(u[0]) || (|v| >= 2 && IsLetter(v[1])))
  }

  ghost predicate AllSeparate(ws: seq<string>) {
    forall i :: 0 <= i < |ws| - 1 ==> Separates(ws[i], ws[i + 1])
  }

  ghost predicate AllBreak(prev: char, ws: seq<string>) {
    (ws != [] ==> Breaks(prev, ws[0])) && AllSeparate(ws)
  }

  lemma {:induction false} BreaksAfterTitle(u: string, v: string)
    requires IsWord(u) && IsWord(v)
    ensures Breaks(Last(Title(u)), v) <==> Separates(u, v)
  {
    TitleShape(u);
  }

  lemma {:induction false} SeparateTail(ws: seq<string>)
    requires ws != []
    ensures AllSeparate(ws) <==> (|ws| > 1 ==> Separates(ws[0], ws[1])) && AllSeparate(ws[1..])
  {
    var rest := ws[1..];
    if AllSeparate(rest) && (|ws| > 1 ==> Separates(ws[0], ws[1])) {
      forall i | 0 <= i < |ws| - 1 ensures Separates(ws[i], ws[i + 1]) {
        if i > 0 { assert Separates(rest[i - 1], rest[i]); }
      }
    }
    if AllSeparate(ws) {
      forall i | 0 <= i < |rest| - 1 ensures Separates(rest[i], rest[i + 1]) {
        assert Separates(ws[i + 1], ws[i + 2]);
      }
    }
  }

  lemma {:induction false} AllBreakTail(prev: char, ws: seq<string>)
    requires ws != [] && forall i :: 0 <= i < |ws| ==> IsWord(ws[i])
    ensures AllBreak(prev, ws) <==> Breaks(prev, ws[0]) && AllBreak(Last(Title(ws[0])), ws[1..])
  {
    SeparateTail(ws);
    if |ws| > 1 { BreaksAfterTitle(ws[0], ws[1]); }
  }

  lemma {:induction false} LastOfConcat(a: string, b: string)
    requires b != []
    ensures Last(a + b) == Last(b)
  {
  }

  /** When every titled word starts anew the reader sees each of them. */
  lemma {:induction false} SeenAll(cur: string, ws: seq<string>)
    requires AllBreak(Last(cur), ws) && forall i :: 0 <= i < |ws| ==> IsWord(ws[i])
    ensures Seen(cur, ws) == [cur] + Titled(ws)
    decreases |ws|
  {
    if ws == [] {
      assert [cur] + [] == [cur];
    } else {
      AllBreakTail(Last(cur), ws);
      SeenAll(Title(ws[0]), ws[1..]);
      assert [Title(ws[0])] + Titled(ws[1..]) == Titled(ws);
    }
  }

  /** Otherwise the reader sees fewer words. */
  lemma {:induction false} SeenFewer(cur: string, ws: seq<string>)
    requires forall i :: 0 <= i < |ws| ==> IsWord(ws[i])
    ensures |Seen(cur, ws)| <= 1 + |ws|
    ensures !AllBreak(Last(cur), ws) ==> |Seen(cur, ws)| < 1 + |ws|
    decreases |ws|
  {
    if ws != [] {
      AllBreakTail(Last(cur), ws);
      LastOfConcat(cur, Title(ws[0]));
      SeenFewer(if Breaks(Last(cur), ws[0]) then Title(ws[0]) else cur + Title(ws[0]), ws[1..]);
    }
  }

  lemma {:induction false} LowerOfTitle(w: string)
    ensures Lower(Title(w)) == Lower(w)
  {
    forall i | 0 <= i < |w| ensures Lower(Title(w))[i] == Lower(w)[i] {
      assert Lower(w)[i] == LowerChar(w[i]);
      if i == 0 { assert LowerChar(LowerChar(w[0])) == LowerChar(w[0]); }
    }
  }

  lemma {:induction false} LoweredOfTitled(ws: seq<string>)
    ensures Lowered(Titled(ws)) == Lowered(ws)
  {
    forall i | 0 <= i < |ws| ensures Lowered(Titled(ws))[i] == Lowered(ws)[i] {
      LowerOfTitle(ws[i]);
    }
  }

  lemma {:induction false} LoweredCons(w: string, ws: seq<string>)
    ensures Lowered([w] + ws) == [Lower(w)] + Lowered(ws)
  {
  }

  /** Reading a first word, then titled words: the words come back, up to case, exactly when all break. */
  lemma {:induction false} ReadBackIff(first: string, ws: seq<string>)
    requires ws != [] && forall i :: 0 <= i < |ws| ==> IsWord(ws[i])
    requires IsWord(first) && Lower(first) == Lower(ws[0])
    requires Fold(START, first) == Scan([], first, Last(first))
    ensures Lowered(Split(first + Titles(ws[1..]))) == Lowered(ws) <==> AllBreak(Last(first), ws[1..])
  {
    var rest := ws[1..];
    assert Split(first + Titles(rest)) == Seen(first, rest) by {
      FoldConcat(START, first, Titles(rest));
      FoldTitles(Scan([], first, Last(first)), rest);
      assert [] + Seen(first, rest) == Seen(first, rest);
    }
    if AllBreak(Last(first), rest) {
      SeenAll(first, rest);
      LoweredOfTitled(rest);
      LoweredCons(first, Titled(rest));
      LoweredCons(ws[0], rest);
      assert ws == [ws[0]] + rest;
    } else {
      SeenFewer(first, rest);
    }
  }

  lemma {:induction false} FoldFirstTitle(w: string)
    requires IsWord(w)
    ensures Fold(START, Title(w)) == Scan([], Title(w), Last(Title(w)))
  {
    var t := Title(w);
    TitleShape(w);
    var s := Step(START, t[0]);
    assert s == Scan([], [t[0]], t[0]);
    assert Fold(START, t) == Fold(s, t[1..]);
    FoldTail(s, t);
    assert [t[0]] + t[1..] == t;
  }

  /** Split after Pascal recovers the words, up to case, iff each titled word can be told from the one before. */
  lemma {:induction false} PascalRoundTripIff(text: string)
    ensures Lowered(Split(Pascal(text))) == Lowered(Split(text)) <==> AllSeparate(Split(text))
  {
    var ws := Split(text);
    SplitKeepsText(text);
    if ws != [] {
      var t := Title(ws[0]);
      TitleShape(ws[0]);
      LowerOfTitle(ws[0]);
      FoldFirstTitle(ws[0]);
      ReadBackIff(t, ws);
      AllBreakFirst(ws);
    }
  }

  lemma {:induction false} AllBreakFirst(ws: seq<string>)
    requires ws != [] && forall i :: 0 <= i < |ws| ==> IsWord(ws[i])
    ensures AllBreak(Last(Title(ws[0])), ws[1..]) <==> AllSeparate(ws)
  {
    SeparateTail(ws);
    if |ws| > 1 { BreaksAfterTitle(ws[0], ws[1]); }
  }

  /** Camel's first word ends in no capital, so there the next word need only start with a letter. */
  lemma {:induction false} CamelRoundTripIff(text: string)
    ensures var ws := Split(text);
      Lowered(Split(Camel(text))) == Lowered(ws) <==>
      ws == [] || ((|ws| > 1 ==> ws[1] != [] && IsLetter(ws[1][0])) && AllSeparate(ws[1..]))
  {
    var ws := Split(text);
    SplitKeepsText(text);
    if ws != [] {
      var t := Lower(ws[0]);
      LowerOfWord(ws[0]);
      FoldLower(START, t);
      assert [] + t == t;
      ReadBackIff(t, ws);
    }
  }

  /** Two one-letter words run together as capitals. */
  lemma {:induction false} PascalMerges()
    ensures Split("a_b") == ["a", "b"] && Pascal("a_b") == "AB" && Split("AB") == ["AB"]
    ensures Lowered(Split(Pascal("a_b"))) != Lowered(Split("a_b"))
  {
    SplitOfPair('b');
    TitlesOfTwo("a", "b");
    assert Title("a") == "A" && Title("b") == "B" && "A" + "B" == "AB";
    assert "AB" == ['A', 'B'];
    FoldTwo(START, 'A', 'B');
    assert Step(START, 'A') == Scan([], "A", 'A');
    assert Step(Scan([], "A", 'A'), 'B') == Scan([], "AB", 'B');
    assert |Lowered(["AB"])| == 1 && |Lowered(["a", "b"])| == 2;
  }

  lemma {:induction false} SplitOfPair(c: char)
    requires IsLower(c) || IsDigit(c)
    ensures Split(['a', '_', c]) == ["a", [c]]
  {
    FoldThree(START, 'a', '_', c);
    assert Step(START, 'a') == Scan([], "a", 'a');
    assert Step(Scan([], "a", 'a'), '_') == Scan(["a"], [], '_');
    assert Step(Scan(["a"], [], '_'), c) == Scan(["a"], [c], c);
  }

  lemma {:induction false} TitlesOfTwo(u: string, v: string)
    ensures Titles([v]) == Title(v) && Titles([u, v]) == Title(u) + Title(v)
  {
    assert [u, v][1..] == [v] && [v][1..] == [];
    assert Titles([v]) == Title(v) + Titles([]);
  }

  /** A word that starts with a digit runs into the one before. */
  lemma {:induction false} CamelMerges()
    ensures Split("a_1") == ["a", "1"] && Camel("a_1") == "a1" && Split("a1") == ["a1"]
    ensures Lowered(Split(Camel("a_1"))) != Lowered(Split("a_1"))
  {
    SplitOfPair('1');
    CamelOfPair();
    assert "a1" == ['a', '1'];
    FoldTwo(START, 'a', '1');
    assert Step(START, 'a') == Scan([], "a", 'a');
    assert Step(Scan([], "a", 'a'), '1') == Scan([], "a1", '1');
    assert |Lowered(["a1"])| == 1 && |Lowered(["a", "1"])| == 2;
  }

  lemma {:induction false} CamelOfPair()
    ensures Lower("a") + Titles(["a", "1"][1..]) == "a1"
  {
    TitlesOfTwo("a", "1");
    assert ["a", "1"][1..] == ["1"];
    assert Lower("a") == "a" && Title("1") == "1" && "a" + "1" == "a1";
  }

  lemma {:induction false} FoldTwo(s: Scan, x: char, y: char)
    ensures Fold(s, [x, y]) == Step(Step(s, x), y)
  {
    assert [x, y][1..] == [y] && [y][1..] == [];
    assert Fold(Step(s, x), [y]) == Fold(Step(Step(s, x), y), []);
  }

  lemma {:induction false} FoldThree(s: Scan, x: char, y: char, z: char)
    ensures Fold(s, [x, y, z]) == Step(Step(Step(s, x), y), z)
  {
    assert [x, y, z][1..] == [y, z];
    FoldTwo(Step(s, x), y, z);
  }

  /** In particular both hold when every word has two characters or more and starts with a letter. */
  lemma {:induction false} LongWordsRoundTrip(text: string)
    requires forall i :: 0 <= i < |Split(text)| ==> |Split(text)[i]| >= 2 && IsLetter(Split(text)[i][0])
    ensures Lowered(Split(Pascal(text))) == Lowered(Split(text)) == Lowered(Split(Camel(text)))
  {
    PascalRoundTripIff(text);
    CamelRoundTripIff(text);
    if Split(text) != [] { SeparateTail(Split(text)); }
  }
}
