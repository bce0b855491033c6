/** Lines and their words: what is left of a line without white space and a slash in
    front, its pieces between single spaces, the finished words and the one being
    typed.  Another text in place of that word changes the last piece only, and is
    read back exactly when it could have been typed as one word there. */
module Lines {
  import opened Collections

  /** The line without leading white space and without one leading slash. */
  function Body(line: string, space: char -> bool): (r: string)
    ensures EndsWith(line, r)
  {
    if line != [] && space(line[0]) then Body(line[1..], space)
    else if line != [] && line[0] == '/' then line[1..]
    else line
  }

  /** The pieces between single spaces; there is always at least one. */
  function Split(s: string): (r: seq<string>)
    ensures |r| >= 1 && (|r| == 1 <==> ' ' !in s)
    ensures EndsWith(s, r[|r| - 1])
  {
    if ' ' !in s then [s]
    else if s[0] == ' ' then [[]] + Split(s[1..])
    else
      var rest := Split(s[1..]);
      [[s[0]] + rest[0]] + rest[1..]
  }

  function Joined(words: seq<string>): string
    requires words != []
  {
    if |words| == 1 then words[0] else words[0] + " " + Joined(words[1..])
  }

  /** The pieces of a text that has one more character in front. */
  function Prepended(c: char, words: seq<string>): seq<string>
    requires words != []
  {
    if c == ' ' then [[]] + words else [[c] + words[0]] + words[1..]
  }

  lemma SplitStep(s: string)
    requires s != [] && ' ' in s
    ensures Split(s) == Prepended(s[0], Split(s[1..]))
    ensures s[0] != ' ' ==> ' ' in s[1..] && |Split(s[1..])| > 1
  {
    assert s == [s[0]] + s[1..];
  }

  lemma Reassociate(a: string, b: string, c: string)
    ensures a + b + " " + c == a + (b + " " + c)
  {
  }

  lemma JoinedPrepended(c: char, words: seq<string>)
    requires words != []
    ensures Joined(Prepended(c, words)) == (if c == ' ' then " " else [c]) + Joined(words)
  {
    if c == ' ' {
      assert ([[]] + words)[1..] == words && [] + " " == " ";
    } else {
      assert ([[c] + words[0]] + words[1..])[1..] == words[1..];
      if |words| > 1 { Reassociate([c], words[0], Joined(words[1..])); }
    }
  }

  lemma PrependedHasNoSpace(c: char, words: seq<string>)
    requires words != [] && forall w | w in words :: ' ' !in w
    ensures forall w | w in Prepended(c, words) :: ' ' !in w
  {
    assert words[0] in words && forall w | w in words[1..] :: w in words;
  }

  lemma SingleWord(s: string)
    requires ' ' !in s
    ensures Split(s) == [s] && Joined([s]) == s
  {
  }

  lemma FirstAndRest(s: string)
    requires s != ""
    ensures s == [s[0]] + s[1..] && (s[0] == ' ' ==> s == " " + s[1..])
  {
  }

  lemma SpacedIsNotEmpty(s: string)
    requires ' ' in s
    ensures s != ""
  {
  }

  /** Splitting loses nothing, and no piece contains a space. */
  lemma {:induction false} SplitIsExact(s: string)
    ensures Joined(Split(s)) == s && forall w | w in Split(s) :: ' ' !in w
    decreases |s|
  {
    hide *;
    if ' ' in s {
      SpacedIsNotEmpty(s);
      SplitStep(s);
      FirstAndRest(s);
      SplitIsExact(s[1..]);
      JoinedPrepended(s[0], Split(s[1..]));
      PrependedHasNoSpace(s[0], Split(s[1..]));
    } else {
      SingleWord(s);
    }
  }

  /** The finished words of a line and the one being typed. */
  function Typed(line: string, space: char -> bool): (r: (seq<string>, string))
    ensures EndsWith(line, r.1)
  {
    hide *;
    var body := Body(line, space);
    var words := Split(body);
    var last := |words| - 1;
    EndsWithTransitive(line, body, words[last]);
    (words[..last], words[last])
  }

  // ----------------------------------------------------------- reading back

  /** All words of a line, the one being typed among them. */
  function Words(line: string, space: char -> bool): seq<string> {
    var (done, partial) := Typed(line, space);
    done + [partial]
  }

  /** The line without the word being typed. */
  function Front(line: string, space: char -> bool): string {
    line[..|line| - |Typed(line, space).1|]
  }

  ghost predicate Blank(s: string, space: char -> bool) { forall i | 0 <= i < |s| :: space(s[i]) }

  /** Text that, put behind `front`, is taken for one word: it has no space, and
      at the beginning of a line nothing that is stripped there. */
  ghost predicate IsOneWord(front: string, text: string, space: char -> bool) {
    ' ' !in text && (Blank(front, space) && text != "" ==> !space(text[0]) && text[0] != '/')
  }

  lemma BlankStep(s: string, space: char -> bool)
    requires s != ""
    ensures Blank(s, space) <==> space(s[0]) && Blank(s[1..], space)
  {
    if space(s[0]) && Blank(s[1..], space) {
      assert forall i | 0 < i < |s| :: s[i] == s[1..][i - 1];
    }
  }

  lemma BodyStep(s: string, space: char -> bool)
    requires s != ""
    ensures Body(s, space) == if space(s[0]) then Body(s[1..], space) else if s[0] == '/' then s[1..] else s
  {
  }

  lemma TailOfAppend(front: string, text: string)
    requires front != ""
    ensures (front + text) != "" && (front + text)[0] == front[0] && (front + text)[1..] == front[1..] + text
  {
  }

  lemma {:induction false} BodyBehind(front: string, text: string, space: char -> bool)
    ensures Body(front + text, space) == if Blank(front, space) then Body(text, space) else Body(front, space) + text
  {
    if front == "" {
      assert front + text == text;
    } else {
      hide *;
      TailOfAppend(front, text);
      BlankStep(front, space);
      BodyStep(front, space);
      BodyStep(front + text, space);
      if space(front[0]) { BodyBehind(front[1..], text, space); }
    }
  }

  ghost predicate EndsInSpace(s: string) { s == "" || s[|s| - 1] == ' ' }

  lemma EndsInSpaceStep(s: string)
    requires s != "" && EndsInSpace(s)
    ensures ' ' in s && EndsInSpace(s[1..]) && (s[0] != ' ' ==> ' ' in s[1..])
  {
    if |s| > 1 { assert s[1..][|s| - 2] == s[|s| - 1]; }
  }

  function LastOf(words: seq<string>): string
    requires words != []
  {
    words[|words| - 1]
  }

  lemma PrependedLast(c: char, words: seq<string>)
    requires words != [] && (c != ' ' ==> |words| > 1)
    ensures LastOf(Prepended(c, words)) == LastOf(words)
  {
  }

  /** These pieces end in `last`, and those are the same with other pieces in its
      place. */
  ghost predicate DifferBehind(a: seq<string>, last: string, b: seq<string>, tail: seq<string>) {
    a != [] && LastOf(a) == last && b == a[..|a| - 1] + tail
  }

  /** Putting a character in front changes the first piece only. */
  lemma PiecesBehind(c: char, a: seq<string>, last: string, b: seq<string>, tail: seq<string>)
    requires DifferBehind(a, last, b, tail) && tail != [] && (c != ' ' ==> |a| > 1)
    ensures b != [] && DifferBehind(Prepended(c, a), last, Prepended(c, b), tail)
  {
    PrependedLast(c, a);
  }

  lemma SplitLast(s: string)
    ensures EndsWith(s, LastOf(Split(s))) && ' ' !in LastOf(Split(s))
    ensures ' ' !in s ==> LastOf(Split(s)) == s
    ensures ' ' in s ==> s != [] && LastOf(Split(s)) == LastOf(Split(s[1..])) && (s[0] != ' ' ==> ' ' in s[1..])
  {
    SplitIsExact(s);
    assert LastOf(Split(s)) in Split(s);
    if ' ' in s {
      SplitStep(s);
      hide Split, Prepended, LastOf;
      PrependedLast(s[0], Split(s[1..]));
    }
  }

  /** A text ends in this word, and what stands before it ends in a space. */
  ghost predicate WordBehindSpace(s: string, last: string) {
    |last| <= |s| && EndsInSpace(s[..|s| - |last|])
  }

  lemma FrontEndsInSpace(s: string, last: string)
    requires s != [] && EndsWith(s[1..], last) && WordBehindSpace(s[1..], last)
    requires s[0] != ' ' ==> ' ' in s[1..] && ' ' !in last
    ensures WordBehindSpace(s, last)
  {
    var front := s[..|s| - |last|];
    if |front| == 1 {
      assert s[1..][0..] == s[1..];
    } else {
      assert front[|front| - 1] == s[1..][|front| - 2];
    }
  }

  lemma {:induction false} LastWordBehindSpace(s: string)
    ensures WordBehindSpace(s, LastOf(Split(s)))
  {
    SplitLast(s);
    if ' ' !in s {
      hide Split;
    } else {
      hide *;
      LastWordBehindSpace(s[1..]);
      SplitLast(s[1..]);
      FrontEndsInSpace(s, LastOf(Split(s)));
    }
  }

  /** Replacing the last word of a text replaces the last piece. */
  lemma {:induction false} SplitBehind(front: string, partial: string, text: string)
    requires ' ' !in partial && EndsInSpace(front)
    ensures DifferBehind(Split(front + partial), partial, Split(front + text), Split(text))
  {
    if front == "" {
      SplitWhole(front, partial, text);
    } else {
      hide *;
      EndsInSpaceStep(front);
      SplitBehind(front[1..], partial, text);
      SplitWithFirst(front, partial);
      SplitWithFirst(front, text);
      PiecesBehind(front[0], Split(front[1..] + partial), partial, Split(front[1..] + text), Split(text));
    }
  }

  lemma SplitWhole(front: string, partial: string, text: string)
    requires front == "" && ' ' !in partial
    ensures DifferBehind(Split(front + partial), partial, Split(front + text), Split(text))
  {
    assert front + partial == partial && front + text == text && [partial][..0] == [];
  }

  lemma SplitWithFirst(front: string, text: string)
    requires front != "" && ' ' in front && (front[0] != ' ' ==> ' ' in front[1..])
    ensures Split(front + text) == Prepended(front[0], Split(front[1..] + text))
    ensures front[0] != ' ' ==> |Split(front[1..] + text)| > 1
  {
    hide *;
    TailOfAppend(front, text);
    SplitStep(front + text);
  }

  /** What a line is made of: nothing but white space in front of its only word,
      or words whose text ends in the one being typed. */
  lemma FrontIs(line: string, space: char -> bool)
    ensures line == Front(line, space) + Typed(line, space).1
  {
    EndsWithIs(line, Typed(line, space).1);
    hide Typed;
  }

  lemma SameEnds(a: string, b: string)
    requires EndsWith(a, b) && EndsWith(b, a)
    ensures a == b
  {
    EndsWithIs(a, b);
    EndsWithIs(b, a);
    assert |a| == |b| && a[0..] == a;
  }

  lemma DoneIsEmpty(done: seq<string>, partial: string)
    requires done + [partial] == [partial]
    ensures done == []
  {
    assert |done + [partial]| == |done| + 1;
  }

  lemma TypedFront(line: string, space: char -> bool)
    ensures var (done, partial) := Typed(line, space); var front := Front(line, space);
      && ' ' !in partial && line == front + partial
      && (Blank(front, space) ==> done == [])
      && (!Blank(front, space) ==> Body(line, space) == Body(front, space) + partial)
  {
    hide *;
    var (done, partial) := Typed(line, space);
    var front := Front(line, space);
    FrontIs(line, space);
    TypedIs(line, space);
    SplitLast(Body(line, space));
    BodyBehind(front, partial, space);
    if Blank(front, space) {
      SameEnds(Body(line, space), partial);
      OneWord(partial);
      DoneIsEmpty(done, partial);
    }
  }

  lemma OneWord(s: string)
    ensures Split(s) == [s] <==> ' ' !in s
  {
  }

  lemma TypedIs(line: string, space: char -> bool)
    ensures var (done, partial) := Typed(line, space);
      Split(Body(line, space)) == done + [partial] && LastOf(Split(Body(line, space))) == partial
  {
    hide Split, Body;
  }

  /** A text in place of the word being typed is read back as that word, behind
      the same words, if and only if it can be taken for one. */
  lemma WordIsReadBackIff(line: string, text: string, space: char -> bool)
    ensures var front := Front(line, space);
      Typed(front + text, space) == (Typed(line, space).0, text) <==> IsOneWord(front, text, space)
  {
    hide *;
    var (done, partial) := Typed(line, space);
    var front := Front(line, space);
    TypedFront(line, space);
    TypedIs(line, space);
    TypedIs(front + text, space);
    TypedIs(text, space);
    BodyBehind(front, text, space);
    OneWordIs(front, text, space);
    if Blank(front, space) {
      FirstWordIff(text, space);
      SameBody(front + text, text, space);
    } else {
      LaterWordIff(Body(front, space), done, partial, text);
      TypedApart(front + text, done, text, space);
    }
  }

  lemma OneWordIs(front: string, text: string, space: char -> bool)
    ensures IsOneWord(front, text, space) <==>
      ' ' !in text && (Blank(front, space) && text != "" ==> !space(text[0]) && text[0] != '/')
  {
  }

  lemma SameBody(a: string, b: string, space: char -> bool)
    requires Body(a, space) == Body(b, space)
    ensures Typed(a, space) == Typed(b, space)
  {
    hide Body, Split;
  }

  lemma TypedApart(line: string, done: seq<string>, text: string, space: char -> bool)
    ensures var words := Split(Body(line, space));
      Typed(line, space) == (done, text) <==> words[..|words| - 1] == done && words[|words| - 1] == text
  {
    hide Body, Split;
  }

  lemma FirstWordIff(text: string, space: char -> bool)
    ensures Typed(text, space) == ([], text) <==> ' ' !in text && (text != "" ==> !space(text[0]) && text[0] != '/')
  {
    var body := Body(text, space);
    SplitIsExact(body);
    OneWord(body);
    if Typed(text, space) == ([], text) {
      assert Split(body) == [text];
      assert text in Split(body);
      EndsWithIs(text, body);
      assert Joined([text]) == text;
    }
  }

  lemma LastOfAppend(words: seq<string>, done: seq<string>, partial: string)
    requires words == done + [partial]
    ensures LastOf(words) == partial && words[..|words| - 1] == done
  {
  }

  lemma FrontOfAppend(front: string, partial: string)
    requires WordBehindSpace(front + partial, partial)
    ensures EndsInSpace(front)
  {
    assert (front + partial)[..|front + partial| - |partial|] == front;
  }

  lemma DifferBehindIs(a: seq<string>, done: seq<string>, last: string, b: seq<string>, tail: seq<string>)
    requires a == done + [last] && DifferBehind(a, last, b, tail)
    ensures b == done + tail
  {
    assert a[..|a| - 1] == done;
  }

  lemma LaterWordIff(front: string, done: seq<string>, partial: string, text: string)
    requires Split(front + partial) == done + [partial]
    ensures var words := Split(front + text);
      words[..|words| - 1] == done && words[|words| - 1] == text <==> ' ' !in text
  {
    hide *;
    LastOfAppend(Split(front + partial), done, partial);
    SplitLast(front + partial);
    LastWordBehindSpace(front + partial);
    FrontOfAppend(front, partial);
    SplitBehind(front, partial, text);
    DifferBehindIs(Split(front + partial), done, partial, Split(front + text), Split(text));
    if ' ' !in text {
      OneWord(text);
      LastOfAppend(Split(front + text), done, text);
      LastOfIs(Split(front + text));
    } else {
      SeveralWords(text);
    }
  }

  lemma LastOfIs(words: seq<string>)
    requires words != []
    ensures LastOf(words) == words[|words| - 1]
  {
  }

  lemma SeveralWords(s: string)
    ensures ' ' in s ==> |Split(s)| > 1
  {
  }

  /** Lower-casing keeps the length and makes no spaces. */
  ghost predicate KeepsWords(lower: string -> string) {
    forall w :: |lower(w)| == |w| && (' ' !in w ==> ' ' !in lower(w))
  }

  lemma StrippedIsShorter(text: string, space: char -> bool)
    requires text != "" && (space(text[0]) || text[0] == '/')
    ensures |Body(text, space)| < |text|
  {
    BodyStep(text, space);
    if space(text[0]) { EndsWithIs(text[1..], Body(text[1..], space)); }
  }

  /** What is not one word is no word of the completed line, in whatever case. */
  lemma NotOneWordIsNotLast(line: string, text: string, space: char -> bool, lower: string -> string)
    requires KeepsWords(lower) && !IsOneWord(Front(line, space), text, space)
    ensures var last := Typed(Front(line, space) + text, space).1;
      text != last && text != lower(last)
  {
    var front := Front(line, space);
    var completed := front + text;
    var last := Typed(completed, space).1;
    TypedIs(completed, space);
    SplitLast(Body(completed, space));
    OneWordIs(front, text, space);
    if ' ' !in text {
      BodyBehind(front, text, space);
      StrippedIsShorter(text, space);
      hide *;
      EndsWithIs(Body(completed, space), last);
      assert |last| < |text|;
      KeepsLength(lower, last);
    } else {
      hide Typed, Front, Body, Split;
      assert ' ' !in last;
    }
  }

  lemma KeepsLength(lower: string -> string, w: string)
    requires KeepsWords(lower)
    ensures |lower(w)| == |w|
  {
  }

  lemma SlashIsStripped(name: string, word: string, space: char -> bool)
    requires name == "/" + word && ' ' !in word && !space('/')
    ensures Typed("", space) == ([], "") && Typed(name, space) == ([], word)
  {
    BodyStep(name, space);
    assert name[0] == '/' && name[1..] == word && Body("", space) == "";
    OneWord(word);
    OneWord("");
    hide *;
    TypedApart("", [], "", space);
    TypedApart(name, [], word, space);
  }
}
