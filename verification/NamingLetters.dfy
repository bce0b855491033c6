/** What is kept of a raw world name. */
module NamingLetters {
  import opened Naming
  import opened NamingWords

  /** The name in front of the cut. */
  ghost function Started(word: string): string {
    if word == [] then "world" else if '0' <= word[0] <= '9' then "w-" + word else word
  }

  lemma WordIsTrimmed(raw: string)
    ensures var word := Word(raw);
      && (word != [] ==> word[0] != '-' && word[|word| - 1] != '-' && IsNameChar(word[0])) && NoDoubleDash(word)
  {
    CoreIsWord(raw);
    CoreIsTrimmed(raw);
    var word := Word(raw);
    hide Core, Word, NoDoubleDash, IsNameChar;
    if word != [] { assert word[0] in word; }
  }

  lemma StartedIsTrimmed(word: string)
    requires word != [] ==> word[0] != '-' && word[|word| - 1] != '-'
    requires NoDoubleDash(word)
    ensures var s := Started(word); s != [] && s[|s| - 1] != '-' && NoDoubleDash(s)
  {
    if word != [] && '0' <= word[0] <= '9' {
      var s := "w-" + word;
      assert s[|s| - 1] == word[|word| - 1] && forall i | 2 <= i < |s| :: s[i] == word[i - 2];
    }
  }

  lemma SanitizeCuts(raw: string)
    ensures var s := Started(Word(raw)); Sanitize(raw) == RStrip(if |s| <= 40 then s else s[..40], Dash)
  {
    CoreIsWord(raw);
    WordIsTrimmed(raw);
    hide Core, Word, RStrip, NoDoubleDash;
  }

  /** A name is the letters and digits of the raw text, the capitals as small letters,
      with one dash between two exactly where something else stands between them; with
      "w-" in front of a digit, and `world` if there are none.  What is longer than 40
      characters is cut there, and a dash at the cut goes too. */
  lemma SanitizeSpells(raw: string)
    ensures var s := Started(Spelled(raw, Places(raw, 0)));
      Sanitize(raw) == if |s| <= 40 then s else if s[39] == '-' then s[..39] else s[..40]
  {
    SpelledIsWord(raw);
    WordIsTrimmed(raw);
    hide *;
    StartedIsTrimmed(Word(raw));
    SanitizeCuts(raw);
    CutAt(Started(Word(raw)));
  }

  lemma SpelledIsWord(raw: string)
    ensures Spelled(raw, Places(raw, 0)) == Word(raw)
  {
    WordIsSpelled(raw, 0);
    assert raw[0..] == raw;
  }

  lemma CutBack(s: string, k: nat)
    requires 0 < k <= |s| && NoDoubleDash(s)
    ensures RStrip(s[..k], Dash) == if s[k - 1] == '-' then s[..k - 1] else s[..k]
  {
    var cut := s[..k];
    assert cut[k - 1] == s[k - 1] && cut[..k - 1] == s[..k - 1];
    if s[k - 1] == '-' && k > 1 {
      assert s[k - 2] != '-' && s[..k - 1][k - 2] == s[k - 2];
    }
  }

  lemma CutAt(s: string)
    requires s != [] && s[|s| - 1] != '-' && NoDoubleDash(s)
    ensures RStrip(if |s| <= 40 then s else s[..40], Dash) ==
      if |s| <= 40 then s else if s[39] == '-' then s[..39] else s[..40]
  {
    if |s| > 40 {
      CutBack(s, 40);
    }
  }

  lemma {:induction false} LettersOfMore(s: string, t: string)
    ensures Letters(s + t) == Letters(s) + Letters(t)
  {
    if s == [] {
      assert s + t == t;
    } else {
      assert (s + t)[1..] == s[1..] + t;
      LettersOfMore(s[1..], t);
    }
  }

  lemma LettersOfOne(c: char)
    ensures Letters([c]) == if Kept(c) then [Small(c)] else []
    ensures Kept(c) ==> Kept(Small(c)) && Small(Small(c)) == Small(c)
  {
    assert [c][1..] == [];
  }

  lemma {:induction false} LettersOfWord(s: string)
    ensures Letters(Word(s)) == Letters(s)
    ensures Word(s) == [] <==> Letters(s) == []
    ensures Word(s) != [] ==> Word(s)[0] == Letters(s)[0]
  {
    if s != [] {
      LettersOfWord(s[1..]);
      var c := s[0];
      LettersOfOne(c);
      LettersOfOne(Small(c));
      LettersOfOne('-');
      LettersOfMore([Small(c)], Word(s[1..]));
      LettersOfMore([Small(c)] + "-", Word(s[1..]));
      LettersOfMore([Small(c)], "-");
      hide Kept, Small;
    }
  }

  /** Apart from "w" in front of a digit, the letters and digits of a name are those of
      the raw text in their order, from the first on, and all of them if the name is
      shorter than 39 characters. */
  lemma SanitizeKeepsLetters(raw: string)
    ensures var l, r := Letters(raw), Letters(Sanitize(raw));
      if l == [] then Sanitize(raw) == "world"
      else
        var all := if '0' <= l[0] <= '9' then "w" + l else l;
        r <= all && (|Sanitize(raw)| < 39 ==> r == all)
  {
    var s, cut := Started(Word(raw)), Sanitize(raw);
    assert cut == if |s| <= 40 then s else if s[39] == '-' then s[..39] else s[..40] by {
      SpelledIsWord(raw);
      SanitizeSpells(raw);
      hide *;
    }
    LettersOfWord(raw);
    if Word(raw) != [] {
      LettersOfStarted(Word(raw));
      hide *;
      LettersOfPart(cut, s);
    } else {
      hide Sanitize, Word;
    }
  }

  lemma LettersOfPart(cut: string, s: string)
    requires cut <= s
    ensures Letters(cut) <= Letters(s)
  {
    hide Letters;
    LettersOfMore(cut, s[|cut|..]);
    assert s == cut + s[|cut|..];
  }

  lemma LettersOfStarted(word: string)
    requires word != []
    ensures Letters(Started(word)) == if '0' <= word[0] <= '9' then "w" + Letters(word) else Letters(word)
  {
    LettersOfOne('w');
    LettersOfOne('-');
    LettersOfMore("w", "-");
    LettersOfMore("w-", word);
    assert "w" + "-" == "w-";
  }

  /** A numbered name begins with the base, if both fit, and otherwise with as much of
      it as fits, but for a dash at the cut. */
  lemma CandidateKeepsBase(base: string, n: nat)
    requires IsSlug(base) && |Decimal(n)| < 39
    ensures var number := "-" + Decimal(n); var room := 40 - |number|;
      Candidate(base, n) ==
        (if |base| <= room then base else if base[room - 1] == '-' then base[..room - 1] else base[..room]) + number
  {
    var number := "-" + Decimal(n);
    var room := 40 - |number|;
    hide Decimal, IsNameChar;
    assert Candidate(base, n) == RStrip(Prefix(base, room), Dash) + number;
    assert Prefix(base, room) == if |base| <= room then base else base[..room];
    if |base| > room {
      CutBack(base, room);
    } else {
      RStripKeeps(base, Dash);
    }
  }
}
