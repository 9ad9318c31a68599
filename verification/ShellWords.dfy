/** The shell-word parser, and the quoting that it undoes. */
module ShellWords {
  import opened Text
  import opened Collections

  datatype ShellError = UnfinishedEscape | UnterminatedQuote

  datatype Words = Words(words: seq<string>) | Malformed(error: ShellError)

  /** The parser between two characters. */
  datatype Parser = Parser(words: seq<string>, current: string, quote: Option<char>, escaped: bool, inToken: bool)

  const START := Parser([], "", None, false, false)

  function Feed(s: Parser, c: char): Parser {
    if s.escaped then s.(current := s.current + [c], escaped := false, inToken := true)
    else if c == '\\' && s.quote != Some('\'') then s.(escaped := true, inToken := true)
    else
      var t :=
        if s.quote == Some(c) then s.(quote := None)
        else if s.quote.Some? then s.(current := s.current + [c])
        else if c == '\'' || c == '"' then s.(quote := Some(c))
        else if IsWhitespace(c) then
          (if s.inToken then s.(words := s.words + [s.current], current := "", inToken := false) else s)
        else s.(current := s.current + [c]);
      if !IsWhitespace(c) || t.quote.Some? then t.(inToken := true) else t
  }

  function FeedAll(s: Parser, text: string): Parser {
    if text == "" then s else Feed(FeedAll(s, text[..|text| - 1]), text[|text| - 1])
  }

  function Close(s: Parser): Words {
    if s.escaped then Malformed(UnfinishedEscape)
    else if s.quote.Some? then Malformed(UnterminatedQuote)
    else Words(if s.inToken then s.words + [s.current] else s.words)
  }

  function Parse(text: string): Words {
    Close(FeedAll(START, text))
  }

  method ParseShellWords(input: string) returns (r: Words)
    ensures r == Parse(input)
  {
    var words: seq<string> := [];
    var current: string := "";
    var quote: Option<char> := None;
    var escaped, inToken := false, false;
    for i := 0 to |input|
      invariant FeedAll(START, input[..i]) == Parser(words, current, quote, escaped, inToken)
    {
      var character := input[i];
      assert input[..i + 1][..i] == input[..i];
      if escaped {
        current, escaped, inToken := current + [character], false, true;
        continue;
      }
      if character == '\\' && quote != Some('\'') {
        escaped, inToken := true, true;
        continue;
      }
      if quote.Some? {
        if character == quote.value {
          quote := None;
        } else {
          current := current + [character];
        }
      } else if character == '\'' || character == '"' {
        quote := Some(character);
      } else if IsWhitespace(character) {
        if inToken {
          words, current, inToken := words + [current], "", false;
        }
      } else {
        current := current + [character];
      }
      if !IsWhitespace(character) || quote.Some? {
        inToken := true;
      }
    }
    assert input[..|input|] == input;
    if escaped {
      return Malformed(UnfinishedEscape);
    }
    if quote.Some? {
      return Malformed(UnterminatedQuote);
    }
    if inToken {
      words := words + [current];
    }
    r := Words(words);
  }

  lemma {:induction false} FeedConcat(s: Parser, a: string, b: string)
    ensures FeedAll(s, a + b) == FeedAll(FeedAll(s, a), b)
  {
    hide Feed;
    var ab := a + b;
    if b == "" {
      assert ab == a;
    } else {
      var rest, last := b[..|b| - 1], b[|b| - 1];
      FeedConcat(s, a, rest);
      assert ab[..|ab| - 1] == a + rest && ab[|ab| - 1] == last;
    }
  }

  // ----- Spellings

  function Between(words: seq<string>): Parser { Parser(words, "", None, false, false) }

  function Inside(words: seq<string>, current: string): Parser { Parser(words, current, None, false, true) }

  /** Wherever a word may start, the text is read as exactly this word. */
  ghost predicate Spells(text: string, word: string) {
    forall words :: FeedAll(Between(words), text) == Inside(words, word)
  }

  predicate IsPlain(c: char) {
    !IsWhitespace(c) && c != '\\' && c != '\'' && c != '"'
  }

  lemma {:induction false} PlainTextIsItself(words: seq<string>, text: string)
    requires forall c :: c in text ==> IsPlain(c)
    ensures FeedAll(Between(words), text) == if text == "" then Between(words) else Inside(words, text)
  {
    if text != "" {
      PlainTextIsItself(words, text[..|text| - 1]);
      assert IsPlain(text[|text| - 1]);
      assert text[..|text| - 1] + [text[|text| - 1]] == text;
    }
  }

  lemma PlainWordSpellsItself(word: string)
    requires word != "" && forall c :: c in word ==> IsPlain(c)
    ensures Spells(word, word)
  {
    forall words ensures FeedAll(Between(words), word) == Inside(words, word) {
      PlainTextIsItself(words, word);
    }
  }

  /** `path.replace('\'', "'\\''")` */
  function EscapeQuotes(path: string): string {
    if path == "" then ""
    else
      var last := path[|path| - 1];
      EscapeQuotes(path[..|path| - 1]) + (if last == '\'' then "'\\''" else [last])
  }

  function SingleQuoted(path: string): string {
    "'" + EscapeQuotes(path) + "'"
  }

  /** A quote in the text is closed, escaped and reopened; everything else stays literal. */
  lemma EscapedCharacter(words: seq<string>, current: string, c: char)
    ensures var inside := Parser(words, current, Some('\''), false, true);
      FeedAll(inside, if c == '\'' then "'\\''" else [c]) == inside.(current := current + [c])
  {
    var inside := Parser(words, current, Some('\''), false, true);
    if c == '\'' {
      var text := "'\\''";
      assert text[..3] == "'\\'" && text[..3][..2] == "'\\" && text[..3][..2][..1] == "'";
      assert "'"[..0] == "";
      assert FeedAll(inside, "'") == Feed(inside, '\'');
      assert FeedAll(inside, "'\\") == Feed(FeedAll(inside, "'"), '\\');
      assert FeedAll(inside, "'\\'") == Feed(FeedAll(inside, "'\\"), '\'');
      assert FeedAll(inside, text) == Feed(FeedAll(inside, "'\\'"), '\'');
    } else {
      assert [c][..0] == "";
      assert FeedAll(inside, [c]) == Feed(inside, c);
    }
  }

  lemma {:induction false} EscapedTextIsLiteral(words: seq<string>, path: string)
    ensures var open := Parser(words, "", Some('\''), false, true);
      FeedAll(open, EscapeQuotes(path)) == open.(current := path)
  {
    hide Feed;
    if path != "" {
      var rest, last := path[..|path| - 1], path[|path| - 1];
      EscapedTextIsLiteral(words, rest);
      FeedConcat(Parser(words, "", Some('\''), false, true), EscapeQuotes(rest), if last == '\'' then "'\\''" else [last]);
      EscapedCharacter(words, rest, last);
      assert rest + [last] == path;
    }
  }

  /** Quoting any text at all, even the empty one, spells exactly that text. */
  lemma QuotedTextSpells(path: string)
    ensures Spells(SingleQuoted(path), path)
  {
    forall words ensures FeedAll(Between(words), SingleQuoted(path)) == Inside(words, path) {
      var open := Parser(words, "", Some('\''), false, true);
      assert "'"[..0] == "";
      assert FeedAll(Between(words), "'") == Feed(Between(words), '\'') == open;
      FeedConcat(Between(words), "'", EscapeQuotes(path));
      EscapedTextIsLiteral(words, path);
      FeedConcat(Between(words), "'" + EscapeQuotes(path), "'");
      var full := open.(current := path);
      assert FeedAll(full, "'") == Feed(full, '\'');
    }
  }

  function Join(texts: seq<string>): string {
    if texts == [] then ""
    else if |texts| == 1 then texts[0]
    else Join(texts[..|texts| - 1]) + " " + texts[|texts| - 1]
  }

  ghost predicate SpellAll(texts: seq<string>, words: seq<string>) {
    |texts| == |words| && forall i :: 0 <= i < |texts| ==> Spells(texts[i], words[i])
  }

  lemma {:induction false} JoinedSpellings(texts: seq<string>, words: seq<string>)
    requires SpellAll(texts, words) && texts != []
    ensures FeedAll(START, Join(texts)) == Inside(words[..|words| - 1], words[|words| - 1])
  {
    var n := |texts| - 1;
    assert Spells(texts[n], words[n]);
    if n == 0 {
      assert START == Between([]) && words[..0] == [];
    } else {
      JoinedSpellings(texts[..n], words[..n]);
      var before := Inside(words[..n][..n - 1], words[..n][n - 1]);
      assert words[..n][..n - 1] + [words[..n][n - 1]] == words[..n];
      assert " "[..0] == "";
      assert FeedAll(before, " ") == Feed(before, ' ') == Between(words[..n]);
      FeedConcat(START, Join(texts[..n]), " ");
      FeedConcat(START, Join(texts[..n]) + " ", texts[n]);
    }
  }

  /** Words spelled in any of these ways and joined by spaces are parsed back. */
  lemma JoinRoundTrip(texts: seq<string>, words: seq<string>)
    requires SpellAll(texts, words)
    ensures Parse(Join(texts)) == Words(words)
  {
    if texts != [] {
      JoinedSpellings(texts, words);
      assert words[..|words| - 1] + [words[|words| - 1]] == words;
    }
  }

  // ----- Pieces of words, and words between whitespace

  /** A word is written in pieces: plain characters, two kinds of quotes, and single escaped characters. */
  datatype Piece = Bare(text: string) | Single(text: string) | Double(text: string) | Escaped(c: char)

  predicate IsProper(piece: Piece) {
    match piece
    case Bare(text) => text != "" && forall c :: c in text ==> IsPlain(c)
    case Single(text) => '\'' !in text
    case _ => true
  }

  /** Between double quotes a backslash protects a double quote or another backslash. */
  function Protect(text: string): string {
    if text == "" then ""
    else
      var last := text[|text| - 1];
      Protect(text[..|text| - 1]) + (if last == '"' || last == '\\' then ['\\', last] else [last])
  }

  function Render(piece: Piece): string {
    match piece
    case Bare(text) => text
    case Single(text) => "'" + text + "'"
    case Double(text) => "\"" + Protect(text) + "\""
    case Escaped(c) => ['\\', c]
  }

  /** What the piece contributes to its word. */
  function Meaning(piece: Piece): string {
    if piece.Escaped? then [piece.c] else piece.text
  }

  function RenderAll(pieces: seq<Piece>): string {
    if pieces == [] then "" else RenderAll(pieces[..|pieces| - 1]) + Render(pieces[|pieces| - 1])
  }

  function MeaningAll(pieces: seq<Piece>): string {
    if pieces == [] then "" else MeaningAll(pieces[..|pieces| - 1]) + Meaning(pieces[|pieces| - 1])
  }

  lemma FeedOne(s: Parser, c: char)
    ensures FeedAll(s, [c]) == Feed(s, c)
  {
    assert [c][..0] == "";
    assert FeedAll(s, "") == s;
  }

  lemma {:induction false} BareReads(s: Parser, text: string)
    requires s.quote.None? && !s.escaped && text != "" && forall c :: c in text ==> IsPlain(c)
    ensures FeedAll(s, text) == s.(current := s.current + text, inToken := true)
  {
    var n := |text| - 1;
    assert IsPlain(text[n]);
    if n == 0 {
      FeedOne(s, text[0]);
      assert text == [text[0]];
    } else {
      BareReads(s, text[..n]);
      assert s.current + text[..n] + [text[n]] == s.current + text by {
        assert text[..n] + [text[n]] == text;
      }
    }
  }

  lemma {:induction false} SingleReads(s: Parser, text: string)
    requires s.quote == Some('\'') && !s.escaped && s.inToken && '\'' !in text
    ensures FeedAll(s, text) == s.(current := s.current + text)
  {
    if text == "" {
      assert s.current + text == s.current;
    } else {
      var n := |text| - 1;
      SingleReads(s, text[..n]);
      assert text[n] in text;
      assert s.current + text[..n] + [text[n]] == s.current + text by {
        assert text[..n] + [text[n]] == text;
      }
    }
  }

  lemma {:induction false} DoubleReads(s: Parser, text: string)
    requires s.quote == Some('"') && !s.escaped && s.inToken
    ensures FeedAll(s, Protect(text)) == s.(current := s.current + text)
  {
    if text == "" {
      assert s.current + text == s.current;
    } else {
      var n := |text| - 1;
      var t := s.(current := s.current + text[..n]);
      DoubleReads(s, text[..n]);
      assert s.current + text == s.current + text[..n] + [text[n]] by {
        assert text[..n] + [text[n]] == text;
      }
      if text[n] == '"' || text[n] == '\\' {
        FeedConcat(s, Protect(text[..n]), ['\\', text[n]]);
        FeedTwo(t, '\\', text[n]);
      } else {
        FeedConcat(s, Protect(text[..n]), [text[n]]);
        FeedOne(t, text[n]);
      }
    }
  }

  lemma FeedTwo(s: Parser, c: char, d: char)
    ensures FeedAll(s, [c, d]) == Feed(Feed(s, c), d)
  {
    FeedOne(s, c);
    assert [c, d][..1] == [c];
  }

  lemma SingleOpens(s: Parser, text: string)
    requires s.quote.None? && !s.escaped && '\'' !in text
    ensures FeedAll(s, "'" + text) == s.(quote := Some('\''), current := s.current + text, inToken := true)
  {
    hide FeedAll;
    FeedOne(s, '\'');
    SingleReads(s.(quote := Some('\''), inToken := true), text);
    FeedConcat(s, "'", text);
  }

  lemma DoubleOpens(s: Parser, text: string)
    requires s.quote.None? && !s.escaped
    ensures FeedAll(s, "\"" + Protect(text)) == s.(quote := Some('"'), current := s.current + text, inToken := true)
  {
    hide FeedAll, Protect;
    FeedOne(s, '"');
    DoubleReads(s.(quote := Some('"'), inToken := true), text);
    FeedConcat(s, "\"", Protect(text));
  }

  /** Wherever quotes are closed, a piece adds its meaning to the word at hand. */
  lemma PieceReads(s: Parser, piece: Piece)
    requires s.quote.None? && !s.escaped && IsProper(piece)
    ensures FeedAll(s, Render(piece)) == s.(current := s.current + Meaning(piece), inToken := true)
  {
    hide FeedAll, Protect;
    var open := s.(current := s.current + Meaning(piece), inToken := true);
    match piece
    case Bare(text) => BareReads(s, text);
    case Single(text) =>
      SingleOpens(s, text);
      FeedOne(open.(quote := Some('\'')), '\'');
      FeedConcat(s, "'" + text, "'");
    case Double(text) =>
      DoubleOpens(s, text);
      FeedOne(open.(quote := Some('"')), '"');
      FeedConcat(s, "\"" + Protect(text), "\"");
    case Escaped(c) => FeedTwo(s, '\\', c);
  }

  ghost predicate AllProper(pieces: seq<Piece>) {
    forall i :: 0 <= i < |pieces| ==> IsProper(pieces[i])
  }

  lemma {:induction false} PiecesRead(words: seq<string>, pieces: seq<Piece>)
    requires AllProper(pieces)
    ensures FeedAll(Between(words), RenderAll(pieces)) ==
      if pieces == [] then Between(words) else Inside(words, MeaningAll(pieces))
  {
    hide Feed, Render, Meaning, IsProper;
    if pieces != [] {
      var n := |pieces| - 1;
      PiecesRead(words, pieces[..n]);
      FeedConcat(Between(words), RenderAll(pieces[..n]), Render(pieces[n]));
      PieceReads(FeedAll(Between(words), RenderAll(pieces[..n])), pieces[n]);
      assert MeaningAll([]) == "" && pieces[..0] == [];
    }
  }

  /** A word written in any proper pieces, quotes of both kinds among them, is read as what they mean. */
  lemma PiecesSpell(pieces: seq<Piece>)
    requires pieces != [] && AllProper(pieces)
    ensures Spells(RenderAll(pieces), MeaningAll(pieces))
  {
    forall words ensures FeedAll(Between(words), RenderAll(pieces)) == Inside(words, MeaningAll(pieces)) {
      PiecesRead(words, pieces);
    }
  }

  lemma {:induction false} GapReads(words: seq<string>, gap: string)
    requires IsBlank(gap)
    ensures FeedAll(Between(words), gap) == Between(words)
    ensures gap != "" ==> forall word :: FeedAll(Inside(words, word), gap) == Between(words + [word])
    decreases |gap|
  {
    if gap != "" {
      var n := |gap| - 1;
      assert gap[n] in gap && forall c :: c in gap[..n] ==> c in gap;
      GapReads(words, gap[..n]);
      forall word ensures FeedAll(Inside(words, word), gap) == Between(words + [word]) {
        if n == 0 {
          FeedOne(Inside(words, word), gap[0]);
          assert gap == [gap[0]];
        } else {
          GapReads(words + [word], gap[..n]);
        }
      }
    }
  }

  /** A text of words, each followed by whitespace; only the last may have none behind it. */
  function Sentence(texts: seq<string>, gaps: seq<string>): string
    requires |gaps| == |texts| + 1
  {
    if texts == [] then gaps[0]
    else Sentence(texts[..|texts| - 1], gaps[..|texts|]) + texts[|texts| - 1] + gaps[|texts|]
  }

  ghost predicate Separates(gaps: seq<string>) {
    && (forall i :: 0 <= i < |gaps| ==> IsBlank(gaps[i]))
    && forall i :: 1 <= i < |gaps| - 1 ==> gaps[i] != ""
  }

  lemma {:induction false} SentenceReads(texts: seq<string>, words: seq<string>, gaps: seq<string>)
    requires SpellAll(texts, words) && |gaps| == |texts| + 1 && Separates(gaps)
    ensures
      var s := FeedAll(START, Sentence(texts, gaps));
      s == Between(words) ||
      (words != [] && gaps[|texts|] == "" && s == Inside(words[..|words| - 1], words[|words| - 1]))
  {
    hide Feed, Spells, IsBlank;
    assert START == Between([]);
    if texts == [] {
      assert gaps[0] == gaps[|texts|];
      GapReads([], gaps[0]);
    } else {
      var n := |texts| - 1;
      SentenceReads(texts[..n], words[..n], gaps[..n + 1]);
      assert words[..n] + [words[n]] == words;
      var front := Sentence(texts[..n], gaps[..n + 1]);
      assert n > 0 ==> gaps[..n + 1][|texts[..n]|] == gaps[n] != "";
      assert FeedAll(START, front) == Between(words[..n]);
      FeedConcat(START, front, texts[n]);
      SpellsFrom(texts[n], words[n], words[..n]);
      FeedConcat(START, front + texts[n], gaps[n + 1]);
      if gaps[n + 1] == "" {
        assert front + texts[n] + "" == front + texts[n];
      } else {
        GapReads(words[..n], gaps[n + 1]);
      }
    }
  }

  lemma SpellsFrom(text: string, word: string, words: seq<string>)
    requires Spells(text, word)
    ensures FeedAll(Between(words), text) == Inside(words, word)
  {
  }

  /** Words spelled in any way, with any whitespace between and around them, are parsed back. */
  lemma SentenceRoundTrip(texts: seq<string>, words: seq<string>, gaps: seq<string>)
    requires SpellAll(texts, words) && |gaps| == |texts| + 1 && Separates(gaps)
    ensures Parse(Sentence(texts, gaps)) == Words(words)
  {
    SentenceReads(texts, words, gaps);
    assert words != [] ==> words[..|words| - 1] + [words[|words| - 1]] == words;
  }

  /** A good text becomes malformed by a quote that nothing closes, or by a backslash at the very end. */
  lemma UnfinishedIsMalformed(text: string, quoted: string)
    requires Parse(text).Words?
    ensures Parse(text + "\\") == Malformed(UnfinishedEscape)
    ensures '\'' !in quoted ==> Parse(text + "'" + quoted) == Malformed(UnterminatedQuote)
    ensures Parse(text + "\"" + Protect(quoted)) == Malformed(UnterminatedQuote)
  {
    hide FeedAll, Protect;
    var s := FeedAll(START, text);
    FeedConcat(START, text, "\\");
    FeedOne(s, '\\');
    Regroup(text, "'", quoted);
    FeedConcat(START, text, "'" + quoted);
    if '\'' !in quoted {
      SingleOpens(s, quoted);
    }
    Regroup(text, "\"", Protect(quoted));
    FeedConcat(START, text, "\"" + Protect(quoted));
    DoubleOpens(s, quoted);
  }

  lemma Regroup(a: string, b: string, c: string)
    ensures a + b + c == a + (b + c)
  {
  }

  // ----- The manual install command

  function ManualPackageCommand(package: string): string {
    "sudo apt-get install --no-install-recommends --yes " + SingleQuoted(package)
  }

  const FIXED_WORDS := ["sudo", "apt-get", "install", "--no-install-recommends", "--yes"]

  lemma JoinAppend(texts: seq<string>, text: string)
    requires texts != []
    ensures Join(texts + [text]) == Join(texts) + " " + text
  {
    assert (texts + [text])[..|texts|] == texts;
  }

  lemma FixedPrefix()
    ensures "sudo" + " " + "apt-get" + " " + "install" == "sudo apt-get install"
    ensures "sudo apt-get install" + " " + "--no-install-recommends" + " " + "--yes" + " " ==
      "sudo apt-get install --no-install-recommends --yes "
  {
  }

  lemma CommandIsJoined(package: string)
    ensures ManualPackageCommand(package) == Join(FIXED_WORDS + [SingleQuoted(package)])
  {
    hide Join, SingleQuoted;
    var two, three, four :=
      ["sudo", "apt-get"], ["sudo", "apt-get", "install"], ["sudo", "apt-get", "install", "--no-install-recommends"];
    SingleJoin("sudo");
    JoinAppend(["sudo"], "apt-get");
    JoinAppend(two, "install");
    JoinAppend(three, "--no-install-recommends");
    JoinAppend(four, "--yes");
    JoinAppend(FIXED_WORDS, SingleQuoted(package));
    assert ["sudo"] + ["apt-get"] == two && two + ["install"] == three;
    assert three + ["--no-install-recommends"] == four && four + ["--yes"] == FIXED_WORDS;
    FixedPrefix();
  }

  lemma SingleJoin(text: string)
    ensures Join([text]) == text
  {
  }

  /** For every package path, the printed command reads back as its five words and the path. */
  lemma ManualCommandRoundTrip(package: string)
    ensures Parse(ManualPackageCommand(package)) == Words(FIXED_WORDS + [package])
  {
    CommandIsJoined(package);
    var texts, words := FIXED_WORDS + [SingleQuoted(package)], FIXED_WORDS + [package];
    forall i | 0 <= i < |texts| ensures Spells(texts[i], words[i]) {
      if i == 5 {
        QuotedTextSpells(package);
      } else {
        FixedWordIsPlain(i);
        PlainWordSpellsItself(FIXED_WORDS[i]);
      }
    }
    JoinRoundTrip(texts, words);
  }

  lemma FixedWordIsPlain(i: nat)
    requires i < 5
    ensures FIXED_WORDS[i] != "" && forall c :: c in FIXED_WORDS[i] ==> IsPlain(c)
  {
    if i == 0 {
      assert FIXED_WORDS[i] == "sudo";
    } else if i == 1 {
      assert FIXED_WORDS[i] == "apt-get";
    } else if i == 2 {
      assert FIXED_WORDS[i] == "install";
    } else if i == 3 {
      assert FIXED_WORDS[i] == "--no-install-recommends";
    } else {
      assert FIXED_WORDS[i] == "--yes";
    }
  }
}
