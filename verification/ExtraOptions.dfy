/** The allowlist parser of the tuning field, and its canonical form. */
module ExtraOptions {
  import opened Collections
  import opened Decimal
  import opened ShellWords
  import opened Text

  const MAX_EXTRA_OPTIONS_BYTES := 64 * 1024
  const MAX_EXTRA_OPTION_TOKENS := 128

  datatype Kind = Boolean | Integer(least: nat, most: nat)

  datatype Spec = Spec(name: string, kind: Kind)

  const OPTION_SPECS: seq<Spec> := [
    Spec("nofoldersizes", Boolean),
    Spec("skipcrossduplicates", Boolean),
    Spec("subscribe", Boolean),
    Spec("maxlinelength", Integer(1, 16 * 1024 * 1024)),
    Spec("timeout", Integer(1, 86_400)),
    Spec("reconnectretry1", Integer(0, 100)),
    Spec("reconnectretry2", Integer(0, 100)),
    Spec("errorsmax", Integer(0, 100_000)),
    Spec("maxsleep", Integer(0, 86_400)),
    Spec("sleep", Integer(0, 86_400))
  ]

  datatype OptionError =
    | TooLong | BadWords(error: ShellError) | TooManyTokens | NotCanonicalSpelling | NotAllowed
    | ControlCharacter | TakesNoValue | RequiresValue | RequiresNonOption | RequiresInteger | OutOfRange
    | ExpandsTooFar

  datatype Canonical = Tokens(tokens: seq<string>) | Refused(error: OptionError)

  /** `split_once('=')` from position `i` on. */
  function SplitOnce(s: string, i: nat): (string, Option<string>)
    requires i <= |s|
    decreases |s| - i
  {
    if i == |s| then (s, None)
    else if s[i] == '=' then (s[..i], Some(s[i + 1..]))
    else SplitOnce(s, i + 1)
  }

  function FindSpec(name: string, i: nat): Option<Spec>
    decreases |OPTION_SPECS| - i
  {
    if i >= |OPTION_SPECS| then None
    else if OPTION_SPECS[i].name == name then Some(OPTION_SPECS[i])
    else FindSpec(name, i + 1)
  }

  /** The canonical tokens of the first option, and how many words it used. */
  datatype First = First(tokens: seq<string>, used: nat) | Bad(error: OptionError)

  function FirstOption(options: seq<string>): First
    requires options != []
  {
    var (name, inlineValue) := SplitOnce(options[0], 0);
    if !("--" <= name) || "---" <= name then Bad(NotCanonicalSpelling)
    else match FindSpec(name[2..], 0)
      case None => Bad(NotAllowed)
      case Some(spec) =>
        if HasControl(options[0]) then Bad(ControlCharacter)
        else match spec.kind
          case Boolean => if inlineValue.Some? then Bad(TakesNoValue) else First(["--" + spec.name], 1)
          case Integer(least, most) =>
            if inlineValue.Some? then IntegerOption(spec.name, inlineValue.value, least, most, 1)
            else if |options| < 2 then Bad(RequiresValue)
            else if options[1] == "" || options[1][0] == '-' then Bad(RequiresNonOption)
            else IntegerOption(spec.name, options[1], least, most, 2)
  }

  function IntegerOption(name: string, value: string, least: nat, most: nat, used: nat): First {
    match ParseU64(value)
    case None => Bad(RequiresInteger)
    case Some(parsed) =>
      if least <= parsed <= most then First(["--" + name, Digits(parsed)], used) else Bad(OutOfRange)
  }

  lemma FirstOptionUses(options: seq<string>)
    requires options != []
    ensures FirstOption(options).First? ==> 1 <= FirstOption(options).used <= |options|
  {
  }

  function CanonicalTokens(options: seq<string>): Canonical
    decreases |options|
  {
    if options == [] then Tokens([])
    else
      FirstOptionUses(options);
      match FirstOption(options)
      case Bad(error) => Refused(error)
      case First(tokens, used) =>
        match CanonicalTokens(options[used..])
        case Refused(error) => Refused(error)
        case Tokens(rest) => Tokens(tokens + rest)
  }

  function Canonicalize(extraOptions: string): Canonical {
    if ByteLength(extraOptions) > MAX_EXTRA_OPTIONS_BYTES then Refused(TooLong)
    else match Parse(extraOptions)
      case Malformed(error) => Refused(BadWords(error))
      case Words(options) =>
        if |options| > MAX_EXTRA_OPTION_TOKENS then Refused(TooManyTokens)
        else match CanonicalTokens(options)
          case Refused(error) => Refused(error)
          case Tokens(tokens) =>
            if |tokens| > MAX_EXTRA_OPTION_TOKENS then Refused(ExpandsTooFar) else Tokens(tokens)
  }

  /** Read the words from left to right, appending canonical tokens. */
  method CanonicalOptions(extraOptions: string) returns (r: Canonical)
    ensures r == Canonicalize(extraOptions)
  {
    hide FirstOption, OPTION_SPECS, Parse, ByteLength;
    if ByteLength(extraOptions) > MAX_EXTRA_OPTIONS_BYTES {
      return Refused(TooLong);
    }
    var parsed := ParseShellWords(extraOptions);
    if parsed.Malformed? {
      return Refused(BadWords(parsed.error));
    }
    var options := parsed.words;
    if |options| > MAX_EXTRA_OPTION_TOKENS {
      return Refused(TooManyTokens);
    }
    var canonical: seq<string>, index := [], 0;
    while index < |options|
      invariant index <= |options|
      invariant CanonicalTokens(options) == Prepend(canonical, CanonicalTokens(options[index..]))
      decreases |options| - index
    {
      FirstOptionUses(options[index..]);
      var first := FirstOption(options[index..]);
      match first
      case Bad(error) => return Refused(error);
      case First(tokens, used) =>
        PrependTwice(canonical, tokens, CanonicalTokens(options[index..][used..]));
        assert options[index..][used..] == options[index + used..];
        canonical, index := canonical + tokens, index + used;
    }
    assert options[index..] == [];
    if |canonical| > MAX_EXTRA_OPTION_TOKENS {
      return Refused(ExpandsTooFar);
    }
    r := Tokens(canonical);
  }

  function Prepend(tokens: seq<string>, c: Canonical): Canonical {
    match c
    case Refused(error) => Refused(error)
    case Tokens(rest) => Tokens(tokens + rest)
  }

  lemma PrependTwice(a: seq<string>, b: seq<string>, c: Canonical)
    ensures Prepend(a + b, c) == Prepend(a, Prepend(b, c))
  {
    if c.Tokens? {
      assert a + b + c.tokens == a + (b + c.tokens);
    }
  }

  // ----- Normal form

  /** An allowlisted flag, or an allowlisted option with an integer in its range. */
  ghost predicate IsFlag(token: string) {
    exists i :: 0 <= i < |OPTION_SPECS| && OPTION_SPECS[i].kind.Boolean? && token == "--" + OPTION_SPECS[i].name
  }

  ghost predicate IsSetting(token: string, value: string) {
    exists i, v :: 0 <= i < |OPTION_SPECS| && Sets(OPTION_SPECS[i], v, token, value)
  }

  ghost predicate Sets(spec: Spec, v: nat, token: string, value: string) {
    spec.kind.Integer? && spec.kind.least <= v <= spec.kind.most && token == "--" + spec.name && value == Digits(v)
  }

  ghost predicate NormalForm(tokens: seq<string>) {
    tokens != [] ==>
      || (IsFlag(tokens[0]) && NormalForm(tokens[1..]))
      || (|tokens| >= 2 && IsSetting(tokens[0], tokens[1]) && NormalForm(tokens[2..]))
  }

  lemma {:induction false} FoundSpec(name: string, i: nat)
    ensures FindSpec(name, i).Some? ==>
      exists j :: i <= j < |OPTION_SPECS| && OPTION_SPECS[j] == FindSpec(name, i).value && OPTION_SPECS[j].name == name
    decreases |OPTION_SPECS| - i
  {
    if i < |OPTION_SPECS| && OPTION_SPECS[i].name != name {
      FoundSpec(name, i + 1);
    }
  }

  lemma IntegerOptionIsSetting(spec: Spec, j: nat, value: string, used: nat)
    requires j < |OPTION_SPECS| && OPTION_SPECS[j] == spec && spec.kind.Integer?
    requires IntegerOption(spec.name, value, spec.kind.least, spec.kind.most, used).First?
    ensures var tokens := IntegerOption(spec.name, value, spec.kind.least, spec.kind.most, used).tokens;
      |tokens| == 2 && IsSetting(tokens[0], tokens[1])
  {
    var v := ParseU64(value).value;
    assert Sets(OPTION_SPECS[j], v, "--" + spec.name, Digits(v));
  }

  lemma FirstOptionIsNormal(options: seq<string>)
    requires options != [] && FirstOption(options).First?
    ensures var tokens := FirstOption(options).tokens;
      (|tokens| == 1 && IsFlag(tokens[0])) || (|tokens| == 2 && IsSetting(tokens[0], tokens[1]))
  {
    hide FindSpec, IsFlag, IsSetting, IntegerOption, SplitOnce;
    var (name, inlineValue) := SplitOnce(options[0], 0);
    FoundSpec(name[2..], 0);
    var spec := FindSpec(name[2..], 0).value;
    var j :| 0 <= j < |OPTION_SPECS| && OPTION_SPECS[j] == spec;
    if spec.kind.Boolean? {
      SpecIsFlag(j);
    } else if inlineValue.Some? {
      IntegerOptionIsSetting(spec, j, inlineValue.value, 1);
    } else {
      IntegerOptionIsSetting(spec, j, options[1], 2);
    }
  }

  lemma SpecIsFlag(j: nat)
    requires j < |OPTION_SPECS| && OPTION_SPECS[j].kind.Boolean?
    ensures IsFlag("--" + OPTION_SPECS[j].name)
  {
  }

  lemma {:induction false} CanonicalIsNormal(options: seq<string>)
    requires CanonicalTokens(options).Tokens?
    ensures NormalForm(CanonicalTokens(options).tokens)
    decreases |options|
  {
    if options != [] {
      FirstOptionUses(options);
      FirstOptionIsNormal(options);
      var first := FirstOption(options);
      CanonicalIsNormal(options[first.used..]);
      var rest := CanonicalTokens(options[first.used..]).tokens;
      assert (first.tokens + rest)[|first.tokens|..] == rest;
    }
  }

  // ----- Fixed point

  lemma {:induction false} NoEqualsSign(s: string, i: nat)
    requires i <= |s| && forall k :: i <= k < |s| ==> s[k] != '='
    ensures SplitOnce(s, i) == (s, None)
    decreases |s| - i
  {
    if i < |s| {
      NoEqualsSign(s, i + 1);
    }
  }

  /** Lower-case letters and digits only. */
  predicate IsBare(name: string) {
    name != "" && |name| <= 20 && forall k :: 0 <= k < |name| ==> 'a' <= name[k] <= 'z' || IsDigit(name[k])
  }

  lemma SpecNamesAreBare(j: nat)
    requires j < |OPTION_SPECS|
    ensures IsBare(OPTION_SPECS[j].name)
  {
  }

  lemma SpecIsFound(j: nat)
    requires j < |OPTION_SPECS|
    ensures FindSpec(OPTION_SPECS[j].name, 0) == Some(OPTION_SPECS[j])
  {
  }

  /** A token that the shell parser and the splitter leave alone. */
  ghost predicate IsInert(token: string) {
    && token != "" && |token| <= 22
    && forall k :: 0 <= k < |token| ==>
         token[k] == '-' || 'a' <= token[k] <= 'z' || IsDigit(token[k])
  }

  lemma InertIsPlain(token: string)
    requires IsInert(token)
    ensures Spells(token, token) && IsAscii(token) && !HasControl(token) && SplitOnce(token, 0) == (token, None)
  {
    forall c | c in token ensures IsPlain(c) && !IsControl(c) {
      var k :| 0 <= k < |token| && token[k] == c;
    }
    PlainWordSpellsItself(token);
    NoEqualsSign(token, 0);
  }

  lemma OptionTokenIsInert(name: string)
    requires IsBare(name)
    ensures var token := "--" + name;
      IsInert(token) && "--" <= token && !("---" <= token) && token[2..] == name
  {
    var token := "--" + name;
    assert token[2] == name[0];
  }

  lemma DigitsAreInert(v: nat)
    requires v <= 16 * 1024 * 1024
    ensures IsInert(Digits(v)) && Digits(v)[0] != '-' && ParseU64(Digits(v)) == Some(v)
  {
    assert Pow10(8) == 100_000_000;
    DigitsLength(v, 8);
    DigitsRoundTrip(v);
    ParsePrinted(v);
    forall k | 0 <= k < |Digits(v)| ensures IsDigit(Digits(v)[k]) {
      assert Digits(v)[k] in Digits(v);
    }
  }

  lemma FlagIsFixed(tokens: seq<string>)
    requires tokens != [] && IsFlag(tokens[0])
    ensures FirstOption(tokens) == First([tokens[0]], 1) && IsInert(tokens[0])
  {
    hide FindSpec, SplitOnce, IsInert, IsBare;
    var j :| 0 <= j < |OPTION_SPECS| && OPTION_SPECS[j].kind.Boolean? && tokens[0] == "--" + OPTION_SPECS[j].name;
    SpecNamesAreBare(j);
    OptionTokenIsInert(OPTION_SPECS[j].name);
    InertIsPlain(tokens[0]);
    SpecIsFound(j);
  }

  lemma SpecRangesFit(j: nat)
    requires j < |OPTION_SPECS| && OPTION_SPECS[j].kind.Integer?
    ensures OPTION_SPECS[j].kind.most <= 16 * 1024 * 1024
  {
  }

  lemma SettingIsFixed(tokens: seq<string>)
    requires |tokens| >= 2 && IsSetting(tokens[0], tokens[1])
    ensures FirstOption(tokens) == First([tokens[0], tokens[1]], 2) && IsInert(tokens[0]) && IsInert(tokens[1])
  {
    hide FindSpec, SplitOnce, IsBare, IsInert, Digits, ParseU64;
    var j, v :| 0 <= j < |OPTION_SPECS| && Sets(OPTION_SPECS[j], v, tokens[0], tokens[1]);
    SpecNamesAreBare(j);
    OptionTokenIsInert(OPTION_SPECS[j].name);
    InertIsPlain(tokens[0]);
    SpecIsFound(j);
    SpecRangesFit(j);
    DigitsAreInert(v);
    InertIsNotEmpty(tokens[1]);
  }

  lemma InertIsNotEmpty(token: string)
    requires IsInert(token)
    ensures token != ""
  {
  }

  ghost predicate AllInert(tokens: seq<string>) {
    forall i :: 0 <= i < |tokens| ==> IsInert(tokens[i])
  }

  /** A normal form is what the token parser makes of itself. */
  lemma {:induction false} NormalFormIsFixed(tokens: seq<string>)
    requires NormalForm(tokens)
    ensures CanonicalTokens(tokens) == Tokens(tokens) && AllInert(tokens)
    decreases |tokens|
  {
    hide FirstOption, IsFlag, IsSetting, IsInert;
    if tokens != [] {
      if IsFlag(tokens[0]) && NormalForm(tokens[1..]) {
        FlagIsFixed(tokens);
        NormalFormIsFixed(tokens[1..]);
        assert [tokens[0]] + tokens[1..] == tokens;
      } else {
        SettingIsFixed(tokens);
        NormalFormIsFixed(tokens[2..]);
        assert [tokens[0], tokens[1]] + tokens[2..] == tokens;
      }
    }
  }

  lemma {:induction false} JoinedIsShort(tokens: seq<string>)
    requires AllInert(tokens)
    ensures |Join(tokens)| <= 23 * |tokens| && IsAscii(Join(tokens))
  {
    if tokens != [] {
      assert IsInert(tokens[|tokens| - 1]);
      if |tokens| > 1 {
        JoinedIsShort(tokens[..|tokens| - 1]);
      }
    }
  }

  /**
   Canonical options are a normal form: at most 128 allowlisted flags and settings in
   range, which joined by spaces are accepted again and give the same tokens.
   */
  lemma CanonicalIsFixedPoint(extraOptions: string)
    requires Canonicalize(extraOptions).Tokens?
    ensures var tokens := Canonicalize(extraOptions).tokens;
      && |tokens| <= MAX_EXTRA_OPTION_TOKENS
      && NormalForm(tokens)
      && Canonicalize(Join(tokens)) == Tokens(tokens)
  {
    hide NormalForm, CanonicalTokens, Parse, Join, ByteLength, IsInert, Spells;
    var tokens := Canonicalize(extraOptions).tokens;
    CanonicalIsNormal(Parse(extraOptions).words);
    NormalFormIsFixed(tokens);
    JoinedIsShort(tokens);
    AsciiByteLength(Join(tokens));
    forall i | 0 <= i < |tokens| ensures Spells(tokens[i], tokens[i]) {
      InertIsPlain(tokens[i]);
    }
    JoinRoundTrip(tokens, tokens);
  }

  // ----- Exactly which words are accepted

  /** The value of an option: an integer in its range. */
  predicate Fits(spec: Spec, value: string) {
    && spec.kind.Integer? && ParseU64(value).Some?
    && spec.kind.least <= ParseU64(value).value <= spec.kind.most
  }

  /** A flag alone, or an option with its value behind an equals sign or as the next word. */
  predicate Uses(spec: Spec, words: seq<string>) {
    var token := "--" + spec.name;
    || (spec.kind.Boolean? && words == [token])
    || (|words| == 1 && token + "=" <= words[0] && Fits(spec, words[0][|token| + 1..]))
    || (|words| == 2 && words[0] == token && words[1] != "" && words[1][0] != '-' && Fits(spec, words[1]))
  }

  /** Such a use says this: the flag, or the option and its value in plain decimal. */
  predicate Says(spec: Spec, words: seq<string>, tokens: seq<string>) {
    && Uses(spec, words)
    && if spec.kind.Boolean? then tokens == ["--" + spec.name]
       else
         var value := if |words| == 2 then words[1] else words[0][|spec.name| + 3..];
         ParseU64(value).Some? && tokens == ["--" + spec.name, Digits(ParseU64(value).value)]
  }

  /** The words are allowlisted uses in a row, and the tokens what these say. */
  ghost predicate Denotes(words: seq<string>, tokens: seq<string>)
    decreases |words|
  {
    if words == [] then tokens == []
    else exists used: nat, said: nat, j: nat ::
      SaysFirst(words, tokens, used, said, j) && Denotes(words[used..], tokens[said..])
  }

  predicate SaysFirst(words: seq<string>, tokens: seq<string>, used: nat, said: nat, j: nat) {
    && 1 <= used <= |words| && said <= |tokens| && j < |OPTION_SPECS|
    && Says(OPTION_SPECS[j], words[..used], tokens[..said])
  }

  lemma {:induction false} SplitMeans(s: string, i: nat)
    requires i <= |s| && forall k :: 0 <= k < i ==> s[k] != '='
    ensures match SplitOnce(s, i)
      case (name, None) => name == s && '=' !in s
      case (name, Some(value)) => s == name + "=" + value && '=' !in name
    decreases |s| - i
  {
    if i < |s| {
      if s[i] == '=' {
        assert s == s[..i] + "=" + s[i + 1..];
      } else {
        SplitMeans(s, i + 1);
      }
    }
  }

  lemma {:induction false} SplitAtEquals(s: string, i: nat, at: nat)
    requires i <= at < |s| && s[at] == '=' && forall k :: i <= k < at ==> s[k] != '='
    ensures SplitOnce(s, i) == (s[..at], Some(s[at + 1..]))
    decreases |s| - i
  {
    if i < at {
      SplitAtEquals(s, i + 1, at);
    }
  }

  /** What the parser takes for the first option is a use of an allowlisted one, and says its tokens. */
  lemma FirstOptionSays(options: seq<string>) returns (j: nat)
    requires options != [] && FirstOption(options).First?
    ensures
      var first := FirstOption(options);
      && first.used <= |options| && j < |OPTION_SPECS|
      && Says(OPTION_SPECS[j], options[..first.used], first.tokens)
  {
    hide FindSpec, SplitOnce, OPTION_SPECS, ParseU64, Digits;
    var (name, inlineValue) := SplitOnce(options[0], 0);
    SplitMeans(options[0], 0);
    FoundSpec(name[2..], 0);
    var spec := FindSpec(name[2..], 0).value;
    j :| 0 <= j < |OPTION_SPECS| && OPTION_SPECS[j] == spec && OPTION_SPECS[j].name == name[2..];
    assert name == "--" + spec.name;
    if inlineValue.Some? {
      var token := "--" + spec.name;
      assert options[..1] == [options[0]] && options[0][|token| + 1..] == inlineValue.value;
      assert token + "=" <= options[0];
    } else if spec.kind.Boolean? {
      assert options[..1] == [options[0]];
    } else {
      assert options[..2] == [options[0], options[1]];
    }
  }

  lemma ParsedHasNoControl(value: string)
    requires ParseU64(value).Some?
    ensures !HasControl(value)
  {
    forall c | c in value ensures !IsControl(c) {
      assert c == value[0] || c in value[1..];
    }
  }

  lemma NoControlInBoth(a: string, b: string, c: string)
    requires !HasControl(a) && !HasControl(c) && b == "="
    ensures !HasControl(a + b + c)
  {
    forall x | x in a + b + c ensures !IsControl(x) {
      assert x in a || x == '=' || x in c;
    }
  }

  /** A use of an allowlisted option is what the parser takes for the first option. */
  lemma SaysIsFirst(options: seq<string>, used: nat, j: nat, tokens: seq<string>)
    requires 1 <= used <= |options| && j < |OPTION_SPECS|
    requires Says(OPTION_SPECS[j], options[..used], tokens)
    ensures FirstOption(options) == First(tokens, used)
  {
    hide FindSpec, SplitOnce, OPTION_SPECS, ParseU64, Digits, HasControl, IsInert;
    var spec := OPTION_SPECS[j];
    var token := "--" + spec.name;
    SpecNamesAreBare(j);
    SpecIsFound(j);
    OptionTokenIsInert(spec.name);
    InertIsPlain(token);
    assert options[..used][0] == options[0];
    if options[0] == token {
      assert used == 2 ==> options[..used][1] == options[1];
    } else {
      var value := options[0][|token| + 1..];
      assert options[0] == token + "=" + value && options[0][..|token|] == token && |options[..used]| == used == 1;
      NoEqualsInInert(token);
      SplitAtEquals(options[0], 0, |token|);
      ParsedHasNoControl(value);
      NoControlInBoth(token, "=", value);
    }
  }

  lemma NoEqualsInInert(token: string)
    requires IsInert(token)
    ensures forall k :: 0 <= k < |token| ==> token[k] != '='
  {
  }

  /** The words are accepted with these tokens exactly when they denote them. */
  lemma {:induction false} AcceptedExactly(words: seq<string>, tokens: seq<string>)
    ensures CanonicalTokens(words) == Tokens(tokens) <==> Denotes(words, tokens)
    decreases |words|
  {
    hide FirstOption, Says, OPTION_SPECS;
    if words != [] {
      if CanonicalTokens(words) == Tokens(tokens) {
        FirstOptionUses(words);
        var first := FirstOption(words);
        var j := FirstOptionSays(words);
        var rest := CanonicalTokens(words[first.used..]).tokens;
        AcceptedExactly(words[first.used..], rest);
        assert tokens[..|first.tokens|] == first.tokens && tokens[|first.tokens|..] == rest;
        assert SaysFirst(words, tokens, first.used, |first.tokens|, j);
      }
      if Denotes(words, tokens) {
        var used: nat, said: nat, j: nat :|
          SaysFirst(words, tokens, used, said, j) && Denotes(words[used..], tokens[said..]);
        SaysIsFirst(words, used, j, tokens[..said]);
        AcceptedExactly(words[used..], tokens[said..]);
        assert tokens[..said] + tokens[said..] == tokens;
      }
    }
  }

  /** The field is accepted exactly within its size limits, with well-formed words that denote the tokens. */
  lemma CanonicalExactly(extraOptions: string, tokens: seq<string>)
    ensures Canonicalize(extraOptions) == Tokens(tokens) <==>
      && ByteLength(extraOptions) <= 64 * 1024
      && Parse(extraOptions).Words? && |Parse(extraOptions).words| <= 128 && |tokens| <= 128
      && Denotes(Parse(extraOptions).words, tokens)
  {
    hide CanonicalTokens, Denotes, Parse, ByteLength;
    if Parse(extraOptions).Words? {
      AcceptedExactly(Parse(extraOptions).words, tokens);
    }
  }
}
