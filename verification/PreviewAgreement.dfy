/** The preview vector without its credential placeholders is the vector that is launched. */
module PreviewAgreement {
  import opened Collections
  import opened Decimal
  import opened Endpoint
  import opened EngineArgs
  import opened ExtraOptions
  import opened Placeholders
  import opened Text

  const CREDENTIAL_OPTIONS: seq<string> := ["--password1", "--password2", "--oauthaccesstoken1", "--oauthaccesstoken2"]

  predicate IsCredential(token: string) {
    token in CREDENTIAL_OPTIONS
  }

  /** Enough of the shape of a credential option to tell every other generated token apart. */
  lemma CredentialShape(token: string)
    requires IsCredential(token)
    ensures (|token| == 11 && token[2] == 'p') || (|token| == 19 && token[2] == 'o')
    ensures "--" <= token && forall i :: 0 <= i < |token| ==> token[i] != '='
  {
  }

  lemma OtherShape(token: string)
    requires !("--" <= token) || '=' in token || (|token| != 11 && |token| != 19) || (token[2] != 'p' && token[2] != 'o')
    ensures !IsCredential(token)
  {
    hide IsCredential;
    if IsCredential(token) {
      CredentialShape(token);
    }
  }

  // ----- Every generated token but the users is no credential option

  ghost predicate NoCredentials(args: seq<string>) {
    forall i :: 0 <= i < |args| ==> !IsCredential(args[i])
  }

  lemma PortIsNone(configured: string, endpointPort: nat)
    ensures !IsCredential(PortText(configured, endpointPort))
  {
    hide IsCredential;
    DigitsRoundTrip(endpointPort);
    var text := PortText(configured, endpointPort);
    if text != "" {
      if text[0] == '-' {
        assert '-' in text;
      }
      OtherShape(text);
    } else {
      OtherShape(text);
    }
  }

  lemma SslHasNone(name: string, caBundle: string)
    requires |name| == 10
    ensures NoCredentials(SslArgs(name, caBundle))
  {
    hide IsCredential;
    OtherShape(name);
    OtherShape("SSL_verify_mode=1");
    OtherShape("SSL_verifycn_scheme=imap");
    OtherShape("SSL_version=" + MINIMUM_TLS_VERSION);
    OtherShape("SSL_ca_file=" + Trim(caBundle));
  }

  lemma TransportHasNone(profile: Profile, names: Names)
    ensures NoCredentials(Transport(profile, names))
  {
    hide IsCredential, SslArgs, PortText, Hosts;
    PortIsNone(profile.sourcePort, Hosts(profile, names).0.port);
    PortIsNone(profile.destinationPort, Hosts(profile, names).1.port);
    SslHasNone("--sslargs1", profile.sourceCaBundle);
    SslHasNone("--sslargs2", profile.destinationCaBundle);
    OtherShape("--port1");
    OtherShape("--port2");
    OtherShape("--nossl1");
    OtherShape("--notls1");
    OtherShape("--tls1");
    OtherShape("--ssl1");
    OtherShape("--tls2");
    OtherShape("--ssl2");
  }

  lemma FlagNamesAreNone(profile: Profile)
    ensures forall i :: 0 <= i < |Flags(profile)| ==> !IsCredential(Flags(profile)[i].1)
  {
    hide IsCredential;
    forall i | 0 <= i < |Flags(profile)| ensures !IsCredential(Flags(profile)[i].1) {
      OtherShape(Flags(profile)[i].1);
    }
  }

  lemma {:induction false} EnabledHasNone(flags: seq<(bool, string)>)
    requires forall i :: 0 <= i < |flags| ==> !IsCredential(flags[i].1)
    ensures NoCredentials(Enabled(flags))
  {
    hide IsCredential;
    if flags != [] {
      EnabledHasNone(flags[..|flags| - 1]);
    }
  }

  lemma {:induction false} RulesHaveNone(rules: seq<FolderRule>)
    ensures NoCredentials(RulesArgs(rules))
  {
    hide IsCredential, RegexEscape;
    if rules != [] {
      var rule := rules[|rules| - 1];
      RulesHaveNone(rules[..|rules| - 1]);
      OtherShape("--exclude");
      OtherShape("--f1f2");
      OtherShape("^(?:" + RegexEscape(rule.source) + ")$");
      assert (rule.source + "=" + rule.destination)[|rule.source|] == '=';
      OtherShape(rule.source + "=" + rule.destination);
    }
  }

  lemma DigitsAreNone(n: nat)
    ensures !IsCredential(Digits(n))
  {
    hide IsCredential;
    DigitsRoundTrip(n);
    assert Digits(n)[0] in Digits(n);
    OtherShape(Digits(n));
  }

  lemma RatesHaveNone(profile: Profile, throttleDivisor: nat)
    requires Representable(profile) && ThrottleDivides(profile, throttleDivisor)
    ensures NoCredentials(RateArgs(profile, throttleDivisor))
  {
    hide IsCredential, Digits, MessageShare, ByteShare;
    OtherShape("--maxmessagespersecond");
    OtherShape("--maxbytespersecond");
    if profile.maxMessagesPerSecond > 0 {
      DigitsAreNone(MessageShare(profile, throttleDivisor));
    }
    DigitsAreNone(ByteShare(profile, throttleDivisor));
  }

  lemma SpecNameIsNone(j: nat)
    requires j < |OPTION_SPECS|
    ensures !IsCredential("--" + OPTION_SPECS[j].name)
  {
    hide IsCredential;
    var token := "--" + OPTION_SPECS[j].name;
    assert token[2] == OPTION_SPECS[j].name[0];
    OtherShape(token);
  }

  lemma {:induction false} NormalFormHasNone(tokens: seq<string>)
    requires NormalForm(tokens)
    ensures NoCredentials(tokens)
    decreases |tokens|
  {
    hide IsCredential;
    if tokens != [] {
      if IsFlag(tokens[0]) && NormalForm(tokens[1..]) {
        FlagIsNone(tokens[0]);
        NormalFormHasNone(tokens[1..]);
        assert tokens == [tokens[0]] + tokens[1..];
      } else {
        SettingIsNone(tokens[0], tokens[1]);
        NormalFormHasNone(tokens[2..]);
        assert tokens == [tokens[0], tokens[1]] + tokens[2..];
      }
    }
  }

  lemma FlagIsNone(token: string)
    requires IsFlag(token)
    ensures !IsCredential(token)
  {
    hide IsCredential;
    var j :| 0 <= j < |OPTION_SPECS| && OPTION_SPECS[j].kind.Boolean? && token == "--" + OPTION_SPECS[j].name;
    SpecNameIsNone(j);
  }

  lemma SettingIsNone(token: string, value: string)
    requires IsSetting(token, value)
    ensures !IsCredential(token) && !IsCredential(value)
  {
    hide IsCredential;
    var j, v :| 0 <= j < |OPTION_SPECS| && Sets(OPTION_SPECS[j], v, token, value);
    SpecNameIsNone(j);
    DigitsAreNone(v);
  }

  lemma ClosingHasNone(dryRun: bool, extraOptions: seq<string>)
    requires NoCredentials(extraOptions)
    ensures NoCredentials(Closing(dryRun, extraOptions))
  {
    hide IsCredential;
    OtherShape("--dry");
    OtherShape("--nolog");
  }

  lemma TailHasNone(profile: Profile, names: Names, dryRun: bool, throttleDivisor: nat, extraOptions: seq<string>)
    requires Representable(profile) && ThrottleDivides(profile, throttleDivisor) && NormalForm(extraOptions)
    ensures NoCredentials(Tail(profile, names, dryRun, throttleDivisor, extraOptions))
  {
    hide IsCredential, Transport, Flags, Enabled, RulesArgs, RateArgs, Closing, NormalForm, ThrottleDivides;
    TransportHasNone(profile, names);
    FlagNamesAreNone(profile);
    EnabledHasNone(Flags(profile));
    RulesHaveNone(profile.folderMappingRules);
    RatesHaveNone(profile, throttleDivisor);
    NormalFormHasNone(extraOptions);
    ClosingHasNone(dryRun, extraOptions);
  }

  lemma HostIsNone(host: string, defaultPort: nat, names: Names)
    requires Sound(names) && 0 < defaultPort <= U16_MAX
    ensures !IsCredential(CommandEndpointParts(host, defaultPort, names).host)
  {
    hide IsCredential, PartsOf;
    HostIsNeverAnOption(host, defaultPort, names);
    OtherShape(CommandEndpointParts(host, defaultPort, names).host);
  }

  lemma HostsAreNone(profile: Profile, names: Names)
    requires Sound(names)
    ensures !IsCredential(Hosts(profile, names).0.host) && !IsCredential(Hosts(profile, names).1.host)
  {
    HostIsNone(profile.sourceHost, DefaultImapPort(profile.sourceTls), names);
    HostIsNone(profile.destinationHost, DefaultImapPort(EffectiveDestinationTls(profile.destinationTls)), names);
  }

  lemma SideHasNone(side: string, host: string, user: string, auth: string)
    requires side == "1" || side == "2"
    requires !IsCredential(host) && !IsCredential(user)
    ensures NoCredentials(["--host" + side, host, "--user" + side, user] + AuthMechanism(side, auth))
  {
    hide IsCredential;
    OtherShape("--host" + side);
    OtherShape("--user" + side);
    OtherShape("--authmech" + side);
    OtherShape("XOAUTH2");
  }

  // ----- Stripping two well-formed pairs

  /** Three stretches of tokens, with a placeholder pair between them or not. */
  function Layout(p: seq<string>, first: seq<string>, m: seq<string>, second: seq<string>, t: seq<string>): seq<string> {
    p + first + m + second + t
  }

  function PairIf(here: bool, name: string, placeholder: string): seq<string> {
    if here then [name, placeholder] else []
  }

  lemma RemoveOnly(a: seq<string>, option: string, placeholder: string, b: seq<string>)
    requires option !in a && option !in b
    ensures Remove(a + [option, placeholder] + b, option, placeholder) == Removal(a + b, 1, false)
  {
    var args := a + [option, placeholder] + b;
    assert args[..|a|] == a && args[|a| + 2..] == b;
    OnlyPairIsRemoved(args, option, placeholder, |a|);
  }

  /** One removal takes out its pair if it is there, and succeeds either way. */
  lemma RemoveFromLayout(option: string, placeholder: string, p: seq<string>, c1: string, h1: bool,
                         m: seq<string>, c2: string, h2: bool, t: seq<string>)
    requires option !in p && option !in m && option !in t && option != placeholder && c1 != c2
    ensures Remove(Layout(p, PairIf(h1, c1, placeholder), m, PairIf(h2, c2, placeholder), t), option, placeholder)
         == Removal(Layout(p, PairIf(h1 && c1 != option, c1, placeholder), m,
                           PairIf(h2 && c2 != option, c2, placeholder), t),
                    if (h1 && c1 == option) || (h2 && c2 == option) then 1 else 0, false)
  {
    hide Remove;
    var first, second := PairIf(h1, c1, placeholder), PairIf(h2, c2, placeholder);
    if h1 && c1 == option {
      RemoveOnly(p, option, placeholder, m + second + t);
      assert Layout(p, first, m, second, t) == p + [option, placeholder] + (m + second + t);
      assert Layout(p, [], m, second, t) == p + (m + second + t);
    } else if h2 && c2 == option {
      RemoveOnly(p + first + m, option, placeholder, t);
      assert Layout(p, first, m, [], t) == p + first + m + t;
    } else {
      AbsentIsUntouched(Layout(p, first, m, second, t), option, placeholder);
    }
  }

  lemma {:induction false} StripLayout(options: seq<string>, placeholder: string, p: seq<string>, c1: string, h1: bool,
                                       m: seq<string>, c2: string, h2: bool, t: seq<string>)
    requires forall o :: o in options ==> o !in p && o !in m && o !in t && o != placeholder
    requires c1 != c2
    ensures Strip(Layout(p, PairIf(h1, c1, placeholder), m, PairIf(h2, c2, placeholder), t), options, placeholder)
         == Stripped(Layout(p, PairIf(h1 && c1 !in options, c1, placeholder), m,
                            PairIf(h2 && c2 !in options, c2, placeholder), t), true)
    decreases |options|
  {
    hide Remove, Layout, PairIf;
    if options != [] {
      var option := options[0];
      RemoveFromLayout(option, placeholder, p, c1, h1, m, c2, h2, t);
      StripLayout(options[1..], placeholder, p, c1, h1 && c1 != option, m, c2, h2 && c2 != option, t);
      assert c1 in options <==> c1 == option || c1 in options[1..];
      assert c2 in options <==> c2 == option || c2 in options[1..];
    }
  }

  // ----- A user named like a credential option is noticed

  /** The token `u`, then perhaps a placeholder pair, then a token that is no option to strip. */
  function Around(a: seq<string>, u: string, pair: seq<string>, wall: string, b: seq<string>): seq<string> {
    a + ([u] + (pair + ([wall] + b)))
  }

  lemma WallStays(pair: seq<string>, wall: string, b: seq<string>, option: string, placeholder: string) returns (pair': seq<string>, b': seq<string>)
    requires pair == [] || (|pair| == 2 && IsDashed(pair[0]) && pair[1] == placeholder)
    requires option != wall && option != placeholder
    ensures Remove(pair + ([wall] + b), option, placeholder).kept == pair' + ([wall] + b')
    ensures pair' == [] || pair' == pair
  {
    var rest := Remove(b, option, placeholder);
    b' := rest.kept;
    assert ([wall] + b)[1..] == b;
    assert Remove([wall] + b, option, placeholder).kept == [wall] + b';
    if pair == [] {
      pair' := [];
      assert pair + ([wall] + b) == [wall] + b;
      assert [] + ([wall] + b') == [wall] + b';
    } else {
      var args := pair + ([wall] + b);
      assert args[2..] == [wall] + b;
      if pair[0] == option {
        pair' := [];
      } else {
        pair' := pair;
        assert args[1..][1..] == [wall] + b;
        assert args[1..] == [pair[1]] + ([wall] + b);
        assert pair == [pair[0], pair[1]];
        assert pair + ([wall] + b') == [pair[0]] + ([pair[1]] + ([wall] + b'));
      }
    }
  }

  lemma UserIsNoticed(a: seq<string>, u: string, rest: seq<string>, placeholder: string)
    requires IsDashed(u) && u != placeholder && rest != [] && IsDashed(rest[0]) && rest[0] != placeholder
    ensures Remove(a + ([u] + rest), u, placeholder).malformed
  {
    DanglingIsMalformed(a, u, placeholder);
    RemovalSplits(a + [u], rest, u, placeholder);
    assert a + [u] + rest == a + ([u] + rest);
  }

  lemma UserStays(a: seq<string>, u: string, rest: seq<string>, option: string, placeholder: string)
    requires IsDashed(u) && u != placeholder && u != option
    ensures Remove(a + ([u] + rest), option, placeholder).kept
         == Remove(a, option, placeholder).kept + ([u] + Remove(rest, option, placeholder).kept)
  {
    RemovalSplits(a, [u] + rest, option, placeholder);
    assert ([u] + rest)[1..] == rest;
  }

  lemma {:induction false} StripNoticesUser(a: seq<string>, u: string, pair: seq<string>, wall: string, b: seq<string>,
                                            options: seq<string>, placeholder: string)
    requires u in options && IsDashed(u) && u != placeholder
    requires pair == [] || (|pair| == 2 && IsDashed(pair[0]) && pair[0] != placeholder && pair[1] == placeholder)
    requires IsDashed(wall) && wall !in options && wall != placeholder && placeholder !in options
    ensures !Strip(Around(a, u, pair, wall, b), options, placeholder).clean
    decreases |options|
  {
    hide Remove, IsDashed;
    var option := options[0];
    var rest := pair + ([wall] + b);
    if option == u {
      UserIsNoticed(a, u, rest, placeholder);
    } else {
      UserStays(a, u, rest, option, placeholder);
      var pair', b' := WallStays(pair, wall, b, option, placeholder);
      StripNoticesUser(Remove(a, option, placeholder).kept, u, pair', wall, b', options[1..], placeholder);
    }
  }

  // ----- The two vectors

  ghost predicate UsersAreOrdinary(profile: Profile) {
    !IsCredential(profile.sourceUser) && !IsCredential(profile.destinationUser)
  }

  lemma CredentialNames(side: string, auth: string)
    requires side == "1" || side == "2"
    ensures IsCredential(CredentialName(side, auth))
  {
    assert "--password" + "1" == "--password1" && "--password" + "2" == "--password2";
    assert "--oauthaccesstoken" + "1" == "--oauthaccesstoken1" && "--oauthaccesstoken" + "2" == "--oauthaccesstoken2";
  }

  lemma CredentialNamesDiffer(auth1: string, auth2: string)
    ensures CredentialName("1", auth1) != CredentialName("2", auth2)
  {
    var c1, c2 := CredentialName("1", auth1), CredentialName("2", auth2);
    assert c1[|c1| - 1] == '1' && c2[|c2| - 1] == '2';
  }

  lemma PlaceholderIsNone()
    ensures !IsCredential(PLACEHOLDER) && !IsDashed(PLACEHOLDER)
  {
    assert PLACEHOLDER[0] != '-';
    OtherShape(PLACEHOLDER);
  }

  function Before1(profile: Profile, names: Names): seq<string> {
    SourceArgs(profile, names) + AuthMechanism("1", profile.sourceAuth)
  }

  function Before2(profile: Profile, names: Names): seq<string> {
    DestinationArgs(profile, names) + AuthMechanism("2", profile.destinationAuth)
  }

  /** Preview and runtime have one layout, with and without the two pairs. */
  lemma ArgumentsLayout(profile: Profile, names: Names, dryRun: bool, throttleDivisor: nat, preview: bool,
                        extraOptions: seq<string>)
    requires Representable(profile) && ThrottleDivides(profile, throttleDivisor)
    ensures Arguments(profile, names, dryRun, throttleDivisor, if preview then Some(PLACEHOLDER) else None, extraOptions)
         == Layout(Before1(profile, names), PairIf(preview, CredentialName("1", profile.sourceAuth), PLACEHOLDER),
                   Before2(profile, names), PairIf(preview, CredentialName("2", profile.destinationAuth), PLACEHOLDER),
                   Tail(profile, names, dryRun, throttleDivisor, extraOptions))
  {
    hide Tail, SourceArgs, DestinationArgs, AuthMechanism, CredentialName, ThrottleDivides, PLACEHOLDER;
    var pair1 := PairIf(preview, CredentialName("1", profile.sourceAuth), PLACEHOLDER);
    var pair2 := PairIf(preview, CredentialName("2", profile.destinationAuth), PLACEHOLDER);
    Associates(SourceArgs(profile, names), AuthMechanism("1", profile.sourceAuth), pair1);
    var head := Before1(profile, names) + pair1;
    Associates(head, DestinationArgs(profile, names), AuthMechanism("2", profile.destinationAuth));
    Associates(head + DestinationArgs(profile, names), AuthMechanism("2", profile.destinationAuth), pair2);
  }

  lemma AroundPosition(args: seq<string>, k: nat, n: nat)
    requires k < n < |args|
    ensures args == Around(args[..k], args[k], args[k + 1..n], args[n], args[n + 1..])
  {
    assert args[n..] == [args[n]] + args[n + 1..];
    assert args[k + 1..] == args[k + 1..n] + args[n..];
    assert args[k..] == [args[k]] + args[k + 1..];
    assert args == args[..k] + args[k..];
  }

  /** The user at position `k` is followed by a dashed token, with a placeholder pair between them or not. */
  ghost predicate UserAt(args: seq<string>, k: nat, n: nat) {
    && k < n < |args| && IsDashed(args[n]) && !IsCredential(args[n])
    && (n == k + 1 || (n == k + 3 && IsCredential(args[k + 1]) && args[k + 2] == PLACEHOLDER))
  }

  lemma CredentialIsDashed(token: string)
    requires IsCredential(token)
    ensures IsDashed(token) && token != PLACEHOLDER
  {
    hide IsCredential;
    CredentialShape(token);
    PlaceholderIsNone();
  }

  lemma UserAtIsNoticed(args: seq<string>, k: nat, n: nat)
    requires UserAt(args, k, n) && IsCredential(args[k])
    ensures !Strip(args, CREDENTIAL_OPTIONS, PLACEHOLDER).clean
  {
    hide Strip, IsDashed, PLACEHOLDER, Around;
    PlaceholderIsNone();
    CredentialIsDashed(args[k]);
    if n == k + 3 {
      CredentialIsDashed(args[k + 1]);
    }
    AroundPosition(args, k, n);
    StripNoticesUser(args[..k], args[k], args[k + 1..n], args[n], args[n + 1..], CREDENTIAL_OPTIONS, PLACEHOLDER);
  }

  lemma DashedNames()
    ensures IsDashed("--host2") && !IsCredential("--host2")
    ensures IsDashed("--authmech1") && !IsCredential("--authmech1")
    ensures IsDashed("--authmech2") && !IsCredential("--authmech2")
    ensures IsDashed("--port1") && !IsCredential("--port1")
  {
    hide IsCredential;
    OtherShape("--host2");
    OtherShape("--authmech1");
    OtherShape("--authmech2");
    OtherShape("--port1");
  }

  /** In the preview a token follows each user, after its placeholder pair or before it. */
  lemma AuthFollows(head: seq<string>, side: string, auth: string, rest: seq<string>) returns (n: nat)
    requires side == "1" || side == "2"
    requires head != [] && rest != [] && IsDashed(rest[0]) && !IsCredential(rest[0])
    ensures UserAt(head + Auth(side, auth, Some(PLACEHOLDER)) + rest, |head| - 1, n)
  {
    hide IsCredential, IsDashed, PLACEHOLDER;
    DashedNames();
    CredentialNames(side, auth);
    if auth == "oauth2" {
      assert "--authmech" + side == if side == "1" then "--authmech1" else "--authmech2";
      n := |head|;
    } else {
      n := |head| + 2;
    }
  }

  lemma UserIsSeen(profile: Profile, names: Names, dryRun: bool, throttleDivisor: nat, extraOptions: seq<string>)
    requires Representable(profile) && ThrottleDivides(profile, throttleDivisor)
    requires !UsersAreOrdinary(profile)
    ensures var preview := Arguments(profile, names, dryRun, throttleDivisor, Some(PLACEHOLDER), extraOptions);
      !Strip(preview, CREDENTIAL_OPTIONS, PLACEHOLDER).clean
  {
    hide Strip, Auth, Hosts, IsCredential, IsDashed, PLACEHOLDER, ThrottleDivides, UserAt, Closing, RateArgs,
      RulesArgs, Flags, Enabled, SourceTransport, DestinationTransport, PortText;
    DashedNames();
    var auth1 := Auth("1", profile.sourceAuth, Some(PLACEHOLDER));
    var auth2 := Auth("2", profile.destinationAuth, Some(PLACEHOLDER));
    var tail := Tail(profile, names, dryRun, throttleDivisor, extraOptions);
    var preview := Arguments(profile, names, dryRun, throttleDivisor, Some(PLACEHOLDER), extraOptions);
    if IsCredential(profile.sourceUser) {
      var head := SourceArgs(profile, names);
      var rest := DestinationArgs(profile, names) + auth2 + tail;
      var n := AuthFollows(head, "1", profile.sourceAuth, rest);
      assert head + auth1 + rest == preview;
      UserAtIsNoticed(preview, |head| - 1, n);
    } else {
      var head := SourceArgs(profile, names) + auth1 + DestinationArgs(profile, names);
      var n := AuthFollows(head, "2", profile.destinationAuth, tail);
      UserAtIsNoticed(preview, |head| - 1, n);
    }
  }

  lemma OptionsAreAbsent(args: seq<string>)
    requires NoCredentials(args)
    ensures forall o :: o in CREDENTIAL_OPTIONS ==> o !in args
  {
    forall o | o in CREDENTIAL_OPTIONS ensures o !in args {
      assert IsCredential(o);
    }
  }

  lemma OrdinaryUsersStrip(profile: Profile, names: Names, dryRun: bool, throttleDivisor: nat, extraOptions: seq<string>)
    requires Sound(names) && Representable(profile) && ThrottleDivides(profile, throttleDivisor)
    requires NormalForm(extraOptions) && UsersAreOrdinary(profile)
    ensures var preview := Arguments(profile, names, dryRun, throttleDivisor, Some(PLACEHOLDER), extraOptions);
      Strip(preview, CREDENTIAL_OPTIONS, PLACEHOLDER)
      == Stripped(Arguments(profile, names, dryRun, throttleDivisor, None, extraOptions), true)
  {
    hide Strip, Tail, Arguments, ThrottleDivides, NormalForm, Layout, IsCredential, PLACEHOLDER, Hosts, NoCredentials;
    var p, m := Before1(profile, names), Before2(profile, names);
    var tail := Tail(profile, names, dryRun, throttleDivisor, extraOptions);
    var c1, c2 := CredentialName("1", profile.sourceAuth), CredentialName("2", profile.destinationAuth);
    HostsAreNone(profile, names);
    SidesHaveNone(profile, names);
    TailHasNone(profile, names, dryRun, throttleDivisor, extraOptions);
    OptionsAreAbsent(p);
    OptionsAreAbsent(m);
    OptionsAreAbsent(tail);
    PlaceholderIsNone();
    PlaceholderIsAbsent();
    CredentialNames("1", profile.sourceAuth);
    CredentialNames("2", profile.destinationAuth);
    CredentialIsListed(c1);
    CredentialIsListed(c2);
    CredentialNamesDiffer(profile.sourceAuth, profile.destinationAuth);
    ArgumentsLayout(profile, names, dryRun, throttleDivisor, true, extraOptions);
    ArgumentsLayout(profile, names, dryRun, throttleDivisor, false, extraOptions);
    StripLayout(CREDENTIAL_OPTIONS, PLACEHOLDER, p, c1, true, m, c2, true, tail);
  }

  lemma CredentialIsListed(token: string)
    requires IsCredential(token)
    ensures token in CREDENTIAL_OPTIONS
  {
  }

  lemma PlaceholderIsAbsent()
    ensures PLACEHOLDER !in CREDENTIAL_OPTIONS
  {
    PlaceholderIsNone();
  }

  lemma SidesHaveNone(profile: Profile, names: Names)
    requires Sound(names) && UsersAreOrdinary(profile)
    ensures NoCredentials(Before1(profile, names)) && NoCredentials(Before2(profile, names))
  {
    hide IsCredential, NoCredentials, Hosts;
    HostsAreNone(profile, names);
    SideHasNone("1", Hosts(profile, names).0.host, profile.sourceUser, profile.sourceAuth);
    SideHasNone("2", Hosts(profile, names).1.host, profile.destinationUser, profile.destinationAuth);
    assert "--host" + "1" == "--host1" && "--user" + "1" == "--user1";
    assert "--host" + "2" == "--host2" && "--user" + "2" == "--user2";
  }

  lemma UsersAreLaunched(profile: Profile, names: Names, dryRun: bool, throttleDivisor: nat, extraOptions: seq<string>)
    requires Representable(profile) && ThrottleDivides(profile, throttleDivisor)
    ensures var runtime := Arguments(profile, names, dryRun, throttleDivisor, None, extraOptions);
      profile.sourceUser in runtime && profile.destinationUser in runtime
  {
    hide Tail, Hosts, ThrottleDivides, AuthMechanism;
    var runtime := Arguments(profile, names, dryRun, throttleDivisor, None, extraOptions);
    var middle := SourceArgs(profile, names) + Auth("1", profile.sourceAuth, None);
    assert runtime[3] == profile.sourceUser;
    assert runtime[|middle| + 3] == profile.destinationUser;
  }

  /**
   For every accepted profile: stripping the credential placeholders from the preview succeeds,
   and gives the launched vector, exactly when neither user is named like a credential option.
   No other field of the profile can disturb it.
   */
  lemma PreviewAndRuntimeAgree(profile: Profile, names: Names, dryRun: bool, throttleDivisor: nat)
    requires Sound(names) && Representable(profile)
    requires PlanArguments(profile, names, dryRun, throttleDivisor, false).Args?
    ensures PlanArguments(profile, names, dryRun, throttleDivisor, true).Args?
    ensures var runtime := PlanArguments(profile, names, dryRun, throttleDivisor, false).args;
      var preview := PlanArguments(profile, names, dryRun, throttleDivisor, true).args;
      var stripped := Strip(preview, CREDENTIAL_OPTIONS, PLACEHOLDER);
      && (stripped.clean <==> UsersAreOrdinary(profile))
      && (stripped.kept == runtime <==> UsersAreOrdinary(profile))
  {
    hide Strip, Arguments, ThrottleDivides, NormalForm, Canonicalize, PLACEHOLDER, IsCredential;
    var tokens := Canonicalize(profile.extraOptions).tokens;
    CanonicalIsFixedPoint(profile.extraOptions);
    if UsersAreOrdinary(profile) {
      OrdinaryUsersStrip(profile, names, dryRun, throttleDivisor, tokens);
    } else {
      UserIsSeen(profile, names, dryRun, throttleDivisor, tokens);
      UsersAreLaunched(profile, names, dryRun, throttleDivisor, tokens);
      var u := if IsCredential(profile.sourceUser) then profile.sourceUser else profile.destinationUser;
      CredentialIsListed(u);
      StripLeavesNone(Arguments(profile, names, dryRun, throttleDivisor, Some(PLACEHOLDER), tokens),
                      CREDENTIAL_OPTIONS, PLACEHOLDER, u);
    }
  }

  // ----- The plan fingerprint

  const SHAPE_MARKER := "--invalid-generated-secret-argument-shape"
  const OPTIONS_MARKER := "--invalid-extra-options-sha256"

  /** The preview; while the extra options are rejected, that of the rest of the profile and their digest. */
  function Draft(profile: Profile, names: Names, digest: string): seq<string>
    requires Representable(profile)
  {
    ThrottleDividesExactly(profile, 1);
    EmptyOptionsAreCanonical();
    if Canonicalize(profile.extraOptions).Tokens? then PlanArguments(profile, names, false, 1, true).args
    else PlanArguments(profile.(extraOptions := ""), names, false, 1, true).args + [OPTIONS_MARKER, digest]
  }

  /** The part of the plan identity that describes the imapsync arguments; `digest` stands for rejected options. */
  method FingerprintArguments(profile: Profile, names: Names, digest: string) returns (args: seq<string>)
    requires Representable(profile)
    ensures var stripped := Strip(Draft(profile, names, digest), CREDENTIAL_OPTIONS, PLACEHOLDER);
      args == stripped.kept + if stripped.clean then [] else [SHAPE_MARKER]
    ensures forall o :: o in CREDENTIAL_OPTIONS ==> o !in args
    ensures Canonicalize(profile.extraOptions).Refused? && digest !in CREDENTIAL_OPTIONS ==>
      exists kept :: args == kept + [OPTIONS_MARKER, digest] || args == kept + [OPTIONS_MARKER, digest] + [SHAPE_MARKER]
    ensures Canonicalize(profile.extraOptions).Tokens? && Sound(names) ==>
      var runtime := PlanArguments(profile, names, false, 1, false);
      runtime.Args? && (args == runtime.args <==> UsersAreOrdinary(profile))
  {
    hide Strip, Arguments, Canonicalize, PLACEHOLDER, IsCredential;
    var plan := ImapsyncArgs(profile, names, false, 1, true);
    ThrottleDividesExactly(profile, 1);
    if plan.Args? {
      args := plan.args;
      if Sound(names) {
        PreviewAndRuntimeAgree(profile, names, false, 1);
        LaunchedHasUsers(profile, names, false, 1);
      }
    } else {
      EmptyOptionsAreCanonical();
      plan := ImapsyncArgs(profile.(extraOptions := ""), names, false, 1, true);
      args := plan.args + [OPTIONS_MARKER, digest];
      if digest !in CREDENTIAL_OPTIONS {
        DigestIsKept(plan.args, digest);
      }
    }
    var malformed: bool;
    ghost var preview := args;
    args, malformed := StripOptions(args, CREDENTIAL_OPTIONS, PLACEHOLDER);
    StripLeavesNoCredential(preview, args);
    MarkerIsNone();
    if malformed {
      args := args + [SHAPE_MARKER];
    }
  }

  /** A vector without credential options is never the launched one of a user named like one. */
  lemma LaunchedHasUsers(profile: Profile, names: Names, dryRun: bool, throttleDivisor: nat)
    requires Representable(profile)
    requires PlanArguments(profile, names, dryRun, throttleDivisor, false).Args?
    ensures !UsersAreOrdinary(profile) ==>
      exists o :: o in CREDENTIAL_OPTIONS && o in PlanArguments(profile, names, dryRun, throttleDivisor, false).args
  {
    hide Arguments, ThrottleDivides, NormalForm, Canonicalize;
    UsersAreLaunched(profile, names, dryRun, throttleDivisor, Canonicalize(profile.extraOptions).tokens);
  }

  /** Stripping never touches the digest, so the identity of a rejected plan follows its options. */
  lemma {:induction false} DigestSurvives(args: seq<string>, digest: string, options: seq<string>, placeholder: string)
    requires OPTIONS_MARKER !in options && digest !in options && placeholder != OPTIONS_MARKER
    ensures Strip(args + [OPTIONS_MARKER, digest], options, placeholder).kept
         == Strip(args, options, placeholder).kept + [OPTIONS_MARKER, digest]
    decreases |options|
  {
    if options != [] {
      var ending := [OPTIONS_MARKER, digest];
      RemovalSplits(args, ending, options[0], placeholder);
      AbsentIsUntouched(ending, options[0], placeholder);
      DigestSurvives(Remove(args, options[0], placeholder).kept, digest, options[1..], placeholder);
    }
  }

  lemma DigestIsKept(args: seq<string>, digest: string)
    requires digest !in CREDENTIAL_OPTIONS
    ensures Strip(args + [OPTIONS_MARKER, digest], CREDENTIAL_OPTIONS, PLACEHOLDER).kept
         == Strip(args, CREDENTIAL_OPTIONS, PLACEHOLDER).kept + [OPTIONS_MARKER, digest]
  {
    hide Strip;
    OtherShape(OPTIONS_MARKER);
    assert !IsCredential(OPTIONS_MARKER);
    PlaceholderIsNoMarker();
    DigestSurvives(args, digest, CREDENTIAL_OPTIONS, PLACEHOLDER);
  }

  lemma PlaceholderIsNoMarker()
    ensures PLACEHOLDER != OPTIONS_MARKER
  {
    assert |PLACEHOLDER| == 8;
  }

  lemma EmptyOptionsAreCanonical()
    ensures Canonicalize("") == Tokens([])
  {
  }

  lemma MarkerIsNone()
    ensures !IsCredential(SHAPE_MARKER)
  {
    OtherShape(SHAPE_MARKER);
  }

  lemma StripLeavesNoCredential(args: seq<string>, kept: seq<string>)
    requires kept == Strip(args, CREDENTIAL_OPTIONS, PLACEHOLDER).kept
    ensures forall o :: o in CREDENTIAL_OPTIONS ==> o !in kept
  {
    hide Strip;
    forall o | o in CREDENTIAL_OPTIONS ensures o !in kept {
      StripLeavesNone(args, CREDENTIAL_OPTIONS, PLACEHOLDER, o);
    }
  }
}
