/** The imapsync argument vector: built once for the launch, and once with placeholders for the preview. */
module EngineArgs {
  import opened Collections
  import opened Decimal
  import opened Endpoint
  import opened ExtraOptions
  import opened Text

  datatype FolderRule = FolderRule(source: string, destination: string, exclude: bool)

  datatype Profile = Profile(
    sourceHost: string, sourcePort: string, sourceUser: string, sourceAuth: string,
    sourceTls: string, sourceCaBundle: string,
    destinationHost: string, destinationPort: string, destinationUser: string, destinationAuth: string,
    destinationTls: string, destinationCaBundle: string,
    automap: bool, addheader: bool, justfolders: bool, syncInternaldates: bool, useuid: bool,
    usecache: bool, fastio1: bool, fastio2: bool, allowsizemismatch: bool, delete2: bool,
    folderMappingRules: seq<FolderRule>,
    maxMessagesPerSecond: nat, maxBytesPerSecond: nat,
    extraOptions: string
  )

  /** The widths of the rate fields. */
  predicate Representable(profile: Profile) {
    profile.maxMessagesPerSecond <= U32_MAX && profile.maxBytesPerSecond <= U64_MAX
  }

  // ----- Throttle division

  predicate ThrottleDivides(profile: Profile, throttleDivisor: nat) {
    var divisor := Divisor(throttleDivisor);
    && !(profile.maxMessagesPerSecond > 0 && (divisor > U32_MAX || profile.maxMessagesPerSecond < AsU32(divisor)))
    && !(profile.maxBytesPerSecond > 0 && profile.maxBytesPerSecond < divisor)
  }

  function Divisor(throttleDivisor: nat): nat { if throttleDivisor == 0 then 1 else throttleDivisor }

  /** `as u32` keeps the low 32 bits. */
  function AsU32(n: nat): nat { n % (U32_MAX + 1) }

  /** The division is possible exactly when each target, if there is one, reaches the number of children. */
  lemma ThrottleDividesExactly(profile: Profile, throttleDivisor: nat)
    requires Representable(profile)
    ensures var d := Divisor(throttleDivisor);
      ThrottleDivides(profile, throttleDivisor) <==>
        && (profile.maxMessagesPerSecond == 0 || d <= profile.maxMessagesPerSecond)
        && (profile.maxBytesPerSecond == 0 || d <= profile.maxBytesPerSecond)
    ensures Divisor(throttleDivisor) <= profile.maxMessagesPerSecond ==>
      AsU32(Divisor(throttleDivisor)) == Divisor(throttleDivisor)
  {
  }

  /** What one child may use of the message rate; the division is never by zero. */
  function MessageShare(profile: Profile, throttleDivisor: nat): nat
    requires Representable(profile) && ThrottleDivides(profile, throttleDivisor)
    requires profile.maxMessagesPerSecond > 0
  {
    ThrottleDividesExactly(profile, throttleDivisor);
    profile.maxMessagesPerSecond / AsU32(Divisor(throttleDivisor))
  }

  function ByteShare(profile: Profile, throttleDivisor: nat): nat {
    profile.maxBytesPerSecond / Divisor(throttleDivisor)
  }

  /**
   Each child gets at least one unit per second, all children together stay within the target,
   and one more unit each would exceed it.
   */
  lemma RatesShareTheTarget(profile: Profile, throttleDivisor: nat)
    requires Representable(profile) && ThrottleDivides(profile, throttleDivisor)
    ensures profile.maxMessagesPerSecond > 0 ==>
      IsFairShare(MessageShare(profile, throttleDivisor), Divisor(throttleDivisor), profile.maxMessagesPerSecond)
    ensures profile.maxBytesPerSecond > 0 ==>
      IsFairShare(ByteShare(profile, throttleDivisor), Divisor(throttleDivisor), profile.maxBytesPerSecond)
  {
    var d := Divisor(throttleDivisor);
    ThrottleDividesExactly(profile, throttleDivisor);
    if profile.maxMessagesPerSecond > 0 {
      DivisionIsFair(profile.maxMessagesPerSecond, d);
    }
    if profile.maxBytesPerSecond > 0 {
      DivisionIsFair(profile.maxBytesPerSecond, d);
    }
  }

  predicate IsFairShare(share: nat, children: nat, target: nat) {
    1 <= share && share * children <= target < (share + 1) * children
  }

  lemma DivisionIsFair(target: nat, children: nat)
    requires 0 < children <= target
    ensures IsFairShare(target / children, children, target)
  {
    var q, r := target / children, target % children;
    assert target == q * children + r;
    if q == 0 {
      assert false;
    }
    assert (q + 1) * children == q * children + children;
  }

  // ----- Parts of the vector

  const PLACEHOLDER := "\U{2022}\U{2022}\U{2022}\U{2022}\U{2022}\U{2022}\U{2022}\U{2022}"

  const MINIMUM_TLS_VERSION := "SSLv23:!TLSv1:!TLSv1_1:!SSLv3:!SSLv2"

  function EffectiveDestinationTls(mode: string): string {
    if mode == "starttls" then "starttls" else "imaps"
  }

  function DefaultImapPort(tlsMode: string): (port: nat)
    ensures 0 < port <= U16_MAX
  {
    if tlsMode == "starttls" || tlsMode == "plain" then 143 else 993
  }

  /** An endpoint that does not parse becomes a sentinel that no launch accepts. */
  function CommandEndpointParts(host: string, defaultPort: nat, names: Names): Parts {
    match PartsOf(host, defaultPort, names)
    case Some(parts) => parts
    case None => Parts("<invalid-endpoint>", 0)
  }

  function PortText(configured: string, endpointPort: nat): string {
    var port := Trim(configured);
    var parsed := ParseUnsigned(port, U16_MAX);
    if parsed.Some? && parsed.value != 0 then port
    else if port == "" then Digits(endpointPort)
    else "0"
  }

  function AuthMechanism(side: string, auth: string): seq<string> {
    if auth == "oauth2" then ["--authmech" + side, "XOAUTH2"] else []
  }

  function CredentialName(side: string, auth: string): string {
    if auth == "oauth2" then "--oauthaccesstoken" + side else "--password" + side
  }

  function Auth(side: string, auth: string, placeholder: Option<string>): seq<string> {
    AuthMechanism(side, auth)
    + if placeholder.Some? then [CredentialName(side, auth), placeholder.value] else []
  }

  function SslArgs(name: string, caBundle: string): seq<string> {
    [name, "SSL_verify_mode=1", name, "SSL_verifycn_scheme=imap", name, "SSL_version=" + MINIMUM_TLS_VERSION]
    + if Trim(caBundle) != "" then [name, "SSL_ca_file=" + Trim(caBundle)] else []
  }

  function SourceTransport(profile: Profile): seq<string> {
    if profile.sourceTls == "plain" then ["--nossl1", "--notls1"]
    else [if profile.sourceTls == "starttls" then "--tls1" else "--ssl1"] + SslArgs("--sslargs1", profile.sourceCaBundle)
  }

  function DestinationTransport(profile: Profile): seq<string> {
    [if EffectiveDestinationTls(profile.destinationTls) == "starttls" then "--tls2" else "--ssl2"]
    + SslArgs("--sslargs2", profile.destinationCaBundle)
  }

  function Flags(profile: Profile): seq<(bool, string)> {
    [
      (profile.automap, "--automap"),
      (profile.addheader, "--addheader"),
      (profile.justfolders, "--justfolders"),
      (profile.syncInternaldates, "--syncinternaldates"),
      (profile.useuid, "--useuid"),
      (profile.usecache, "--usecache"),
      (profile.fastio1, "--fastio1"),
      (profile.fastio2, "--fastio2"),
      (profile.allowsizemismatch, "--allowsizemismatch"),
      (profile.delete2, "--delete2")
    ]
  }

  function Enabled(flags: seq<(bool, string)>): seq<string> {
    if flags == [] then []
    else Enabled(flags[..|flags| - 1]) + if flags[|flags| - 1].0 then [flags[|flags| - 1].1] else []
  }

  function RuleArgs(rule: FolderRule): seq<string> {
    if rule.exclude then ["--exclude", "^(?:" + RegexEscape(rule.source) + ")$"]
    else ["--f1f2", rule.source + "=" + rule.destination]
  }

  function RulesArgs(rules: seq<FolderRule>): seq<string> {
    if rules == [] then [] else RulesArgs(rules[..|rules| - 1]) + RuleArgs(rules[|rules| - 1])
  }

  function RateArgs(profile: Profile, throttleDivisor: nat): seq<string>
    requires Representable(profile) && ThrottleDivides(profile, throttleDivisor)
  {
    (if profile.maxMessagesPerSecond > 0
     then ["--maxmessagespersecond", Digits(MessageShare(profile, throttleDivisor))] else [])
    + if profile.maxBytesPerSecond > 0
      then ["--maxbytespersecond", Digits(ByteShare(profile, throttleDivisor))] else []
  }

  function Hosts(profile: Profile, names: Names): (Parts, Parts) {
    (CommandEndpointParts(profile.sourceHost, DefaultImapPort(profile.sourceTls), names),
     CommandEndpointParts(profile.destinationHost,
                          DefaultImapPort(EffectiveDestinationTls(profile.destinationTls)), names))
  }

  function SourceArgs(profile: Profile, names: Names): seq<string> {
    ["--host1", Hosts(profile, names).0.host, "--user1", profile.sourceUser]
  }

  function DestinationArgs(profile: Profile, names: Names): seq<string> {
    ["--host2", Hosts(profile, names).1.host, "--user2", profile.destinationUser]
  }

  /** Ports and transport security of both sides. */
  function Transport(profile: Profile, names: Names): seq<string> {
    ["--port1", PortText(profile.sourcePort, Hosts(profile, names).0.port)]
    + SourceTransport(profile)
    + ["--port2", PortText(profile.destinationPort, Hosts(profile, names).1.port)]
    + DestinationTransport(profile)
  }

  /** Everything after the credentials. */
  function Tail(profile: Profile, names: Names, dryRun: bool, throttleDivisor: nat, extraOptions: seq<string>): seq<string>
    requires Representable(profile) && ThrottleDivides(profile, throttleDivisor)
  {
    Transport(profile, names)
    + Enabled(Flags(profile))
    + RulesArgs(profile.folderMappingRules)
    + RateArgs(profile, throttleDivisor)
    + Closing(dryRun, extraOptions)
  }

  function Closing(dryRun: bool, extraOptions: seq<string>): seq<string> {
    (if dryRun then ["--dry"] else []) + ["--nolog"] + extraOptions
  }

  function Arguments(profile: Profile, names: Names, dryRun: bool, throttleDivisor: nat,
                     placeholder: Option<string>, extraOptions: seq<string>): seq<string>
    requires Representable(profile) && ThrottleDivides(profile, throttleDivisor)
  {
    SourceArgs(profile, names) + Auth("1", profile.sourceAuth, placeholder)
    + DestinationArgs(profile, names) + Auth("2", profile.destinationAuth, placeholder)
    + Tail(profile, names, dryRun, throttleDivisor, extraOptions)
  }

  // ----- Folder names as literal patterns

  predicate IsMeta(c: char) { c in "\\.^$*+?()[]{}|" }

  function RegexEscape(value: string): string {
    if value == "" then ""
    else (if IsMeta(value[0]) then ['\\', value[0]] else [value[0]]) + RegexEscape(value[1..])
  }

  /** The one text a pattern without operators matches; None if it contains an operator. */
  function LiteralOf(pattern: string): Option<string> {
    if pattern == "" then Some("")
    else if pattern[0] == '\\' then
      if |pattern| == 1 || !IsMeta(pattern[1]) then None else Then(pattern[1], LiteralOf(pattern[2..]))
    else if IsMeta(pattern[0]) then None
    else Then(pattern[0], LiteralOf(pattern[1..]))
  }

  function Then(c: char, rest: Option<string>): Option<string> {
    if rest.Some? then Some([c] + rest.value) else None
  }

  /** An escaped folder name is a pattern without operators that matches exactly that name. */
  lemma {:induction false} EscapedIsLiteral(value: string)
    ensures LiteralOf(RegexEscape(value)) == Some(value)
  {
    if value != "" {
      EscapedIsLiteral(value[1..]);
      var rest := RegexEscape(value[1..]);
      assert [value[0]] + value[1..] == value;
      if IsMeta(value[0]) {
        assert (['\\', value[0]] + rest)[2..] == rest;
      } else {
        assert ([value[0]] + rest)[1..] == rest;
      }
    }
  }

  // ----- Building the vector

  method AppendAuthArgs(args: seq<string>, side: string, auth: string, placeholder: Option<string>)
      returns (r: seq<string>)
    ensures r == args + Auth(side, auth, placeholder)
  {
    r := args;
    if auth == "oauth2" {
      r := r + ["--authmech" + side, "XOAUTH2"];
      if placeholder.Some? {
        r := r + ["--oauthaccesstoken" + side, placeholder.value];
      }
    } else if placeholder.Some? {
      r := r + ["--password" + side, placeholder.value];
    }
  }

  method AppendSslArgs(args: seq<string>, name: string, caBundle: string) returns (r: seq<string>)
    ensures r == args + SslArgs(name, caBundle)
  {
    r := args + [name, "SSL_verify_mode=1"];
    r := r + [name, "SSL_verifycn_scheme=imap"];
    r := r + [name, "SSL_version=" + MINIMUM_TLS_VERSION];
    if Trim(caBundle) != "" {
      r := r + [name, "SSL_ca_file=" + Trim(caBundle)];
    }
  }

  lemma Associates(a: seq<string>, b: seq<string>, c: seq<string>)
    ensures a + b + c == a + (b + c)
  {
  }

  method AppendTransport(args: seq<string>, profile: Profile, names: Names) returns (r: seq<string>)
    ensures r == args + Transport(profile, names)
  {
    hide SslArgs, PortText, Hosts, SourceTransport, DestinationTransport;
    var port1 := ["--port1", PortText(profile.sourcePort, Hosts(profile, names).0.port)];
    var port2 := ["--port2", PortText(profile.destinationPort, Hosts(profile, names).1.port)];
    r := AppendSourceTransport(args + port1, profile);
    r := AppendDestinationTransport(r + port2, profile);
    Associates(args, port1, SourceTransport(profile));
    Associates(args, port1 + SourceTransport(profile), port2);
    Associates(args, port1 + SourceTransport(profile) + port2, DestinationTransport(profile));
  }

  method AppendSourceTransport(args: seq<string>, profile: Profile) returns (r: seq<string>)
    ensures r == args + SourceTransport(profile)
  {
    hide SslArgs;
    if profile.sourceTls == "plain" {
      // Neither implicit TLS nor the engine's default STARTTLS negotiation.
      r := args + ["--nossl1", "--notls1"];
    } else if profile.sourceTls == "starttls" {
      r := AppendSslArgs(args + ["--tls1"], "--sslargs1", profile.sourceCaBundle);
      Associates(args, ["--tls1"], SslArgs("--sslargs1", profile.sourceCaBundle));
    } else {
      r := AppendSslArgs(args + ["--ssl1"], "--sslargs1", profile.sourceCaBundle);
      Associates(args, ["--ssl1"], SslArgs("--sslargs1", profile.sourceCaBundle));
    }
  }

  method AppendDestinationTransport(args: seq<string>, profile: Profile) returns (r: seq<string>)
    ensures r == args + DestinationTransport(profile)
  {
    hide SslArgs;
    if EffectiveDestinationTls(profile.destinationTls) == "starttls" {
      r := AppendSslArgs(args + ["--tls2"], "--sslargs2", profile.destinationCaBundle);
      Associates(args, ["--tls2"], SslArgs("--sslargs2", profile.destinationCaBundle));
    } else {
      r := AppendSslArgs(args + ["--ssl2"], "--sslargs2", profile.destinationCaBundle);
      Associates(args, ["--ssl2"], SslArgs("--sslargs2", profile.destinationCaBundle));
    }
  }

  method AppendFlags(args: seq<string>, flags: seq<(bool, string)>) returns (r: seq<string>)
    ensures r == args + Enabled(flags)
  {
    r := args;
    for i := 0 to |flags|
      invariant r == args + Enabled(flags[..i])
    {
      if flags[i].0 {
        r := r + [flags[i].1];
      }
      assert flags[..i + 1][..i] == flags[..i];
    }
    assert flags[..|flags|] == flags;
  }

  method AppendRules(args: seq<string>, rules: seq<FolderRule>) returns (r: seq<string>)
    ensures r == args + RulesArgs(rules)
  {
    r := args;
    for i := 0 to |rules|
      invariant r == args + RulesArgs(rules[..i])
    {
      var rule := rules[i];
      if rule.exclude {
        r := r + ["--exclude", "^(?:" + RegexEscape(rule.source) + ")$"];
      } else {
        r := r + ["--f1f2", rule.source + "=" + rule.destination];
      }
      assert rules[..i + 1][..i] == rules[..i];
    }
    assert rules[..|rules|] == rules;
  }

  method AppendRates(args: seq<string>, profile: Profile, throttleDivisor: nat) returns (r: seq<string>)
    requires Representable(profile) && ThrottleDivides(profile, throttleDivisor)
    ensures r == args + RateArgs(profile, throttleDivisor)
  {
    hide Digits, MessageShare, ByteShare;
    r := args;
    if profile.maxMessagesPerSecond > 0 {
      r := r + ["--maxmessagespersecond", Digits(MessageShare(profile, throttleDivisor))];
    }
    if profile.maxBytesPerSecond > 0 {
      r := r + ["--maxbytespersecond", Digits(ByteShare(profile, throttleDivisor))];
    }
  }

  method AppendTail(args: seq<string>, profile: Profile, names: Names, dryRun: bool, throttleDivisor: nat,
                    extraOptions: seq<string>)
      returns (r: seq<string>)
    requires Representable(profile) && ThrottleDivides(profile, throttleDivisor)
    ensures r == args + Tail(profile, names, dryRun, throttleDivisor, extraOptions)
  {
    hide Transport, Enabled, Flags, RulesArgs, RateArgs, ThrottleDivides, Closing;
    var flags := Flags(profile);
    var rules := profile.folderMappingRules;
    r := AppendTransport(args, profile, names);
    r := AppendFlags(r, flags);
    r := AppendRules(r, rules);
    r := AppendRates(r, profile, throttleDivisor);
    r := AppendClosing(r, dryRun, extraOptions);
    ghost var sum := Transport(profile, names);
    Associates(args, sum, Enabled(flags));
    sum := sum + Enabled(flags);
    Associates(args, sum, RulesArgs(rules));
    sum := sum + RulesArgs(rules);
    Associates(args, sum, RateArgs(profile, throttleDivisor));
    sum := sum + RateArgs(profile, throttleDivisor);
    Associates(args, sum, Closing(dryRun, extraOptions));
  }

  method AppendClosing(args: seq<string>, dryRun: bool, extraOptions: seq<string>) returns (r: seq<string>)
    ensures r == args + Closing(dryRun, extraOptions)
  {
    r := args;
    if dryRun {
      r := r + ["--dry"];
    }
    // The application owns the journal and its retention.
    r := r + ["--nolog"];
    r := r + extraOptions;
  }

  method ImapsyncArgsWithExtraOptions(profile: Profile, names: Names, dryRun: bool, throttleDivisor: nat,
                                      includePlaceholders: bool, extraOptions: seq<string>)
      returns (args: seq<string>)
    requires Representable(profile) && ThrottleDivides(profile, throttleDivisor)
    ensures args == Arguments(profile, names, dryRun, throttleDivisor,
                              if includePlaceholders then Some(PLACEHOLDER) else None, extraOptions)
  {
    hide Auth, Hosts, Tail, ThrottleDivides, PLACEHOLDER;
    var placeholder := if includePlaceholders then Some(PLACEHOLDER) else None;
    args := ["--host1", Hosts(profile, names).0.host, "--user1", profile.sourceUser];
    args := AppendAuthArgs(args, "1", profile.sourceAuth, placeholder);
    args := args + ["--host2", Hosts(profile, names).1.host, "--user2", profile.destinationUser];
    args := AppendAuthArgs(args, "2", profile.destinationAuth, placeholder);
    args := AppendTail(args, profile, names, dryRun, throttleDivisor, extraOptions);
  }

  datatype Plan = Args(args: seq<string>) | IndivisibleThrottle | BadOptions(error: OptionError)

  function PlanArguments(profile: Profile, names: Names, dryRun: bool, throttleDivisor: nat,
                         includePlaceholders: bool): Plan
    requires Representable(profile)
  {
    if !ThrottleDivides(profile, throttleDivisor) then IndivisibleThrottle
    else match Canonicalize(profile.extraOptions)
      case Refused(error) => BadOptions(error)
      case Tokens(tokens) =>
        Args(Arguments(profile, names, dryRun, throttleDivisor,
                       if includePlaceholders then Some(PLACEHOLDER) else None, tokens))
  }

  /** The launch form without placeholders, the preview form with them. */
  method ImapsyncArgs(profile: Profile, names: Names, dryRun: bool, throttleDivisor: nat, includePlaceholders: bool)
      returns (plan: Plan)
    requires Representable(profile)
    ensures plan == PlanArguments(profile, names, dryRun, throttleDivisor, includePlaceholders)
  {
    if !ThrottleDivides(profile, throttleDivisor) {
      return IndivisibleThrottle;
    }
    var extraOptions := CanonicalOptions(profile.extraOptions);
    if extraOptions.Refused? {
      return BadOptions(extraOptions.error);
    }
    var args := ImapsyncArgsWithExtraOptions(
      profile, names, dryRun, throttleDivisor, includePlaceholders, extraOptions.tokens);
    plan := Args(args);
  }
}
