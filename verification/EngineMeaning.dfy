/** What an imapsync command line asks for, read back by the engine's own rules for options and values. */
module EngineMeaning {
  import opened Collections
  import opened Decimal
  import opened Endpoint
  import opened EngineArgs
  import opened ExtraOptions
  import opened Text

  /** The two accounts as imapsync numbers them. */
  datatype Account = Source | Destination

  datatype Key =
    | Host(account: Account) | User(account: Account) | Port(account: Account)
    | Mechanism(account: Account) | Password(account: Account) | AccessToken(account: Account)
    | ImplicitTls(account: Account) | StartTls(account: Account) | TlsSetting(account: Account)
    | NoImplicitTls | NoStartTls
    | AutoMap | AddHeader | JustFolders | SyncInternalDates | UseUid | UseCache
    | FastIo(account: Account) | AllowSizeMismatch | DeleteExtras
    | ExcludeFolder | MapFolder | MessageRate | ByteRate | DryRun | NoLog
    | Tuning(spec: Spec)

  /** The options that a command line can name, grouped by length. */
  function Generated(name: string): Option<Key> {
    match |name|
    case 5 => if name == "--dry" then Some(DryRun) else None
    case 6 =>
      if name == "--ssl1" then Some(ImplicitTls(Source)) else if name == "--ssl2" then Some(ImplicitTls(Destination))
      else if name == "--tls1" then Some(StartTls(Source)) else if name == "--tls2" then Some(StartTls(Destination))
      else if name == "--f1f2" then Some(MapFolder) else None
    case 7 =>
      if name == "--host1" then Some(Host(Source)) else if name == "--host2" then Some(Host(Destination))
      else if name == "--user1" then Some(User(Source)) else if name == "--user2" then Some(User(Destination))
      else if name == "--port1" then Some(Port(Source)) else if name == "--port2" then Some(Port(Destination))
      else if name == "--nolog" then Some(NoLog) else None
    case 8 =>
      if name == "--nossl1" then Some(NoImplicitTls) else if name == "--notls1" then Some(NoStartTls)
      else if name == "--useuid" then Some(UseUid) else None
    case 9 =>
      if name == "--automap" then Some(AutoMap)
      else if name == "--fastio1" then Some(FastIo(Source)) else if name == "--fastio2" then Some(FastIo(Destination))
      else if name == "--delete2" then Some(DeleteExtras) else if name == "--exclude" then Some(ExcludeFolder) else None
    case 10 =>
      if name == "--sslargs1" then Some(TlsSetting(Source)) else if name == "--sslargs2" then Some(TlsSetting(Destination))
      else if name == "--usecache" then Some(UseCache) else None
    case 11 =>
      if name == "--authmech1" then Some(Mechanism(Source)) else if name == "--authmech2" then Some(Mechanism(Destination))
      else if name == "--password1" then Some(Password(Source)) else if name == "--password2" then Some(Password(Destination))
      else if name == "--addheader" then Some(AddHeader) else None
    case 13 => if name == "--justfolders" then Some(JustFolders) else None
    case 19 =>
      if name == "--oauthaccesstoken1" then Some(AccessToken(Source))
      else if name == "--oauthaccesstoken2" then Some(AccessToken(Destination))
      else if name == "--syncinternaldates" then Some(SyncInternalDates)
      else if name == "--allowsizemismatch" then Some(AllowSizeMismatch)
      else if name == "--maxbytespersecond" then Some(ByteRate) else None
    case 22 => if name == "--maxmessagespersecond" then Some(MessageRate) else None
    case _ => None
  }

  function Meaning(name: string): Option<Key> {
    if Generated(name).Some? then Generated(name)
    else if !("--" <= name) then None
    else match FindSpec(name[2..], 0)
      case None => None
      case Some(spec) => Some(Tuning(spec))
  }

  predicate TakesValue(key: Key) {
    match key
    case Host(_) | User(_) | Port(_) | Mechanism(_) | Password(_) | AccessToken(_) | TlsSetting(_) => true
    case ExcludeFolder | MapFolder | MessageRate | ByteRate => true
    case Tuning(spec) => spec.kind.Integer?
    case _ => false
  }

  datatype Request = Asked(key: Key, value: Option<string>) | Unknown(token: string)

  /** An option that takes a value takes the next token, whatever it looks like. */
  function Read(args: seq<string>): seq<Request> {
    if args == [] then []
    else match Meaning(args[0])
      case None => [Unknown(args[0])] + Read(args[1..])
      case Some(key) =>
        if TakesValue(key) && |args| >= 2 then [Asked(key, Some(args[1]))] + Read(args[2..])
        else [Asked(key, None)] + Read(args[1..])
  }

  /** The values with which an option is asked for, in order; None for an option without one. */
  function Values(requests: seq<Request>, key: Key): seq<Option<string>> {
    if requests == [] then []
    else
      var last := requests[|requests| - 1];
      Values(requests[..|requests| - 1], key) + if last.Asked? && last.key == key then [last.value] else []
  }

  lemma {:induction false} ValuesConcat(a: seq<Request>, b: seq<Request>, key: Key)
    ensures Values(a + b, key) == Values(a, key) + Values(b, key)
  {
    if b == [] {
      assert a + b == a;
    } else {
      ValuesConcat(a, b[..|b| - 1], key);
      assert (a + b)[..|a + b| - 1] == a + b[..|b| - 1];
    }
  }

  // ----- Spellings

  /** The token that names an option. */
  function Spelling(key: Key): string {
    match key
    case Host(a) => if a.Source? then "--host1" else "--host2"
    case User(a) => if a.Source? then "--user1" else "--user2"
    case Port(a) => if a.Source? then "--port1" else "--port2"
    case Mechanism(a) => if a.Source? then "--authmech1" else "--authmech2"
    case Password(a) => if a.Source? then "--password1" else "--password2"
    case AccessToken(a) => if a.Source? then "--oauthaccesstoken1" else "--oauthaccesstoken2"
    case ImplicitTls(a) => if a.Source? then "--ssl1" else "--ssl2"
    case StartTls(a) => if a.Source? then "--tls1" else "--tls2"
    case TlsSetting(a) => if a.Source? then "--sslargs1" else "--sslargs2"
    case NoImplicitTls => "--nossl1"
    case NoStartTls => "--notls1"
    case AutoMap => "--automap"
    case AddHeader => "--addheader"
    case JustFolders => "--justfolders"
    case SyncInternalDates => "--syncinternaldates"
    case UseUid => "--useuid"
    case UseCache => "--usecache"
    case FastIo(a) => if a.Source? then "--fastio1" else "--fastio2"
    case AllowSizeMismatch => "--allowsizemismatch"
    case DeleteExtras => "--delete2"
    case ExcludeFolder => "--exclude"
    case MapFolder => "--f1f2"
    case MessageRate => "--maxmessagespersecond"
    case ByteRate => "--maxbytespersecond"
    case DryRun => "--dry"
    case NoLog => "--nolog"
    case Tuning(spec) => "--" + spec.name
  }

  lemma AccountIsRead(key: Key)
    requires key.Host? || key.User? || key.Port?
    ensures Generated(Spelling(key)) == Some(key)
  {
    hide OPTION_SPECS;
  }

  lemma AuthIsRead(key: Key)
    requires key.Mechanism? || key.Password? || key.AccessToken?
    ensures Generated(Spelling(key)) == Some(key)
  {
    hide OPTION_SPECS;
  }

  lemma TlsIsRead(key: Key)
    requires key.ImplicitTls? || key.StartTls? || key.TlsSetting? || key.NoImplicitTls? || key.NoStartTls?
    ensures Generated(Spelling(key)) == Some(key)
  {
    hide OPTION_SPECS;
  }

  lemma FlagIsRead(key: Key)
    requires key.AutoMap? || key.AddHeader? || key.JustFolders? || key.SyncInternalDates? || key.UseUid?
    ensures Generated(Spelling(key)) == Some(key)
  {
    hide OPTION_SPECS;
  }

  lemma OtherFlagIsRead(key: Key)
    requires key.UseCache? || key.FastIo? || key.AllowSizeMismatch? || key.DeleteExtras? || key.DryRun? || key.NoLog?
    ensures Generated(Spelling(key)) == Some(key)
  {
    hide OPTION_SPECS;
  }

  lemma FolderOrRateIsRead(key: Key)
    requires key.ExcludeFolder? || key.MapFolder? || key.MessageRate? || key.ByteRate?
    ensures Generated(Spelling(key)) == Some(key)
  {
    hide OPTION_SPECS;
  }

  /** No option that the program sets itself has this length, or this length and initial. */
  predicate IsFree(name: string) {
    || |name| == 15 || |name| == 17 || |name| == 21
    || (|name| == 7 && name[2] == 's') || (|name| == 9 && name[2] == 't') || (|name| == 10 && name[2] == 'm')
    || (|name| == 11 && name[2] in "se")
  }

  lemma FreeIsNotGenerated(name: string)
    requires IsFree(name)
    ensures Generated(name).None?
  {
    hide OPTION_SPECS;
  }

  lemma TuningIsFree(j: nat)
    requires j < |OPTION_SPECS|
    ensures IsFree("--" + OPTION_SPECS[j].name)
  {
    assert ("--" + OPTION_SPECS[j].name)[2] == OPTION_SPECS[j].name[0];
  }

  /** The engine reads each spelling as the option that it names. */
  lemma SpellingIsRead(key: Key)
    requires key.Tuning? ==> key.spec in OPTION_SPECS
    ensures Meaning(Spelling(key)) == Some(key)
  {
    hide Generated, FindSpec, Spelling, OPTION_SPECS;
    match key
    case Host(_) | User(_) | Port(_) => AccountIsRead(key);
    case Mechanism(_) | Password(_) | AccessToken(_) => AuthIsRead(key);
    case ImplicitTls(_) | StartTls(_) | TlsSetting(_) | NoImplicitTls | NoStartTls => TlsIsRead(key);
    case AutoMap | AddHeader | JustFolders | SyncInternalDates | UseUid => FlagIsRead(key);
    case UseCache | FastIo(_) | AllowSizeMismatch | DeleteExtras | DryRun | NoLog => OtherFlagIsRead(key);
    case ExcludeFolder | MapFolder | MessageRate | ByteRate => FolderOrRateIsRead(key);
    case Tuning(spec) =>
      var j :| 0 <= j < |OPTION_SPECS| && OPTION_SPECS[j] == spec;
      TuningIsRead(j);
  }

  lemma TuningIsRead(j: nat)
    requires j < |OPTION_SPECS|
    ensures Meaning(Spelling(Tuning(OPTION_SPECS[j]))) == Some(Tuning(OPTION_SPECS[j]))
  {
    hide Generated, FindSpec, OPTION_SPECS;
    SpecIsFound(j);
    TuningIsFree(j);
    FreeIsNotGenerated("--" + OPTION_SPECS[j].name);
    var token := "--" + OPTION_SPECS[j].name;
    assert token[2..] == OPTION_SPECS[j].name;
  }

  // ----- Command lines of requests

  function Tokens(r: Request): seq<string> {
    match r
    case Unknown(token) => [token]
    case Asked(key, value) => [Spelling(key)] + if value.Some? then [value.value] else []
  }

  function Print(requests: seq<Request>): seq<string> {
    if requests == [] then [] else Tokens(requests[0]) + Print(requests[1..])
  }

  lemma {:induction false} PrintConcat(a: seq<Request>, b: seq<Request>)
    ensures Print(a + b) == Print(a) + Print(b)
  {
    hide Tokens, OPTION_SPECS;
    if a == [] {
      assert a + b == b;
    } else {
      PrintConcat(a[1..], b);
      assert (a + b)[1..] == a[1..] + b;
      Associates(Tokens(a[0]), Print(a[1..]), Print(b));
    }
  }

  /** A known option, with a value exactly when it takes one. */
  predicate IsProper(r: Request) {
    && r.Asked? && (TakesValue(r.key) <==> r.value.Some?)
    && (r.key.Tuning? ==> r.key.spec in OPTION_SPECS)
  }

  ghost predicate Proper(requests: seq<Request>) {
    forall i :: 0 <= i < |requests| ==> IsProper(requests[i])
  }

  /** What is printed for proper requests is read as those requests. */
  lemma {:induction false} ReadPrinted(requests: seq<Request>)
    requires Proper(requests)
    ensures Read(Print(requests)) == requests
  {
    hide Spelling, Meaning, TakesValue, OPTION_SPECS;
    if requests != [] {
      ReadPrinted(requests[1..]);
      var first, rest := requests[0], Print(requests[1..]);
      assert IsProper(first);
      SpellingIsRead(first.key);
      if first.value.Some? {
        assert ([Spelling(first.key), first.value.value] + rest)[2..] == rest;
      } else {
        assert ([Spelling(first.key)] + rest)[1..] == rest;
      }
      assert [first] + requests[1..] == requests;
    }
  }

  // ----- The requests of a profile, section by section

  datatype Security = Plaintext | Negotiated | Implicit

  function SecurityOf(profile: Profile, a: Account): Security {
    match a
    case Source =>
      if profile.sourceTls == "plain" then Plaintext
      else if profile.sourceTls == "starttls" then Negotiated else Implicit
    case Destination => if profile.destinationTls == "starttls" then Negotiated else Implicit
  }

  function CaBundle(profile: Profile, a: Account): string {
    Trim(if a.Source? then profile.sourceCaBundle else profile.destinationCaBundle)
  }

  function IsOAuth(profile: Profile, a: Account): bool {
    (if a.Source? then profile.sourceAuth else profile.destinationAuth) == "oauth2"
  }

  function UserOf(profile: Profile, a: Account): string {
    if a.Source? then profile.sourceUser else profile.destinationUser
  }

  function EndpointOf(profile: Profile, names: Names, a: Account): Parts {
    if a.Source? then Hosts(profile, names).0 else Hosts(profile, names).1
  }

  function PortOf(profile: Profile, names: Names, a: Account): string {
    PortText(if a.Source? then profile.sourcePort else profile.destinationPort, EndpointOf(profile, names, a).port)
  }

  /** Certificates are verified, against the host's name, under TLS 1.2 or newer, and the given authorities if any. */
  function TlsSettings(profile: Profile, a: Account): seq<string> {
    if SecurityOf(profile, a).Plaintext? then []
    else
      ["SSL_verify_mode=1", "SSL_verifycn_scheme=imap", "SSL_version=" + MINIMUM_TLS_VERSION]
      + if CaBundle(profile, a) == "" then [] else ["SSL_ca_file=" + CaBundle(profile, a)]
  }

  function AccountRequests(profile: Profile, names: Names, a: Account): seq<Request> {
    [Asked(Host(a), Some(EndpointOf(profile, names, a).host)), Asked(User(a), Some(UserOf(profile, a)))]
  }

  function AuthRequests(profile: Profile, a: Account, placeholder: Option<string>): seq<Request> {
    (if IsOAuth(profile, a) then [Asked(Mechanism(a), Some("XOAUTH2"))] else [])
    + if placeholder.None? then []
      else if IsOAuth(profile, a) then [Asked(AccessToken(a), placeholder)] else [Asked(Password(a), placeholder)]
  }

  function SettingRequests(a: Account, settings: seq<string>): seq<Request> {
    seq(|settings|, i requires 0 <= i < |settings| => Asked(TlsSetting(a), Some(settings[i])))
  }

  function ModeRequests(profile: Profile, a: Account): seq<Request> {
    match SecurityOf(profile, a)
    case Plaintext => [Asked(NoImplicitTls, None), Asked(NoStartTls, None)]
    case Negotiated => [Asked(StartTls(a), None)]
    case Implicit => [Asked(ImplicitTls(a), None)]
  }

  function TransportRequests(profile: Profile, names: Names, a: Account): seq<Request> {
    [Asked(Port(a), Some(PortOf(profile, names, a)))] + ModeRequests(profile, a)
    + SettingRequests(a, TlsSettings(profile, a))
  }

  lemma PrintOne(r: Request)
    ensures Print([r]) == Tokens(r)
  {
    hide Tokens;
    assert [r][1..] == [] && Print([]) == [];
  }

  lemma PrintTwo(r: Request, r': Request)
    ensures Print([r, r']) == Tokens(r) + Tokens(r')
  {
    hide Tokens;
    PrintOne(r');
    assert [r, r'][1..] == [r'];
  }

  lemma AccountPrints(profile: Profile, names: Names, a: Account)
    ensures Print(AccountRequests(profile, names, a)) ==
      if a.Source? then SourceArgs(profile, names) else DestinationArgs(profile, names)
  {
    hide OPTION_SPECS, Hosts, Print;
    PrintTwo(Asked(Host(a), Some(EndpointOf(profile, names, a).host)), Asked(User(a), Some(UserOf(profile, a))));
  }

  lemma AuthPrints(profile: Profile, a: Account, placeholder: Option<string>)
    ensures Print(AuthRequests(profile, a, placeholder)) ==
      if a.Source? then Auth("1", profile.sourceAuth, placeholder) else Auth("2", profile.destinationAuth, placeholder)
  {
    hide OPTION_SPECS, Print;
    var mechanism := Asked(Mechanism(a), Some("XOAUTH2"));
    var secret := if IsOAuth(profile, a) then Asked(AccessToken(a), placeholder) else Asked(Password(a), placeholder);
    PrintOne(mechanism);
    PrintOne(secret);
    PrintNone();
    PrintConcat(if IsOAuth(profile, a) then [mechanism] else [], if placeholder.None? then [] else [secret]);
    SideNames();
  }

  lemma PrintNone()
    ensures Print([]) == []
  {
  }

  lemma SideNames()
    ensures "--authmech" + "1" == "--authmech1" && "--authmech" + "2" == "--authmech2"
    ensures "--password" + "1" == "--password1" && "--password" + "2" == "--password2"
    ensures "--oauthaccesstoken" + "1" == "--oauthaccesstoken1" && "--oauthaccesstoken" + "2" == "--oauthaccesstoken2"
  {
  }

  lemma SettingsPrint(profile: Profile, a: Account)
    requires !SecurityOf(profile, a).Plaintext?
    ensures Print(SettingRequests(a, TlsSettings(profile, a))) ==
      if a.Source? then SslArgs("--sslargs1", profile.sourceCaBundle) else SslArgs("--sslargs2", profile.destinationCaBundle)
  {
    hide OPTION_SPECS, MINIMUM_TLS_VERSION, Print;
    var settings := TlsSettings(profile, a);
    var first := [Asked(TlsSetting(a), Some(settings[0])), Asked(TlsSetting(a), Some(settings[1]))];
    var version := Asked(TlsSetting(a), Some(settings[2]));
    PrintTwo(first[0], first[1]);
    PrintOne(version);
    PrintConcat(first, [version]);
    if |settings| == 3 {
      assert SettingRequests(a, settings) == first + [version];
    } else {
      var authorities := Asked(TlsSetting(a), Some(settings[3]));
      PrintOne(authorities);
      PrintConcat(first + [version], [authorities]);
      assert SettingRequests(a, settings) == first + [version] + [authorities];
    }
  }

  lemma TransportPrints(profile: Profile, names: Names, a: Account)
    ensures Print(TransportRequests(profile, names, a)) ==
      if a.Source?
      then ["--port1", PortText(profile.sourcePort, Hosts(profile, names).0.port)] + SourceTransport(profile)
      else ["--port2", PortText(profile.destinationPort, Hosts(profile, names).1.port)] + DestinationTransport(profile)
  {
    hide OPTION_SPECS, Hosts, PortText, SslArgs, TlsSettings, Print;
    var port := Asked(Port(a), Some(PortOf(profile, names, a)));
    PrintOne(port);
    PrintTwo(Asked(NoImplicitTls, None), Asked(NoStartTls, None));
    PrintOne(Asked(StartTls(a), None));
    PrintOne(Asked(ImplicitTls(a), None));
    var mode := ModeRequests(profile, a);
    var settings := SettingRequests(a, TlsSettings(profile, a));
    PrintConcat([port], mode);
    PrintConcat([port] + mode, settings);
    if SecurityOf(profile, a).Plaintext? {
      NoSettings(profile, a);
    } else {
      SettingsPrint(profile, a);
    }
  }

  lemma NoSettings(profile: Profile, a: Account)
    requires SecurityOf(profile, a).Plaintext?
    ensures SettingRequests(a, TlsSettings(profile, a)) == [] && Print([]) == []
  {
  }

  /** The field of the profile that a flag stands for. */
  function FlagOf(profile: Profile, key: Key): bool {
    match key
    case AutoMap => profile.automap
    case AddHeader => profile.addheader
    case JustFolders => profile.justfolders
    case SyncInternalDates => profile.syncInternaldates
    case UseUid => profile.useuid
    case UseCache => profile.usecache
    case FastIo(a) => if a.Source? then profile.fastio1 else profile.fastio2
    case AllowSizeMismatch => profile.allowsizemismatch
    case DeleteExtras => profile.delete2
    case _ => false
  }

  /** The flags in the order of the command line. */
  const FLAGS: seq<Key> := [
    AutoMap, AddHeader, JustFolders, SyncInternalDates, UseUid, UseCache,
    FastIo(Source), FastIo(Destination), AllowSizeMismatch, DeleteExtras
  ]

  function Wishes(profile: Profile): seq<(bool, Key)> {
    seq(|FLAGS|, i requires 0 <= i < |FLAGS| => (FlagOf(profile, FLAGS[i]), FLAGS[i]))
  }

  function WishRequests(wishes: seq<(bool, Key)>): seq<Request> {
    if wishes == [] then []
    else
      var last := wishes[|wishes| - 1];
      WishRequests(wishes[..|wishes| - 1]) + if last.0 then [Asked(last.1, None)] else []
  }

  ghost predicate SameFlags(flags: seq<(bool, string)>, wishes: seq<(bool, Key)>) {
    |flags| == |wishes| && forall i :: 0 <= i < |flags| ==> flags[i] == (wishes[i].0, Spelling(wishes[i].1))
  }

  lemma {:induction false} WishesPrint(flags: seq<(bool, string)>, wishes: seq<(bool, Key)>)
    requires SameFlags(flags, wishes)
    ensures Print(WishRequests(wishes)) == Enabled(flags)
  {
    hide Print, Spelling;
    if flags == [] {
      PrintNone();
    } else {
      var n := |wishes| - 1;
      WishesPrint(flags[..n], wishes[..n]);
      if wishes[n].0 {
        PrintOne(Asked(wishes[n].1, None));
        PrintConcat(WishRequests(wishes[..n]), [Asked(wishes[n].1, None)]);
      } else {
        assert WishRequests(wishes) == WishRequests(wishes[..n]);
      }
    }
  }

  lemma WishesInOrder(profile: Profile)
    ensures Wishes(profile) == [
      (profile.automap, AutoMap), (profile.addheader, AddHeader), (profile.justfolders, JustFolders),
      (profile.syncInternaldates, SyncInternalDates), (profile.useuid, UseUid), (profile.usecache, UseCache),
      (profile.fastio1, FastIo(Source)), (profile.fastio2, FastIo(Destination)),
      (profile.allowsizemismatch, AllowSizeMismatch), (profile.delete2, DeleteExtras)
    ]
  {
    hide OPTION_SPECS;
  }

  lemma FlagsInOrder(profile: Profile)
    ensures SameFlags(Flags(profile), [
      (profile.automap, AutoMap), (profile.addheader, AddHeader), (profile.justfolders, JustFolders),
      (profile.syncInternaldates, SyncInternalDates), (profile.useuid, UseUid), (profile.usecache, UseCache),
      (profile.fastio1, FastIo(Source)), (profile.fastio2, FastIo(Destination)),
      (profile.allowsizemismatch, AllowSizeMismatch), (profile.delete2, DeleteExtras)
    ])
  {
    hide OPTION_SPECS;
  }

  lemma FlagsAreWishes(profile: Profile)
    ensures SameFlags(Flags(profile), Wishes(profile))
  {
    hide OPTION_SPECS, SameFlags, Wishes, Flags;
    WishesInOrder(profile);
    FlagsInOrder(profile);
  }

  /** The pattern that matches a folder name and nothing else. */
  function PatternOf(folder: string): string { "^(?:" + RegexEscape(folder) + ")$" }

  function RuleRequest(rule: FolderRule): Request {
    if rule.exclude then Asked(ExcludeFolder, Some(PatternOf(rule.source)))
    else Asked(MapFolder, Some(rule.source + "=" + rule.destination))
  }

  function RuleRequests(rules: seq<FolderRule>): seq<Request> {
    seq(|rules|, i requires 0 <= i < |rules| => RuleRequest(rules[i]))
  }

  lemma {:induction false} RulesPrint(rules: seq<FolderRule>)
    ensures Print(RuleRequests(rules)) == RulesArgs(rules)
  {
    hide Print, RegexEscape, OPTION_SPECS;
    if rules == [] {
      PrintNone();
    } else {
      var n := |rules| - 1;
      RulesPrint(rules[..n]);
      PrintOne(RuleRequest(rules[n]));
      PrintConcat(RuleRequests(rules[..n]), [RuleRequest(rules[n])]);
      assert RuleRequests(rules) == RuleRequests(rules[..n]) + [RuleRequest(rules[n])];
    }
  }

  function RateRequests(profile: Profile, throttleDivisor: nat): seq<Request>
    requires Representable(profile) && ThrottleDivides(profile, throttleDivisor)
  {
    (if profile.maxMessagesPerSecond > 0
     then [Asked(MessageRate, Some(Digits(MessageShare(profile, throttleDivisor))))] else [])
    + if profile.maxBytesPerSecond > 0
      then [Asked(ByteRate, Some(Digits(ByteShare(profile, throttleDivisor))))] else []
  }

  lemma RatesPrint(profile: Profile, throttleDivisor: nat)
    requires Representable(profile) && ThrottleDivides(profile, throttleDivisor)
    ensures Print(RateRequests(profile, throttleDivisor)) == RateArgs(profile, throttleDivisor)
  {
    hide Print, Digits, MessageShare, ByteShare, ThrottleDivides, OPTION_SPECS;
    PrintNone();
    var messages: seq<Request>, bytes: seq<Request> := [], [];
    if profile.maxMessagesPerSecond > 0 {
      messages := [Asked(MessageRate, Some(Digits(MessageShare(profile, throttleDivisor))))];
      PrintOne(messages[0]);
    }
    if profile.maxBytesPerSecond > 0 {
      bytes := [Asked(ByteRate, Some(Digits(ByteShare(profile, throttleDivisor))))];
      PrintOne(bytes[0]);
    }
    PrintConcat(messages, bytes);
  }

  function ClosingRequests(dryRun: bool): seq<Request> {
    (if dryRun then [Asked(DryRun, None)] else []) + [Asked(NoLog, None)]
  }

  lemma ClosingPrints(dryRun: bool, tuning: seq<Request>, extraOptions: seq<string>)
    requires Print(tuning) == extraOptions
    ensures Print(ClosingRequests(dryRun) + tuning) == Closing(dryRun, extraOptions)
  {
    hide Print, OPTION_SPECS;
    PrintOne(Asked(NoLog, None));
    PrintTwo(Asked(DryRun, None), Asked(NoLog, None));
    PrintConcat(ClosingRequests(dryRun), tuning);
    assert ClosingRequests(dryRun) == if dryRun then [Asked(DryRun, None), Asked(NoLog, None)] else [Asked(NoLog, None)];
  }

  /** The tuning options are read as settings of the allowlist, each within its range. */
  ghost predicate IsTuning(r: Request) {
    && r.Asked? && r.key.Tuning? && r.key.spec in OPTION_SPECS
    && match r.key.spec.kind
       case Boolean => r.value.None?
       case Integer(least, most) => r.value.Some? && exists v: nat :: least <= v <= most && r.value.value == Digits(v)
  }

  lemma {:induction false} NormalFormPrints(tokens: seq<string>) returns (tuning: seq<Request>)
    requires NormalForm(tokens)
    ensures Print(tuning) == tokens && forall i :: 0 <= i < |tuning| ==> IsTuning(tuning[i])
    decreases |tokens|
  {
    tuning := [];
    if tokens != [] {
      if IsFlag(tokens[0]) && NormalForm(tokens[1..]) {
        var first := FlagPrints(tokens[0]);
        var rest := NormalFormPrints(tokens[1..]);
        tuning := [first] + rest;
        assert tokens == [tokens[0]] + tokens[1..];
      } else {
        var first := SettingPrints(tokens[0], tokens[1]);
        var rest := NormalFormPrints(tokens[2..]);
        tuning := [first] + rest;
        assert tokens == [tokens[0], tokens[1]] + tokens[2..];
      }
    }
  }

  lemma FlagPrints(token: string) returns (r: Request)
    requires IsFlag(token)
    ensures IsTuning(r) && Tokens(r) == [token]
  {
    hide OPTION_SPECS;
    var j :| 0 <= j < |OPTION_SPECS| && OPTION_SPECS[j].kind.Boolean? && token == "--" + OPTION_SPECS[j].name;
    r := Asked(Tuning(OPTION_SPECS[j]), None);
  }

  lemma SettingPrints(token: string, value: string) returns (r: Request)
    requires IsSetting(token, value)
    ensures IsTuning(r) && Tokens(r) == [token, value]
  {
    hide OPTION_SPECS;
    var j, v :| 0 <= j < |OPTION_SPECS| && Sets(OPTION_SPECS[j], v, token, value);
    r := Asked(Tuning(OPTION_SPECS[j]), Some(value));
  }

  // ----- The whole command line

  function LoginRequests(profile: Profile, names: Names, placeholder: Option<string>): seq<Request> {
    AccountRequests(profile, names, Source) + AuthRequests(profile, Source, placeholder)
    + (AccountRequests(profile, names, Destination) + AuthRequests(profile, Destination, placeholder))
  }

  function SetupRequests(profile: Profile, names: Names, throttleDivisor: nat): seq<Request>
    requires Representable(profile) && ThrottleDivides(profile, throttleDivisor)
  {
    TransportRequests(profile, names, Source) + TransportRequests(profile, names, Destination)
    + (WishRequests(Wishes(profile)) + RuleRequests(profile.folderMappingRules))
    + RateRequests(profile, throttleDivisor)
  }

  lemma LoginsPrint(profile: Profile, names: Names, placeholder: Option<string>)
    ensures Print(LoginRequests(profile, names, placeholder)) ==
      SourceArgs(profile, names) + Auth("1", profile.sourceAuth, placeholder)
      + DestinationArgs(profile, names) + Auth("2", profile.destinationAuth, placeholder)
  {
    hide Print, AccountRequests, AuthRequests, SourceArgs, DestinationArgs, Auth, OPTION_SPECS;
    AccountPrints(profile, names, Source);
    AccountPrints(profile, names, Destination);
    AuthPrints(profile, Source, placeholder);
    AuthPrints(profile, Destination, placeholder);
    var s1, s2 := AccountRequests(profile, names, Source), AuthRequests(profile, Source, placeholder);
    var d1, d2 := AccountRequests(profile, names, Destination), AuthRequests(profile, Destination, placeholder);
    PrintConcat(s1, s2);
    PrintConcat(d1, d2);
    PrintConcat(s1 + s2, d1 + d2);
    Associates(Print(s1) + Print(s2), Print(d1), Print(d2));
  }

  lemma SetupPrints(profile: Profile, names: Names, throttleDivisor: nat)
    requires Representable(profile) && ThrottleDivides(profile, throttleDivisor)
    ensures Print(SetupRequests(profile, names, throttleDivisor)) ==
      Transport(profile, names) + Enabled(Flags(profile)) + RulesArgs(profile.folderMappingRules)
      + RateArgs(profile, throttleDivisor)
  {
    hide Print, TransportRequests, WishRequests, RuleRequests, RateRequests, SourceTransport, DestinationTransport;
    hide OPTION_SPECS, Hosts, PortText, Enabled, Flags, Wishes, RulesArgs, RateArgs, ThrottleDivides;
    var t1, t2 := TransportRequests(profile, names, Source), TransportRequests(profile, names, Destination);
    var w, r := WishRequests(Wishes(profile)), RuleRequests(profile.folderMappingRules);
    TransportPrints(profile, names, Source);
    TransportPrints(profile, names, Destination);
    FlagsAreWishes(profile);
    WishesPrint(Flags(profile), Wishes(profile));
    RulesPrint(profile.folderMappingRules);
    RatesPrint(profile, throttleDivisor);
    PrintConcat(t1, t2);
    PrintConcat(w, r);
    PrintConcat(t1 + t2, w + r);
    PrintConcat(t1 + t2 + (w + r), RateRequests(profile, throttleDivisor));
    Associates(Transport(profile, names), Print(w), Print(r));
    TransportIsBothSides(profile, names);
  }

  lemma TransportIsBothSides(profile: Profile, names: Names)
    ensures Transport(profile, names) ==
      ["--port1", PortText(profile.sourcePort, Hosts(profile, names).0.port)] + SourceTransport(profile)
      + (["--port2", PortText(profile.destinationPort, Hosts(profile, names).1.port)] + DestinationTransport(profile))
  {
    hide Hosts, PortText, SourceTransport, DestinationTransport;
    Associates(["--port1", PortText(profile.sourcePort, Hosts(profile, names).0.port)] + SourceTransport(profile),
               ["--port2", PortText(profile.destinationPort, Hosts(profile, names).1.port)], DestinationTransport(profile));
  }

  /** All requests of a command line, the tuning options last. */
  function Requests(
    profile: Profile, names: Names, dryRun: bool, throttleDivisor: nat, placeholder: Option<string>, tuning: seq<Request>)
    : seq<Request>
    requires Representable(profile) && ThrottleDivides(profile, throttleDivisor)
  {
    LoginRequests(profile, names, placeholder) + SetupRequests(profile, names, throttleDivisor)
    + (ClosingRequests(dryRun) + tuning)
  }

  lemma ArgumentsPrint(
    profile: Profile, names: Names, dryRun: bool, throttleDivisor: nat, placeholder: Option<string>,
    tuning: seq<Request>, extraOptions: seq<string>)
    requires Representable(profile) && ThrottleDivides(profile, throttleDivisor)
    requires Print(tuning) == extraOptions
    ensures Print(Requests(profile, names, dryRun, throttleDivisor, placeholder, tuning)) ==
      Arguments(profile, names, dryRun, throttleDivisor, placeholder, extraOptions)
  {
    hide Print, LoginRequests, SetupRequests, ClosingRequests, SourceArgs, DestinationArgs, Auth, Closing;
    hide ThrottleDivides;
    hide OPTION_SPECS, Transport, Enabled, Flags, RulesArgs, RateArgs;
    var logins, setup := LoginRequests(profile, names, placeholder), SetupRequests(profile, names, throttleDivisor);
    LoginsPrint(profile, names, placeholder);
    SetupPrints(profile, names, throttleDivisor);
    ClosingPrints(dryRun, tuning, extraOptions);
    PrintConcat(logins, setup);
    PrintConcat(logins + setup, ClosingRequests(dryRun) + tuning);
    Associates(Print(logins), Print(setup), Closing(dryRun, extraOptions));
  }

  lemma ProperConcat(a: seq<Request>, b: seq<Request>)
    requires Proper(a) && Proper(b)
    ensures Proper(a + b)
  {
  }

  lemma {:induction false} WishesAreProper(wishes: seq<(bool, Key)>)
    requires forall i :: 0 <= i < |wishes| ==> !TakesValue(wishes[i].1) && !wishes[i].1.Tuning?
    ensures Proper(WishRequests(wishes))
  {
    if wishes != [] {
      WishesAreProper(wishes[..|wishes| - 1]);
    }
  }

  lemma LoginIsProper(profile: Profile, names: Names, a: Account, placeholder: Option<string>)
    ensures Proper(AccountRequests(profile, names, a) + AuthRequests(profile, a, placeholder))
  {
    hide OPTION_SPECS, Spelling;
  }

  lemma TransportIsProper(profile: Profile, names: Names, a: Account)
    ensures Proper(TransportRequests(profile, names, a))
  {
    hide OPTION_SPECS, PortOf, TlsSettings;
    assert Proper(ModeRequests(profile, a)) && Proper([Asked(Port(a), Some(PortOf(profile, names, a)))]);
    assert Proper(SettingRequests(a, TlsSettings(profile, a)));
  }

  lemma FoldersAndRatesAreProper(profile: Profile, throttleDivisor: nat)
    requires Representable(profile) && ThrottleDivides(profile, throttleDivisor)
    ensures Proper(RuleRequests(profile.folderMappingRules)) && Proper(RateRequests(profile, throttleDivisor))
  {
    hide OPTION_SPECS, PatternOf, Digits, MessageShare, ByteShare;
  }

  lemma ClosingIsProper(dryRun: bool, tuning: seq<Request>)
    requires forall i :: 0 <= i < |tuning| ==> IsTuning(tuning[i])
    ensures Proper(ClosingRequests(dryRun) + tuning)
  {
    hide OPTION_SPECS;
    assert Proper(ClosingRequests(dryRun));
    assert Proper(tuning);
    ProperConcat(ClosingRequests(dryRun), tuning);
  }

  lemma FlagsTakeNoValue(profile: Profile)
    ensures forall i :: 0 <= i < |Wishes(profile)| ==> !TakesValue(Wishes(profile)[i].1) && !Wishes(profile)[i].1.Tuning?
  {
    hide OPTION_SPECS;
  }

  lemma RequestsAreProper(
    profile: Profile, names: Names, dryRun: bool, throttleDivisor: nat, placeholder: Option<string>, tuning: seq<Request>)
    requires Representable(profile) && ThrottleDivides(profile, throttleDivisor)
    requires forall i :: 0 <= i < |tuning| ==> IsTuning(tuning[i])
    ensures Proper(Requests(profile, names, dryRun, throttleDivisor, placeholder, tuning))
  {
    hide Proper, OPTION_SPECS, AccountRequests, AuthRequests, TransportRequests, WishRequests, Wishes, RuleRequests;
    hide RateRequests, ClosingRequests, IsTuning, ThrottleDivides;
    LoginIsProper(profile, names, Source, placeholder);
    LoginIsProper(profile, names, Destination, placeholder);
    TransportIsProper(profile, names, Source);
    TransportIsProper(profile, names, Destination);
    FlagsTakeNoValue(profile);
    WishesAreProper(Wishes(profile));
    FoldersAndRatesAreProper(profile, throttleDivisor);
    ClosingIsProper(dryRun, tuning);
    var s := AccountRequests(profile, names, Source) + AuthRequests(profile, Source, placeholder);
    var d := AccountRequests(profile, names, Destination) + AuthRequests(profile, Destination, placeholder);
    var t, u := TransportRequests(profile, names, Source), TransportRequests(profile, names, Destination);
    var w, r := WishRequests(Wishes(profile)), RuleRequests(profile.folderMappingRules);
    ProperConcat(s, d);
    ProperConcat(t, u);
    ProperConcat(w, r);
    ProperConcat(t + u, w + r);
    ProperConcat(t + u + (w + r), RateRequests(profile, throttleDivisor));
    ProperConcat(LoginRequests(profile, names, placeholder), SetupRequests(profile, names, throttleDivisor));
    ProperConcat(LoginRequests(profile, names, placeholder) + SetupRequests(profile, names, throttleDivisor),
                 ClosingRequests(dryRun) + tuning);
  }

  // ----- What each option is asked for

  function Present(wanted: bool): seq<Option<string>> { if wanted then [None] else [] }

  function Somes(values: seq<string>): seq<Option<string>> {
    seq(|values|, i requires 0 <= i < |values| => Some(values[i]))
  }

  /** The sources of the rules that exclude, in order. */
  function Excluded(rules: seq<FolderRule>): seq<string> {
    if rules == [] then []
    else
      var last := rules[|rules| - 1];
      Excluded(rules[..|rules| - 1]) + if last.exclude then [last.source] else []
  }

  function Mapped(rules: seq<FolderRule>): seq<string> {
    if rules == [] then []
    else
      var last := rules[|rules| - 1];
      Mapped(rules[..|rules| - 1]) + if last.exclude then [] else [last.source + "=" + last.destination]
  }

  function Patterns(folders: seq<string>): seq<string> {
    seq(|folders|, i requires 0 <= i < |folders| => PatternOf(folders[i]))
  }

  /** For each option the values that the profile wants it to have, in order. */
  function Wanted(
    profile: Profile, names: Names, dryRun: bool, throttleDivisor: nat, placeholder: Option<string>,
    tuning: seq<Request>, key: Key): seq<Option<string>>
    requires Representable(profile) && ThrottleDivides(profile, throttleDivisor)
  {
    match key
    case Host(a) => [Some(EndpointOf(profile, names, a).host)]
    case User(a) => [Some(UserOf(profile, a))]
    case Port(a) => [Some(PortOf(profile, names, a))]
    case Mechanism(a) => if IsOAuth(profile, a) then [Some("XOAUTH2")] else []
    case Password(a) => if placeholder.None? || IsOAuth(profile, a) then [] else [placeholder]
    case AccessToken(a) => if placeholder.None? || !IsOAuth(profile, a) then [] else [placeholder]
    case ImplicitTls(a) => Present(SecurityOf(profile, a).Implicit?)
    case StartTls(a) => Present(SecurityOf(profile, a).Negotiated?)
    case TlsSetting(a) => Somes(TlsSettings(profile, a))
    case NoImplicitTls => Present(profile.sourceTls == "plain")
    case NoStartTls => Present(profile.sourceTls == "plain")
    case AutoMap | AddHeader | JustFolders | SyncInternalDates | UseUid | UseCache => Present(FlagOf(profile, key))
    case FastIo(_) | AllowSizeMismatch | DeleteExtras => Present(FlagOf(profile, key))
    case ExcludeFolder => Somes(Patterns(Excluded(profile.folderMappingRules)))
    case MapFolder => Somes(Mapped(profile.folderMappingRules))
    case MessageRate =>
      if profile.maxMessagesPerSecond == 0 then [] else [Some(Digits(MessageShare(profile, throttleDivisor)))]
    case ByteRate =>
      if profile.maxBytesPerSecond == 0 then [] else [Some(Digits(ByteShare(profile, throttleDivisor)))]
    case DryRun => Present(dryRun)
    case NoLog => Present(true)
    case Tuning(_) => Values(tuning, key)
  }

  lemma ValuesOne(r: Request, key: Key)
    requires r.Asked?
    ensures Values([r], key) == if r.key == key then [r.value] else []
  {
    assert [r][..0] == [] && Values([], key) == [];
  }

  lemma ValuesNone(key: Key)
    ensures Values([], key) == []
  {
  }

  lemma LoginValues(profile: Profile, names: Names, a: Account, placeholder: Option<string>, key: Key)
    ensures Values(AccountRequests(profile, names, a) + AuthRequests(profile, a, placeholder), key) ==
      match key
      case Host(b) => if a == b then [Some(EndpointOf(profile, names, a).host)] else []
      case User(b) => if a == b then [Some(UserOf(profile, a))] else []
      case Mechanism(b) => if a == b && IsOAuth(profile, a) then [Some("XOAUTH2")] else []
      case Password(b) => if a != b || placeholder.None? || IsOAuth(profile, a) then [] else [placeholder]
      case AccessToken(b) => if a != b || placeholder.None? || !IsOAuth(profile, a) then [] else [placeholder]
      case _ => []
  {
    hide OPTION_SPECS, Values, EndpointOf, UserOf, IsOAuth;
    var host, user := Asked(Host(a), Some(EndpointOf(profile, names, a).host)), Asked(User(a), Some(UserOf(profile, a)));
    var mechanism := Asked(Mechanism(a), Some("XOAUTH2"));
    var secret := if IsOAuth(profile, a) then Asked(AccessToken(a), placeholder) else Asked(Password(a), placeholder);
    var oauth: seq<Request>, secrets: seq<Request> :=
      if IsOAuth(profile, a) then [mechanism] else [], if placeholder.None? then [] else [secret];
    ValuesOne(host, key);
    ValuesOne(user, key);
    ValuesOne(mechanism, key);
    ValuesOne(secret, key);
    ValuesNone(key);
    ValuesConcat([host], [user], key);
    ValuesConcat(oauth, secrets, key);
    ValuesConcat([host] + [user], oauth + secrets, key);
    assert AccountRequests(profile, names, a) == [host] + [user];
    assert AuthRequests(profile, a, placeholder) == oauth + secrets;
  }

  lemma {:induction false} SettingValues(a: Account, settings: seq<string>, key: Key)
    ensures Values(SettingRequests(a, settings), key) == if key == TlsSetting(a) then Somes(settings) else []
  {
    if settings != [] {
      var n := |settings| - 1;
      SettingValues(a, settings[..n], key);
      assert SettingRequests(a, settings)[..n] == SettingRequests(a, settings[..n]);
      assert Somes(settings) == Somes(settings[..n]) + [Some(settings[n])];
    }
  }

  lemma ModeValues(profile: Profile, a: Account, key: Key)
    ensures Values(ModeRequests(profile, a), key) ==
      match key
      case ImplicitTls(b) => Present(a == b && SecurityOf(profile, a).Implicit?)
      case StartTls(b) => Present(a == b && SecurityOf(profile, a).Negotiated?)
      case NoImplicitTls => Present(SecurityOf(profile, a).Plaintext?)
      case NoStartTls => Present(SecurityOf(profile, a).Plaintext?)
      case _ => []
  {
    hide OPTION_SPECS, Values, SecurityOf;
    match SecurityOf(profile, a)
    case Plaintext =>
      ValuesOne(Asked(NoImplicitTls, None), key);
      ValuesOne(Asked(NoStartTls, None), key);
      ValuesConcat([Asked(NoImplicitTls, None)], [Asked(NoStartTls, None)], key);
      assert ModeRequests(profile, a) == [Asked(NoImplicitTls, None)] + [Asked(NoStartTls, None)];
    case Negotiated => ValuesOne(Asked(StartTls(a), None), key);
    case Implicit => ValuesOne(Asked(ImplicitTls(a), None), key);
  }

  lemma TransportValues(profile: Profile, names: Names, a: Account, key: Key)
    ensures Values(TransportRequests(profile, names, a), key) ==
      match key
      case Port(b) => if a == b then [Some(PortOf(profile, names, a))] else []
      case TlsSetting(b) => if a == b then Somes(TlsSettings(profile, a)) else []
      case _ => Values(ModeRequests(profile, a), key)
  {
    hide OPTION_SPECS, Values, PortOf, SecurityOf, TlsSettings, SettingRequests, ModeRequests, Somes;
    var port := Asked(Port(a), Some(PortOf(profile, names, a)));
    var settings := SettingRequests(a, TlsSettings(profile, a));
    ValuesOne(port, key);
    ModeValues(profile, a, key);
    SettingValues(a, TlsSettings(profile, a), key);
    ValuesConcat([port], ModeRequests(profile, a), key);
    ValuesConcat([port] + ModeRequests(profile, a), settings, key);
  }

  /** The flag is one of the wishes, and wanted. */
  ghost predicate IsWished(wishes: seq<(bool, Key)>, key: Key) {
    exists i :: 0 <= i < |wishes| && wishes[i].1 == key && wishes[i].0
  }

  lemma IsWishedAppend(wishes: seq<(bool, Key)>, n: nat, key: Key)
    requires |wishes| == n + 1
    ensures IsWished(wishes, key) <==> IsWished(wishes[..n], key) || wishes[n] == (true, key)
  {
    if IsWished(wishes, key) && wishes[n] != (true, key) {
      var i :| 0 <= i < |wishes| && wishes[i].1 == key && wishes[i].0;
      assert wishes[..n][i] == wishes[i];
    } else if IsWished(wishes[..n], key) {
      var i :| 0 <= i < n && wishes[..n][i].1 == key && wishes[..n][i].0;
      assert wishes[i] == wishes[..n][i];
    }
  }

  lemma IsWishedOnce(wishes: seq<(bool, Key)>, n: nat, key: Key)
    requires |wishes| == n + 1 && forall i :: 0 <= i < n ==> wishes[i].1 != wishes[n].1
    ensures !IsWished(wishes[..n], wishes[n].1)
  {
  }

  lemma {:induction false} WishValues(wishes: seq<(bool, Key)>, key: Key)
    requires forall i, j :: 0 <= i < j < |wishes| ==> wishes[i].1 != wishes[j].1
    ensures Values(WishRequests(wishes), key) == Present(IsWished(wishes, key))
  {
    hide Values, IsWished, OPTION_SPECS;
    if wishes == [] {
      NothingWished(key);
    } else {
      var n := |wishes| - 1;
      WishValues(wishes[..n], key);
      IsWishedAppend(wishes, n, key);
      IsWishedOnce(wishes, n, key);
      ValuesOne(Asked(wishes[n].1, None), key);
      if wishes[n].0 {
        ValuesConcat(WishRequests(wishes[..n]), [Asked(wishes[n].1, None)], key);
      } else {
        assert WishRequests(wishes) == WishRequests(wishes[..n]);
      }
    }
  }

  lemma NothingWished(key: Key)
    ensures Values(WishRequests([]), key) == [] && !IsWished([], key)
  {
  }

  lemma FlagsDiffer(i: nat)
    requires i < |FLAGS|
    ensures FlagIndex(FLAGS[i]) == i
  {
    hide OPTION_SPECS;
  }

  lemma WishesWanted(profile: Profile, key: Key)
    ensures Values(WishRequests(Wishes(profile)), key) == Present(FlagOf(profile, key))
  {
    hide WishRequests, Values, FLAGS, FlagIndex, FlagOf, OPTION_SPECS;
    var wishes := Wishes(profile);
    forall i: nat | i < |wishes| ensures FlagIndex(wishes[i].1) == i {
      FlagsDiffer(i);
    }
    WishValues(wishes, key);
    if FlagOf(profile, key) {
      FlagIsAWish(profile, key);
    }
  }

  lemma FlagIsAWish(profile: Profile, key: Key)
    requires FlagOf(profile, key)
    ensures IsWished(Wishes(profile), key)
  {
    hide OPTION_SPECS;
    assert Wishes(profile)[FlagIndex(key)] == (true, key);
  }

  function FlagIndex(key: Key): nat {
    match key
    case AutoMap => 0
    case AddHeader => 1
    case JustFolders => 2
    case SyncInternalDates => 3
    case UseUid => 4
    case UseCache => 5
    case FastIo(a) => if a.Source? then 6 else 7
    case AllowSizeMismatch => 8
    case _ => 9
  }

  lemma SomesAppend(values: seq<string>, value: string)
    ensures Somes(values + [value]) == Somes(values) + [Some(value)]
  {
  }

  lemma PatternsAppend(folders: seq<string>, folder: string)
    ensures Patterns(folders + [folder]) == Patterns(folders) + [PatternOf(folder)]
  {
    hide PatternOf;
  }

  lemma {:induction false} RuleValues(rules: seq<FolderRule>, key: Key)
    ensures Values(RuleRequests(rules), key) ==
      match key
      case ExcludeFolder => Somes(Patterns(Excluded(rules)))
      case MapFolder => Somes(Mapped(rules))
      case _ => []
  {
    hide PatternOf, OPTION_SPECS, Values, Somes, Patterns;
    if rules == [] {
      NoRules(key);
    } else {
      var n := |rules| - 1;
      RuleValues(rules[..n], key);
      SomesAppend(Patterns(Excluded(rules[..n])), PatternOf(rules[n].source));
      SomesAppend(Mapped(rules[..n]), rules[n].source + "=" + rules[n].destination);
      PatternsAppend(Excluded(rules[..n]), rules[n].source);
      ValuesOne(RuleRequest(rules[n]), key);
      ValuesConcat(RuleRequests(rules[..n]), [RuleRequest(rules[n])], key);
      assert RuleRequests(rules) == RuleRequests(rules[..n]) + [RuleRequest(rules[n])];
      ExcludedOrMapped(rules, n);
    }
  }

  lemma ExcludedOrMapped(rules: seq<FolderRule>, n: nat)
    requires |rules| == n + 1
    ensures rules[n].exclude ==>
      Excluded(rules) == Excluded(rules[..n]) + [rules[n].source] && Mapped(rules) == Mapped(rules[..n])
    ensures !rules[n].exclude ==>
      && Excluded(rules) == Excluded(rules[..n])
      && Mapped(rules) == Mapped(rules[..n]) + [rules[n].source + "=" + rules[n].destination]
  {
  }

  lemma NoRules(key: Key)
    ensures Values(RuleRequests([]), key) == [] && Somes(Patterns(Excluded([]))) == [] == Somes(Mapped([]))
  {
    assert RuleRequests([]) == [];
  }

  lemma RateValues(profile: Profile, throttleDivisor: nat, key: Key)
    requires Representable(profile) && ThrottleDivides(profile, throttleDivisor)
    ensures Values(RateRequests(profile, throttleDivisor), key) ==
      match key
      case MessageRate =>
        if profile.maxMessagesPerSecond == 0 then [] else [Some(Digits(MessageShare(profile, throttleDivisor)))]
      case ByteRate =>
        if profile.maxBytesPerSecond == 0 then [] else [Some(Digits(ByteShare(profile, throttleDivisor)))]
      case _ => []
  {
    hide OPTION_SPECS, Values, Digits, MessageShare, ByteShare, ThrottleDivides;
    ValuesNone(key);
    var messages: seq<Request>, bytes: seq<Request> := [], [];
    if profile.maxMessagesPerSecond > 0 {
      messages := [Asked(MessageRate, Some(Digits(MessageShare(profile, throttleDivisor))))];
      ValuesOne(messages[0], key);
    }
    if profile.maxBytesPerSecond > 0 {
      bytes := [Asked(ByteRate, Some(Digits(ByteShare(profile, throttleDivisor))))];
      ValuesOne(bytes[0], key);
    }
    ValuesConcat(messages, bytes, key);
  }

  lemma ClosingValues(dryRun: bool, key: Key)
    ensures Values(ClosingRequests(dryRun), key) ==
      match key
      case DryRun => Present(dryRun)
      case NoLog => Present(true)
      case _ => []
  {
    hide OPTION_SPECS, Values;
    ValuesOne(Asked(DryRun, None), key);
    ValuesOne(Asked(NoLog, None), key);
    ValuesConcat([Asked(DryRun, None)], [Asked(NoLog, None)], key);
    ValuesNone(key);
    ValuesConcat([], [Asked(NoLog, None)], key);
  }

  lemma {:induction false} TuningValues(tuning: seq<Request>, key: Key)
    requires forall i :: 0 <= i < |tuning| ==> IsTuning(tuning[i])
    ensures !key.Tuning? ==> Values(tuning, key) == []
  {
    if tuning != [] {
      TuningValues(tuning[..|tuning| - 1], key);
      assert IsTuning(tuning[|tuning| - 1]);
    }
  }

  /** The part of the wanted values that the logins carry. */
  predicate IsLogin(key: Key) {
    key.Host? || key.User? || key.Mechanism? || key.Password? || key.AccessToken?
  }

  predicate IsClosing(key: Key) {
    key.DryRun? || key.NoLog? || key.Tuning?
  }

  lemma LoginsAreWanted(
    profile: Profile, names: Names, dryRun: bool, throttleDivisor: nat, placeholder: Option<string>,
    tuning: seq<Request>, key: Key)
    requires Representable(profile) && ThrottleDivides(profile, throttleDivisor)
    ensures Values(LoginRequests(profile, names, placeholder), key) ==
      if IsLogin(key) then Wanted(profile, names, dryRun, throttleDivisor, placeholder, tuning, key) else []
  {
    hide OPTION_SPECS, Values, AccountRequests, AuthRequests, ThrottleDivides, EndpointOf, IsOAuth, UserOf;
    LoginValues(profile, names, Source, placeholder, key);
    LoginValues(profile, names, Destination, placeholder, key);
    ValuesConcat(AccountRequests(profile, names, Source) + AuthRequests(profile, Source, placeholder),
                 AccountRequests(profile, names, Destination) + AuthRequests(profile, Destination, placeholder), key);
  }

  lemma TransportsAreWanted(profile: Profile, names: Names, throttleDivisor: nat, key: Key)
    requires Representable(profile) && ThrottleDivides(profile, throttleDivisor)
    ensures Values(TransportRequests(profile, names, Source) + TransportRequests(profile, names, Destination), key) ==
      if key.Port? || key.TlsSetting? || key.ImplicitTls? || key.StartTls? || key.NoImplicitTls? || key.NoStartTls?
      then Wanted(profile, names, false, throttleDivisor, None, [], key) else []
  {
    hide OPTION_SPECS, Values, TransportRequests, ThrottleDivides, Somes, TlsSettings, PortOf;
    TransportValues(profile, names, Source, key);
    TransportValues(profile, names, Destination, key);
    ModeValues(profile, Source, key);
    ModeValues(profile, Destination, key);
    ValuesConcat(TransportRequests(profile, names, Source), TransportRequests(profile, names, Destination), key);
  }

  lemma SetupIsWanted(
    profile: Profile, names: Names, dryRun: bool, throttleDivisor: nat, placeholder: Option<string>,
    tuning: seq<Request>, key: Key)
    requires Representable(profile) && ThrottleDivides(profile, throttleDivisor)
    ensures Values(SetupRequests(profile, names, throttleDivisor), key) ==
      if IsLogin(key) || IsClosing(key) then []
      else Wanted(profile, names, dryRun, throttleDivisor, placeholder, tuning, key)
  {
    hide OPTION_SPECS, Values, TransportRequests, WishRequests, Wishes, RuleRequests;
    hide RateRequests, ThrottleDivides, Somes, Patterns, TlsSettings, PortOf, Digits, MessageShare, ByteShare;
    hide Excluded, Mapped;
    var t, u := TransportRequests(profile, names, Source), TransportRequests(profile, names, Destination);
    var w, r := WishRequests(Wishes(profile)), RuleRequests(profile.folderMappingRules);
    var rates := RateRequests(profile, throttleDivisor);
    TransportsAreWanted(profile, names, throttleDivisor, key);
    WishesWanted(profile, key);
    RuleValues(profile.folderMappingRules, key);
    RateValues(profile, throttleDivisor, key);
    ValuesConcat(w, r, key);
    ValuesConcat(t + u, w + r, key);
    ValuesConcat(t + u + (w + r), rates, key);
  }

  /** Every option of the command line is asked for with exactly the values that the profile wants. */
  lemma RequestsAreWanted(
    profile: Profile, names: Names, dryRun: bool, throttleDivisor: nat, placeholder: Option<string>,
    tuning: seq<Request>, key: Key)
    requires Representable(profile) && ThrottleDivides(profile, throttleDivisor)
    requires forall i :: 0 <= i < |tuning| ==> IsTuning(tuning[i])
    ensures Values(Requests(profile, names, dryRun, throttleDivisor, placeholder, tuning), key) ==
      Wanted(profile, names, dryRun, throttleDivisor, placeholder, tuning, key)
  {
    hide OPTION_SPECS, Values, LoginRequests, SetupRequests, ClosingRequests, IsTuning, ThrottleDivides;
    hide Somes, Patterns, TlsSettings, PortOf, EndpointOf, FlagOf, SecurityOf, Digits, MessageShare, ByteShare;
    hide Excluded, Mapped;
    LoginsAreWanted(profile, names, dryRun, throttleDivisor, placeholder, tuning, key);
    SetupIsWanted(profile, names, dryRun, throttleDivisor, placeholder, tuning, key);
    ClosingValues(dryRun, key);
    TuningValues(tuning, key);
    ValuesConcat(ClosingRequests(dryRun), tuning, key);
    ValuesConcat(LoginRequests(profile, names, placeholder), SetupRequests(profile, names, throttleDivisor), key);
    ValuesConcat(LoginRequests(profile, names, placeholder) + SetupRequests(profile, names, throttleDivisor),
                 ClosingRequests(dryRun) + tuning, key);
  }

  /**
   The engine reads the launched command line as exactly what the profile wants: each option has its wanted
   values and no others, every token belongs to a known option, and the tuning options come last.
   */
  lemma CommandAsks(
    profile: Profile, names: Names, dryRun: bool, throttleDivisor: nat, placeholder: Option<string>,
    extraOptions: seq<string>, key: Key)
    requires Representable(profile) && ThrottleDivides(profile, throttleDivisor) && NormalForm(extraOptions)
    ensures
      var tuning := Read(extraOptions);
      var requests := Read(Arguments(profile, names, dryRun, throttleDivisor, placeholder, extraOptions));
      && Values(requests, key) == Wanted(profile, names, dryRun, throttleDivisor, placeholder, tuning, key)
      && Proper(requests) && |tuning| <= |requests| && requests[|requests| - |tuning|..] == tuning
      && forall i :: 0 <= i < |tuning| ==> IsTuning(tuning[i])
  {
    hide OPTION_SPECS, Values, Wanted, IsTuning, ThrottleDivides, NormalForm, LoginRequests, SetupRequests, Arguments;
    hide Read, Print, ClosingRequests, Proper;
    var tuning := NormalFormPrints(extraOptions);
    TuningIsProper(tuning);
    ReadPrinted(tuning);
    RequestsAreProper(profile, names, dryRun, throttleDivisor, placeholder, tuning);
    ArgumentsPrint(profile, names, dryRun, throttleDivisor, placeholder, tuning, extraOptions);
    ReadPrinted(Requests(profile, names, dryRun, throttleDivisor, placeholder, tuning));
    RequestsAreWanted(profile, names, dryRun, throttleDivisor, placeholder, tuning, key);
  }

  lemma TuningIsProper(tuning: seq<Request>)
    requires forall i :: 0 <= i < |tuning| ==> IsTuning(tuning[i])
    ensures Proper(tuning)
  {
    hide OPTION_SPECS;
  }

  // ----- The wanted values in plain terms

  lemma {:induction false} AskedIsValue(requests: seq<Request>, key: Key, value: Option<string>)
    ensures Asked(key, value) in requests <==> value in Values(requests, key)
  {
    if requests != [] {
      AskedIsValue(requests[..|requests| - 1], key, value);
      assert requests == requests[..|requests| - 1] + [requests[|requests| - 1]];
    }
  }

  /** A rate is a decimal number that gives each child its fair share of the target; no target, no rate. */
  ghost predicate LimitsRate(values: seq<Option<string>>, children: nat, target: nat) {
    if target == 0 then values == []
    else
      && |values| == 1 && values[0].Some? && AllDigits(values[0].value)
      && IsFairShare(Value(values[0].value), children, target)
  }

  /** The port of the profile if it is one, that of the endpoint if it is left blank, otherwise the invalid port 0. */
  function ConfiguredPort(configured: string, endpointPort: nat): nat {
    match ParseUnsigned(Trim(configured), U16_MAX)
    case Some(port) => port
    case None => if Trim(configured) == "" then endpointPort else 0
  }

  predicate NamesPort(values: seq<Option<string>>, port: nat) {
    |values| == 1 && values[0].Some? && ParseUnsigned(values[0].value, U16_MAX) == Some(port)
  }

  /** The only folder that the pattern matches; None for a pattern that is no literal. */
  function ExcludedBy(pattern: string): Option<string> {
    if |pattern| >= 6 && pattern[..4] == "^(?:" && pattern[|pattern| - 2..] == ")$"
    then LiteralOf(pattern[4..|pattern| - 2]) else None
  }

  ghost predicate Excludes(values: seq<Option<string>>, folders: seq<string>) {
    && |values| == |folders|
    && forall i :: 0 <= i < |values| ==> values[i].Some? && ExcludedBy(values[i].value) == Some(folders[i])
  }

  lemma PatternExcludes(folder: string)
    ensures ExcludedBy(PatternOf(folder)) == Some(folder)
  {
    hide RegexEscape, LiteralOf;
    EscapedIsLiteral(folder);
    var pattern, body := PatternOf(folder), RegexEscape(folder);
    assert pattern[..4] == "^(?:" && pattern[4..|pattern| - 2] == body && pattern[|pattern| - 2..] == ")$";
  }

  lemma PortParses(configured: string, endpointPort: nat)
    requires endpointPort <= U16_MAX
    ensures ParseUnsigned(PortText(configured, endpointPort), U16_MAX) == Some(ConfiguredPort(configured, endpointPort))
  {
    hide Trim;
    ParsePrinted(endpointPort);
    ParsePrinted(0);
    assert Digits(0) == "0";
  }

  lemma EndpointPortFits(host: string, defaultPort: nat, names: Names)
    requires defaultPort <= U16_MAX
    ensures CommandEndpointParts(host, defaultPort, names).port <= U16_MAX
  {
  }

  lemma PortsFit(profile: Profile, names: Names, a: Account)
    ensures EndpointOf(profile, names, a).port <= U16_MAX
  {
    hide CommandEndpointParts;
    EndpointPortFits(profile.sourceHost, DefaultImapPort(profile.sourceTls), names);
    EndpointPortFits(
      profile.destinationHost, DefaultImapPort(EffectiveDestinationTls(profile.destinationTls)), names);
  }

  lemma RatesAreFair(
    profile: Profile, names: Names, dryRun: bool, throttleDivisor: nat, placeholder: Option<string>, tuning: seq<Request>)
    requires Representable(profile) && ThrottleDivides(profile, throttleDivisor)
    ensures LimitsRate(Wanted(profile, names, dryRun, throttleDivisor, placeholder, tuning, MessageRate),
                       Divisor(throttleDivisor), profile.maxMessagesPerSecond)
    ensures LimitsRate(Wanted(profile, names, dryRun, throttleDivisor, placeholder, tuning, ByteRate),
                       Divisor(throttleDivisor), profile.maxBytesPerSecond)
  {
    hide ThrottleDivides, MessageShare, ByteShare, Digits, Value, IsFairShare, OPTION_SPECS;
    RatesShareTheTarget(profile, throttleDivisor);
    DigitsRoundTrip(ByteShare(profile, throttleDivisor));
    if profile.maxMessagesPerSecond > 0 {
      DigitsRoundTrip(MessageShare(profile, throttleDivisor));
    }
  }

  /** Every option has its wanted values, and every token belongs to a known option. */
  ghost predicate AsksAsWanted(
    requests: seq<Request>, profile: Profile, names: Names, dryRun: bool, throttleDivisor: nat,
    placeholder: Option<string>, tuning: seq<Request>)
    requires Representable(profile) && ThrottleDivides(profile, throttleDivisor)
  {
    && Proper(requests)
    && forall key :: Values(requests, key) == Wanted(profile, names, dryRun, throttleDivisor, placeholder, tuning, key)
  }

  /** A rehearsal asks for a dry run and nothing else does; only the profile makes a run delete. */
  lemma OnlyRehearsalsAreDry(
    requests: seq<Request>, profile: Profile, names: Names, dryRun: bool, throttleDivisor: nat,
    placeholder: Option<string>, tuning: seq<Request>)
    requires Representable(profile) && ThrottleDivides(profile, throttleDivisor)
    requires AsksAsWanted(requests, profile, names, dryRun, throttleDivisor, placeholder, tuning)
    ensures Asked(DryRun, None) in requests <==> dryRun
    ensures Asked(DeleteExtras, None) in requests <==> profile.delete2
  {
    hide Values, Proper;
    AskedIsValue(requests, DryRun, None);
    AskedIsValue(requests, DeleteExtras, None);
  }

  /** The numbers and patterns of the command line mean what the profile says. */
  lemma ValuesMean(
    requests: seq<Request>, profile: Profile, names: Names, dryRun: bool, throttleDivisor: nat,
    placeholder: Option<string>, tuning: seq<Request>)
    requires Representable(profile) && ThrottleDivides(profile, throttleDivisor)
    requires AsksAsWanted(requests, profile, names, dryRun, throttleDivisor, placeholder, tuning)
    ensures LimitsRate(Values(requests, MessageRate), Divisor(throttleDivisor), profile.maxMessagesPerSecond)
    ensures LimitsRate(Values(requests, ByteRate), Divisor(throttleDivisor), profile.maxBytesPerSecond)
    ensures Excludes(Values(requests, ExcludeFolder), Excluded(profile.folderMappingRules))
    ensures NamesPort(Values(requests, Port(Source)),
                      ConfiguredPort(profile.sourcePort, EndpointOf(profile, names, Source).port))
    ensures NamesPort(Values(requests, Port(Destination)),
                      ConfiguredPort(profile.destinationPort, EndpointOf(profile, names, Destination).port))
  {
    hide Values, Proper, LimitsRate, EndpointOf, ConfiguredPort, PortText, PatternOf, ExcludedBy, Excluded;
    hide ThrottleDivides;
    RatesAreFair(profile, names, dryRun, throttleDivisor, placeholder, tuning);
    PortsFit(profile, names, Source);
    PortsFit(profile, names, Destination);
    PortParses(profile.sourcePort, EndpointOf(profile, names, Source).port);
    PortParses(profile.destinationPort, EndpointOf(profile, names, Destination).port);
    var folders := Excluded(profile.folderMappingRules);
    forall i | 0 <= i < |folders| ensures ExcludedBy(PatternOf(folders[i])) == Some(folders[i]) {
      PatternExcludes(folders[i]);
    }
  }

  /** Some target is too small to give each child one unit per second. */
  predicate SharesTooSmall(profile: Profile, children: nat) {
    0 < profile.maxMessagesPerSecond < children || 0 < profile.maxBytesPerSecond < children
  }

  /**
   A plan is refused exactly for a target too small to share, and otherwise for extra options that
   are not accepted; any other plan asks the engine for exactly what the profile wants.
   */
  lemma PlanMeans(profile: Profile, names: Names, dryRun: bool, throttleDivisor: nat, includePlaceholders: bool)
    requires Representable(profile)
    ensures
      var plan := PlanArguments(profile, names, dryRun, throttleDivisor, includePlaceholders);
      var placeholder := if includePlaceholders then Some(PLACEHOLDER) else None;
      var options := Canonicalize(profile.extraOptions);
      && (plan.IndivisibleThrottle? <==> SharesTooSmall(profile, Divisor(throttleDivisor)))
      && (!plan.IndivisibleThrottle? ==>
            && ThrottleDivides(profile, throttleDivisor)
            && (plan.Args? <==> options.Tokens?)
            && (options.Refused? ==> plan == BadOptions(options.error))
            && (plan.Args? ==>
                  AsksAsWanted(Read(plan.args), profile, names, dryRun, throttleDivisor, placeholder, Read(options.tokens))))
  {
    hide Arguments, Canonicalize, Read, Proper, Wanted, Values, PLACEHOLDER, OPTION_SPECS, NormalForm, IsTuning;
    ThrottleDividesExactly(profile, throttleDivisor);
    if PlanArguments(profile, names, dryRun, throttleDivisor, includePlaceholders).Args? {
      CanonicalIsFixedPoint(profile.extraOptions);
      var placeholder := if includePlaceholders then Some(PLACEHOLDER) else None;
      forall key {
        CommandAsks(profile, names, dryRun, throttleDivisor, placeholder, Canonicalize(profile.extraOptions).tokens, key);
      }
      CommandAsks(profile, names, dryRun, throttleDivisor, placeholder, Canonicalize(profile.extraOptions).tokens, NoLog);
    }
  }
}
