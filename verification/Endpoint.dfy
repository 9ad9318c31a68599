/** Host and port of an endpoint field, as every layer of the program reads it. */
module Endpoint {
  import opened Collections
  import opened Decimal
  import opened Text

  /** What the name libraries decide: IPv6 syntax, Unicode letters and digits, and IDNA. */
  datatype Names = Names(
    isIpv6: string -> bool,
    isAlphanumeric: char -> bool,
    toAscii: string -> Option<string>
  )

  /** An IPv6 address starts with a hexadecimal digit or a colon. */
  ghost predicate Sound(names: Names) {
    forall s :: names.isIpv6(s) ==> s == "" || s[0] != '-'
  }

  datatype Parts = Parts(host: string, port: nat)

  function Find(s: string, c: char, from: nat): (r: Option<nat>)
    requires from <= |s|
    ensures r.Some? ==> from <= r.value < |s| && s[r.value] == c
    decreases |s| - from
  {
    if from == |s| then None
    else if s[from] == c then Some(from)
    else Find(s, c, from + 1)
  }

  predicate ValidHostName(host: string, names: Names) {
    && ByteLength(host) <= 253
    && (host != "" ==> host[0] != '-' && host[0] != '.')
    && forall c :: c in host ==> names.isAlphanumeric(c) || c == '.' || c == '-' || c == '_'
  }

  function CanonicalHostName(host: string, names: Names): Option<string> {
    if !ValidHostName(host, names) then None
    else if IsAscii(host) then Some(host)
    else match names.toAscii(host)
      case None => None
      case Some(ascii) => if ValidHostName(ascii, names) then Some(ascii) else None
  }

  function WithPort(host: Option<string>, port: Option<nat>): Option<Parts> {
    if host.None? || port.None? || port.value == 0 then None else Some(Parts(host.value, port.value))
  }

  function BracketedParts(rest: string, defaultPort: nat, names: Names): Option<Parts> {
    match Find(rest, ']', 0)
    case None => None
    case Some(end) =>
      var host := Trim(rest[..end]);
      var suffix := rest[end + 1..];
      if host == "" || !names.isIpv6(host) then None
      else if suffix == "" then WithPort(Some(host), Some(defaultPort))
      else if suffix[0] != ':' then None
      else WithPort(Some(host), ParseUnsigned(suffix[1..], U16_MAX))
  }

  function PartsOf(input: string, defaultPort: nat, names: Names): Option<Parts> {
    var text := Trim(input);
    if text == "" then None
    else if text[0] == '[' then BracketedParts(text[1..], defaultPort, names)
    else match Find(text, ':', 0)
      case None => WithPort(CanonicalHostName(text, names), Some(defaultPort))
      case Some(colon) =>
        if Find(text, ':', colon + 1).Some? then
          if names.isIpv6(text) then WithPort(Some(text), Some(defaultPort)) else None
        else if Trim(text[..colon]) == "" then None
        else WithPort(CanonicalHostName(Trim(text[..colon]), names), ParseUnsigned(text[colon + 1..], U16_MAX))
  }

  /** An accepted host never looks like an engine option, and its port is a real one. */
  lemma HostIsNeverAnOption(input: string, defaultPort: nat, names: Names)
    requires Sound(names) && 0 < defaultPort <= U16_MAX
    ensures var parts := PartsOf(input, defaultPort, names);
      parts.Some? ==>
        && (parts.value.host == "" || parts.value.host[0] != '-')
        && 0 < parts.value.port <= U16_MAX
  {
  }

  // ----- Round trips

  /** Letters and digits are no whitespace and no separators, and an IPv6 address consists of
      hexadecimal digits, dots and at least two colons. */
  ghost predicate Usual(names: Names) {
    && (forall c :: names.isAlphanumeric(c) ==> !IsWhitespace(c) && c !in ":[]")
    && (forall s :: names.isIpv6(s) ==> HasTwoColons(s) && forall c :: c in s ==> IsAddressChar(c))
  }

  predicate IsAddressChar(c: char) {
    IsDigit(c) || 'a' <= c <= 'f' || 'A' <= c <= 'F' || c == ':' || c == '.'
  }

  ghost predicate HasTwoColons(s: string) {
    exists i, j :: 0 <= i < j < |s| && s[i] == s[j] == ':'
  }

  lemma TrimLeaves(s: string)
    requires s != "" ==> !IsWhitespace(s[0]) && !IsWhitespace(s[|s| - 1])
    ensures Trim(s) == s
  {
  }

  lemma {:induction false} FindAbsent(s: string, c: char, from: nat)
    requires from <= |s| && forall i :: from <= i < |s| ==> s[i] != c
    ensures Find(s, c, from) == None
    decreases |s| - from
  {
    if from < |s| {
      FindAbsent(s, c, from + 1);
    }
  }

  lemma {:induction false} FindsFirst(s: string, c: char, from: nat, at: nat)
    requires from <= at < |s| && s[at] == c && forall i :: from <= i < at ==> s[i] != c
    ensures Find(s, c, from) == Some(at)
    decreases |s| - from
  {
    if from < at {
      FindsFirst(s, c, from + 1, at);
    }
  }

  lemma {:induction false} FindsSome(s: string, c: char, from: nat, at: nat)
    requires from <= at < |s| && s[at] == c
    ensures Find(s, c, from).Some? && Find(s, c, from).value <= at
    decreases |s| - from
  {
    if s[from] != c {
      FindsSome(s, c, from + 1, at);
    }
  }

  lemma PortDigits(port: nat)
    requires 0 < port <= U16_MAX
    ensures Digits(port) != "" && forall i :: 0 <= i < |Digits(port)| ==> IsDigit(Digits(port)[i])
    ensures ParseUnsigned(Digits(port), U16_MAX) == Some(port)
  {
    DigitsRoundTrip(port);
    forall i | 0 <= i < |Digits(port)| ensures IsDigit(Digits(port)[i]) {
      assert Digits(port)[i] in Digits(port);
    }
  }

  lemma ZeroParses()
    ensures ParseUnsigned("0", U16_MAX) == Some(0)
  {
    ParsePrinted(0);
    assert Digits(0) == "0";
  }

  lemma HostChars(host: string, names: Names)
    requires Usual(names) && ValidHostName(host, names)
    ensures forall i :: 0 <= i < |host| ==> !IsWhitespace(host[i]) && host[i] !in ":[]"
  {
    forall i | 0 <= i < |host| ensures !IsWhitespace(host[i]) && host[i] !in ":[]" {
      assert host[i] in host;
    }
  }

  /** A plain host name stands for itself, with the default port or the one behind its colon. */
  lemma HostRoundTrip(host: string, port: nat, defaultPort: nat, names: Names)
    requires Usual(names) && ValidHostName(host, names) && IsAscii(host) && host != ""
    requires 0 < port <= U16_MAX && 0 < defaultPort <= U16_MAX
    ensures PartsOf(host, defaultPort, names) == Some(Parts(host, defaultPort))
    ensures PartsOf(host + ":" + Digits(port), defaultPort, names) == Some(Parts(host, port))
    ensures PartsOf(host + ":0", defaultPort, names) == None
  {
    hide Usual, Trim, Find, ValidHostName, ParseUnsigned, Digits;
    HostChars(host, names);
    TrimLeaves(host);
    FindAbsent(host, ':', 0);
    PortDigits(port);
    HostWithPort(host, Digits(port), defaultPort, names);
    HostWithPort(host, "0", defaultPort, names);
    ZeroParses();
    assert host + ":" + "0" == host + ":0";
  }

  lemma HostWithPort(host: string, port: string, defaultPort: nat, names: Names)
    requires ValidHostName(host, names) && IsAscii(host) && host != ""
    requires forall i :: 0 <= i < |host| ==> !IsWhitespace(host[i]) && host[i] !in ":[]"
    requires port != "" && forall i :: 0 <= i < |port| ==> IsDigit(port[i])
    ensures PartsOf(host + ":" + port, defaultPort, names) == WithPort(Some(host), ParseUnsigned(port, U16_MAX))
  {
    hide Trim, Find, ValidHostName, ParseUnsigned;
    var text := host + ":" + port;
    TrimLeaves(text);
    TrimLeaves(host);
    FindsFirst(text, ':', 0, |host|);
    FindAbsent(text, ':', |host| + 1);
    assert text[..|host|] == host && text[|host| + 1..] == port && text[0] == host[0];
  }

  lemma AddressChars(address: string, names: Names)
    requires Usual(names) && names.isIpv6(address)
    ensures address != "" && HasTwoColons(address)
    ensures forall i :: 0 <= i < |address| ==> !IsWhitespace(address[i]) && address[i] != '[' && address[i] != ']'
  {
    assert HasTwoColons(address);
    forall i | 0 <= i < |address| ensures !IsWhitespace(address[i]) && address[i] != '[' && address[i] != ']' {
      assert IsAddressChar(address[i]);
    }
  }

  /** An IPv6 address stands for itself, bare or in brackets; a port needs the brackets. */
  lemma AddressRoundTrip(address: string, port: nat, defaultPort: nat, names: Names)
    requires Usual(names) && names.isIpv6(address)
    requires 0 < port <= U16_MAX && 0 < defaultPort <= U16_MAX
    ensures PartsOf(address, defaultPort, names) == Some(Parts(address, defaultPort))
    ensures PartsOf("[" + address + "]", defaultPort, names) == Some(Parts(address, defaultPort))
    ensures PartsOf("[" + address + "]:" + Digits(port), defaultPort, names) == Some(Parts(address, port))
  {
    hide Usual, Trim, Find, ParseUnsigned, Digits, HasTwoColons;
    AddressChars(address, names);
    PortDigits(port);
    BareAddress(address, defaultPort, names);
    InBrackets(address, "", defaultPort, names);
    InBrackets(address, ":" + Digits(port), defaultPort, names);
    assert "[" + address + "]" + "" == "[" + address + "]";
    assert "[" + address + "]" + (":" + Digits(port)) == "[" + address + "]:" + Digits(port);
    assert (":" + Digits(port))[1..] == Digits(port);
  }

  lemma BareAddress(address: string, defaultPort: nat, names: Names)
    requires names.isIpv6(address) && HasTwoColons(address) && 0 < defaultPort
    requires forall i :: 0 <= i < |address| ==> !IsWhitespace(address[i]) && address[i] != '['
    ensures PartsOf(address, defaultPort, names) == Some(Parts(address, defaultPort))
  {
    hide Trim, Find;
    TrimLeaves(address);
    var i, j :| 0 <= i < j < |address| && address[i] == address[j] == ':';
    FindsSome(address, ':', 0, i);
    FindsSome(address, ':', Find(address, ':', 0).value + 1, j);
  }

  lemma InBrackets(address: string, suffix: string, defaultPort: nat, names: Names)
    requires names.isIpv6(address) && address != ""
    requires forall i :: 0 <= i < |address| ==> !IsWhitespace(address[i]) && address[i] != ']'
    requires suffix != "" ==> suffix[0] == ':' && !IsWhitespace(suffix[|suffix| - 1])
    ensures PartsOf("[" + address + "]" + suffix, defaultPort, names) ==
      WithPort(Some(address), if suffix == "" then Some(defaultPort) else ParseUnsigned(suffix[1..], U16_MAX))
  {
    hide Trim, Find, ParseUnsigned;
    var text := "[" + address + "]" + suffix;
    var rest := text[1..];
    TrimLeaves(text);
    TrimLeaves(address);
    FindsFirst(rest, ']', 0, |address|);
    assert rest[..|address|] == address && rest[|address| + 1..] == suffix;
  }
}
