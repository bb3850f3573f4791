/** The fallback access point's configuration: loading it, and printing it for hostapd and dnsmasq. */
module ApConfig {
  import opened Wrappers
  import opened Text
  import opened Numerals
  import opened Addresses
  import opened Conf
  import opened ConfLaws
  import opened RobotIdentity

  const SSID_MAX_BYTES := 32
  const PSK_MIN_CHARS := 8
  const PSK_MAX_CHARS := 63
  const CHANNEL_MAX := 14

  predicate NoControl(s: string) {
    forall i :: 0 <= i < |s| ==> !IsControl(s[i])
  }

  /** Not empty, and no more than the 32 octets of section 9.4.2.2 of IEEE 802.11-2016. */
  predicate IsSsid(s: string) {
    s != "" && NoControl(s) && ByteLength(s) <= SSID_MAX_BYTES
  }

  type Ssid = s: string | IsSsid(s) witness "a"

  predicate IsPsk(s: string) {
    NoControl(s) && PSK_MIN_CHARS <= |s| <= PSK_MAX_CHARS
  }

  type Psk = s: string | IsPsk(s) witness "aaaaaaaa"

  datatype ApConfigError =
    | EmptySsid
    | SsidTooLong(length: nat)
    | PskLength(length: nat)
    | ControlCharacter(field: string)
    | NotAnIpv4Address(field: string)
    | NotANumber(field: string)
    | ChannelOutOfRange(channel: nat)
    | CidrOutOfRange(cidr: nat)
    | EmptyField(field: string)

  function NewSsid(s: string): (r: Result<Ssid, ApConfigError>)
    ensures r.Ok? <==> IsSsid(s)
    ensures r.Ok? ==> r.value == s
    ensures r.Err? ==>
              match r.error
              case EmptySsid => s == ""
              case ControlCharacter(field) => field == "AP_SSID" && !NoControl(s)
              case SsidTooLong(length) => NoControl(s) && length == ByteLength(s) > SSID_MAX_BYTES
              case _ => false
  {
    if s == "" then Err(EmptySsid)
    else if !NoControl(s) then Err(ControlCharacter("AP_SSID"))
    else if ByteLength(s) > SSID_MAX_BYTES then Err(SsidTooLong(ByteLength(s)))
    else Ok(s)
  }

  /** Empty means an open network. */
  function ParsePsk(s: string): (r: Result<Option<Psk>, ApConfigError>)
    ensures r.Ok? <==> s == "" || IsPsk(s)
    ensures r.Ok? ==> r.value == if s == "" then None else Some(s)
    ensures r.Err? ==>
              match r.error
              case ControlCharacter(field) => field == "AP_PSK" && !NoControl(s)
              case PskLength(length) =>
                NoControl(s) && length == |s| && !(PSK_MIN_CHARS <= length <= PSK_MAX_CHARS)
              case _ => false
  {
    if s == "" then Ok(None)
    else if !NoControl(s) then Err(ControlCharacter("AP_PSK"))
    else if !(PSK_MIN_CHARS <= |s| <= PSK_MAX_CHARS) then Err(PskLength(|s|))
    else Ok(Some(s))
  }

  /** A value, unless it is missing or blank; then the default stands in. */
  function ValueOr(text: string, field: string, default: string): (value: string)
    ensures default != "" ==> value != ""
  {
    match ParseValue(text, field)
    case Some(value) => if value != "" then value else default
    case None => default
  }

  function Ipv4(text: string, field: string, default: string): (r: Result<string, ApConfigError>)
    ensures r.Ok? ==> IsIpv4(r.value) && r.value == ValueOr(text, field, default)
  {
    var raw := ValueOr(text, field, default);
    if IsIpv4(raw) then Ok(raw) else Err(NotAnIpv4Address(field))
  }

  function NonEmpty(text: string, field: string, default: string): (r: Result<string, ApConfigError>)
    ensures r.Ok? ==> r.value != "" && NoControl(r.value) && r.value == ValueOr(text, field, default)
  {
    var raw := ValueOr(text, field, default);
    if raw == "" then Err(EmptyField(field))
    else if !NoControl(raw) then Err(ControlCharacter(field))
    else Ok(raw)
  }

  function Channel(text: string): (r: Result<nat, ApConfigError>)
    ensures r.Ok? ==> 1 <= r.value <= CHANNEL_MAX
  {
    match ParseUnsigned(ValueOr(text, "AP_CHANNEL", "6"), 65535)
    case None => Err(NotANumber("AP_CHANNEL"))
    case Some(n) => if 1 <= n <= CHANNEL_MAX then Ok(n) else Err(ChannelOutOfRange(n))
  }

  function Cidr(text: string): (r: Result<nat, ApConfigError>)
    ensures r.Ok? ==> 1 <= r.value <= 32
  {
    match ParseUnsigned(ValueOr(text, "AP_NETMASK_CIDR", "24"), 65535)
    case None => Err(NotANumber("AP_NETMASK_CIDR"))
    case Some(n) => if 1 <= n <= 32 then Ok(n) else Err(CidrOutOfRange(n))
  }

  datatype Config = Config(
    iface: string,
    ssid: Ssid,
    psk: Option<Psk>,
    address: string,
    netmask: string,
    netmaskCidr: nat,
    dhcpRangeStart: string,
    dhcpRangeEnd: string,
    dhcpLeaseTime: string,
    channel: nat,
    country: string)

  datatype Security = Open | Wpa2

  function SecurityOf(c: Config): Security {
    if c.psk.Some? then Wpa2 else Open
  }

  /** The explicit name, or one derived from the robot's; a derived name that is too long is an
      error, never cut. */
  function LoadSsid(text: string, robotId: RobotId): Result<Ssid, ApConfigError> {
    match ParseValue(text, "AP_SSID")
    case Some(explicit) =>
      if explicit != "" then NewSsid(explicit)
      else NewSsid(robotId + Suffix(text))
    case None => NewSsid(robotId + Suffix(text))
  }

  /** The name is derived: none is given, or an empty one. */
  predicate Derived(text: string) {
    ParseValue(text, "AP_SSID").GetOr("") == ""
  }

  function Suffix(text: string): string {
    ParseValue(text, "AP_SSID_SUFFIX").GetOr("-setup")
  }

  lemma NoControlConcat(a: string, b: string)
    ensures NoControl(a + b) <==> NoControl(a) && NoControl(b)
  {
    assert forall i :: 0 <= i < |a| ==> (a + b)[i] == a[i];
    assert forall i :: 0 <= i < |b| ==> (a + b)[|a| + i] == b[i];
  }

  /** A derived name is the robot's whole name and the suffix, or an error when that is too long or
      has a control character in it; it is never cut. */
  lemma DerivedSsid(text: string, id: RobotId)
    requires Derived(text)
    ensures LoadSsid(text, id).Ok? <==> NoControl(Suffix(text)) && |id| + ByteLength(Suffix(text)) <= SSID_MAX_BYTES
    ensures LoadSsid(text, id).Ok? ==> LoadSsid(text, id).value == id + Suffix(text)
  {
    ByteLengthConcat(id, Suffix(text));
    NoControlConcat(id, Suffix(text));
    assert LoadSsid(text, id) == NewSsid(id + Suffix(text));
  }

  /** So two robots never share a derived name. */
  lemma DerivedSsidTellsRobotsApart(text: string, a: RobotId, b: RobotId)
    requires Derived(text) && LoadSsid(text, a).Ok? && LoadSsid(text, b).Ok?
    requires LoadSsid(text, a).value == LoadSsid(text, b).value
    ensures a == b
  {
    DerivedSsid(text, a);
    DerivedSsid(text, b);
    SamePrefix(a, b, Suffix(text));
  }

  lemma SamePrefix(a: string, b: string, suffix: string)
    requires a + suffix == b + suffix
    ensures a == b
  {
    assert |a| == |b|;
    assert a == (a + suffix)[..|a|] && b == (b + suffix)[..|b|];
  }

  lemma {:induction false} ByteLengthConcat(a: string, b: string)
    ensures ByteLength(a + b) == ByteLength(a) + ByteLength(b)
  {
    if a == "" {
      assert a + b == b;
    } else {
      assert (a + b)[1..] == a[1..] + b;
      ByteLengthConcat(a[1..], b);
    }
  }

  /** What became of each field. */
  datatype Fields = Fields(
    ssid: Result<Ssid, ApConfigError>,
    psk: Result<Option<Psk>, ApConfigError>,
    address: Result<string, ApConfigError>,
    netmask: Result<string, ApConfigError>,
    netmaskCidr: Result<nat, ApConfigError>,
    dhcpRangeStart: Result<string, ApConfigError>,
    dhcpRangeEnd: Result<string, ApConfigError>,
    dhcpLeaseTime: Result<string, ApConfigError>,
    channel: Result<nat, ApConfigError>,
    country: Result<string, ApConfigError>)

  /** The first field that failed fails the whole. */
  function Assembled(iface: string, f: Fields): (r: Result<Config, ApConfigError>)
    ensures r.Ok? <==> && f.ssid.Ok? && f.psk.Ok? && f.address.Ok? && f.netmask.Ok? && f.netmaskCidr.Ok?
                       && f.dhcpRangeStart.Ok? && f.dhcpRangeEnd.Ok? && f.dhcpLeaseTime.Ok? && f.channel.Ok?
                       && f.country.Ok?
  {
    if f.ssid.Err? then Err(f.ssid.error)
    else if f.psk.Err? then Err(f.psk.error)
    else if f.address.Err? then Err(f.address.error)
    else if f.netmask.Err? then Err(f.netmask.error)
    else if f.netmaskCidr.Err? then Err(f.netmaskCidr.error)
    else if f.dhcpRangeStart.Err? then Err(f.dhcpRangeStart.error)
    else if f.dhcpRangeEnd.Err? then Err(f.dhcpRangeEnd.error)
    else if f.dhcpLeaseTime.Err? then Err(f.dhcpLeaseTime.error)
    else if f.channel.Err? then Err(f.channel.error)
    else if f.country.Err? then Err(f.country.error)
    else
      Ok(Config(iface, f.ssid.value, f.psk.value, f.address.value, f.netmask.value, f.netmaskCidr.value,
                f.dhcpRangeStart.value, f.dhcpRangeEnd.value, f.dhcpLeaseTime.value, f.channel.value,
                f.country.value))
  }

  function ReadFields(text: string, robotId: RobotId): Fields {
    Fields(
      LoadSsid(text, robotId),
      ParsePsk(ParseValue(text, "AP_PSK").GetOr("")),
      Ipv4(text, "AP_ADDRESS", "192.168.50.1"),
      Ipv4(text, "AP_NETMASK", "255.255.255.0"),
      Cidr(text),
      Ipv4(text, "AP_DHCP_RANGE_START", "192.168.50.10"),
      Ipv4(text, "AP_DHCP_RANGE_END", "192.168.50.50"),
      NonEmpty(text, "AP_DHCP_LEASE_TIME", "12h"),
      Channel(text),
      NonEmpty(text, "AP_COUNTRY", "US"))
  }

  /** fallback-ap.conf, every unset key resolved to its default and every set one validated. */
  function LoadApConfig(file: Option<string>, iface: string, robotId: RobotId): Result<Config, ApConfigError> {
    Assembled(iface, ReadFields(file.GetOr(""), robotId))
  }

  // What the keys of the file say, by what the reader reads and nothing else.

  /** The value of a key, or the default when the key is missing or empty. */
  predicate Says(text: string, key: string, default: string, value: string) {
    match ParseValue(text, key)
    case None => value == default
    case Some(given) => value == if given == "" then default else given
  }

  /** The same for a number. */
  predicate SaysNumber(text: string, key: string, default: nat, n: nat) {
    match ParseValue(text, key)
    case None => n == default
    case Some(given) => if given == "" then n == default else ParseUnsigned(given, 65535) == Some(n)
  }

  /** An empty name counts as none; an empty suffix does not. */
  predicate SaysSsid(text: string, robotId: RobotId, ssid: string) {
    if ParseValue(text, "AP_SSID").GetOr("") != "" then Some(ssid) == ParseValue(text, "AP_SSID")
    else
      match ParseValue(text, "AP_SSID_SUFFIX")
      case None => ssid == robotId + "-setup"
      case Some(suffix) => ssid == robotId + suffix
  }

  predicate SaysPsk(text: string, psk: Option<string>) {
    psk == if ParseValue(text, "AP_PSK").GetOr("") == "" then None else ParseValue(text, "AP_PSK")
  }

  /** Every field comes from its own key, or from that key's default. */
  predicate Matches(c: Config, text: string, robotId: RobotId) {
    && SaysSsid(text, robotId, c.ssid)
    && SaysPsk(text, c.psk)
    && Says(text, "AP_ADDRESS", "192.168.50.1", c.address)
    && Says(text, "AP_NETMASK", "255.255.255.0", c.netmask)
    && SaysNumber(text, "AP_NETMASK_CIDR", 24, c.netmaskCidr)
    && Says(text, "AP_DHCP_RANGE_START", "192.168.50.10", c.dhcpRangeStart)
    && Says(text, "AP_DHCP_RANGE_END", "192.168.50.50", c.dhcpRangeEnd)
    && Says(text, "AP_DHCP_LEASE_TIME", "12h", c.dhcpLeaseTime)
    && SaysNumber(text, "AP_CHANNEL", 6, c.channel)
    && Says(text, "AP_COUNTRY", "US", c.country)
  }

  /** A key that is set, and not to nothing, is set to something good. */
  predicate GoodIfSet(text: string, key: string, good: string -> bool) {
    var given := ParseValue(text, key).GetOr("");
    given == "" || good(given)
  }

  function NumberFrom(low: nat, high: nat): string -> bool {
    (s: string) => var n := ParseUnsigned(s, 65535); n.Some? && low <= n.value <= high
  }

  predicate SsidFits(text: string, robotId: RobotId) {
    if Derived(text) then NoControl(Suffix(text)) && |robotId| + ByteLength(Suffix(text)) <= 32
    else IsSsid(ParseValue(text, "AP_SSID").value)
  }

  predicate PskFits(text: string) {
    var given := ParseValue(text, "AP_PSK").GetOr("");
    given == "" || (NoControl(given) && 8 <= |given| <= 63)
  }

  /** The files that load. */
  predicate Loadable(text: string, robotId: RobotId) {
    && SsidFits(text, robotId)
    && PskFits(text)
    && GoodIfSet(text, "AP_ADDRESS", IsIpv4) && GoodIfSet(text, "AP_NETMASK", IsIpv4)
    && GoodIfSet(text, "AP_NETMASK_CIDR", NumberFrom(1, 32))
    && GoodIfSet(text, "AP_DHCP_RANGE_START", IsIpv4) && GoodIfSet(text, "AP_DHCP_RANGE_END", IsIpv4)
    && GoodIfSet(text, "AP_DHCP_LEASE_TIME", NoControl)
    && GoodIfSet(text, "AP_CHANNEL", NumberFrom(1, 14))
    && GoodIfSet(text, "AP_COUNTRY", NoControl)
  }

  /** What is wrong with the file, if loading it gives this error. */
  predicate RealFault(e: ApConfigError, text: string, robotId: RobotId) {
    match e
    case SsidTooLong(length) => length > 32 && !SsidFits(text, robotId)
    case PskLength(length) =>
      Some(length) == Length(ParseValue(text, "AP_PSK")) && !(8 <= length <= 63) && length > 0
    case ControlCharacter(field) =>
      if field == "AP_SSID" then !SsidFits(text, robotId)
      else if field == "AP_PSK" then !PskFits(text)
      else field in {"AP_DHCP_LEASE_TIME", "AP_COUNTRY"} && !GoodIfSet(text, field, NoControl)
    case NotAnIpv4Address(field) =>
      && field in {"AP_ADDRESS", "AP_NETMASK", "AP_DHCP_RANGE_START", "AP_DHCP_RANGE_END"}
      && !GoodIfSet(text, field, IsIpv4)
    case NotANumber(field) =>
      && field in {"AP_NETMASK_CIDR", "AP_CHANNEL"}
      && ParseValue(text, field).GetOr("") != "" && ParseUnsigned(ParseValue(text, field).value, 65535) == None
    case ChannelOutOfRange(n) => !(1 <= n <= 14) && SaysNumber(text, "AP_CHANNEL", 6, n)
    case CidrOutOfRange(n) => !(1 <= n <= 32) && SaysNumber(text, "AP_NETMASK_CIDR", 24, n)
    case EmptySsid => false  // the robot's name is never empty
    case EmptyField(_) => false  // an empty value takes the default
  }

  function Length(s: Option<string>): Option<nat> {
    if s == None then None else Some(|s.value|)
  }

  lemma DefaultDecimals()
    ensures ToDecimal(192) == "192" && ToDecimal(168) == "168" && ToDecimal(255) == "255"
    ensures ToDecimal(50) == "50" && ToDecimal(10) == "10" && ToDecimal(1) == "1" && ToDecimal(0) == "0"
    ensures ToDecimal(6) == "6" && ToDecimal(24) == "24"
  {
    ShortDecimals(192);
    ShortDecimals(168);
    ShortDecimals(255);
    ShortDecimals(50);
    ShortDecimals(10);
    ShortDecimals(24);
  }

  lemma DefaultAddress(d: nat, last: string)
    requires d <= 255 && last == ToDecimal(d)
    ensures IsIpv4("192.168.50." + last)
  {
    DefaultDecimals();
    DottedIsIpv4(192, 168, 50, d);
    assert Dotted(192, 168, 50, d) == "192.168.50." + last;
  }

  lemma DefaultRange()
    ensures IsIpv4("192.168.50.1") && IsIpv4("192.168.50.10") && IsIpv4("192.168.50.50")
  {
    DefaultDecimals();
    DefaultAddress(1, "1");
    DefaultAddress(10, "10");
    DefaultAddress(50, "50");
    assert "192.168.50." + "1" == "192.168.50.1";
    assert "192.168.50." + "10" == "192.168.50.10";
    assert "192.168.50." + "50" == "192.168.50.50";
  }

  lemma DefaultNetmask()
    ensures IsIpv4("255.255.255.0")
  {
    DefaultDecimals();
    DottedIsIpv4(255, 255, 255, 0);
    assert Dotted(255, 255, 255, 0) == "255.255.255.0";
  }

  lemma DefaultTexts()
    ensures NoControl("12h") && NoControl("US")
  {
  }

  lemma Ipv4Says(text: string, robotId: RobotId, field: string, default: string)
    requires IsIpv4(default) && default != ""
    requires field in {"AP_ADDRESS", "AP_NETMASK", "AP_DHCP_RANGE_START", "AP_DHCP_RANGE_END"}
    ensures var r := Ipv4(text, field, default);
            && (r.Ok? <==> GoodIfSet(text, field, IsIpv4))
            && (r.Ok? ==> Says(text, field, default, r.value))
            && (r.Err? ==> RealFault(r.error, text, robotId))
  {
  }

  lemma NonEmptySays(text: string, robotId: RobotId, field: string, default: string)
    requires NoControl(default) && default != "" && field in {"AP_DHCP_LEASE_TIME", "AP_COUNTRY"}
    ensures var r := NonEmpty(text, field, default);
            && (r.Ok? <==> GoodIfSet(text, field, NoControl))
            && (r.Ok? ==> Says(text, field, default, r.value))
            && (r.Err? ==> RealFault(r.error, text, robotId))
  {
    assert "AP_DHCP_LEASE_TIME"[3] == 'D' && "AP_COUNTRY"[3] == 'C' && "AP_SSID"[3] == 'S' && "AP_PSK"[3] == 'P';
  }

  lemma NumbersSay(text: string, robotId: RobotId)
    ensures var r := Channel(text);
            && (r.Ok? <==> GoodIfSet(text, "AP_CHANNEL", NumberFrom(1, 14)))
            && (r.Ok? ==> SaysNumber(text, "AP_CHANNEL", 6, r.value))
            && (r.Err? ==> RealFault(r.error, text, robotId))
    ensures var r := Cidr(text);
            && (r.Ok? <==> GoodIfSet(text, "AP_NETMASK_CIDR", NumberFrom(1, 32)))
            && (r.Ok? ==> SaysNumber(text, "AP_NETMASK_CIDR", 24, r.value))
            && (r.Err? ==> RealFault(r.error, text, robotId))
  {
    DefaultDecimals();
    ParseUndoesPrint(6, 65535);
    ParseUndoesPrint(24, 65535);
  }

  lemma PskSays(text: string, robotId: RobotId)
    ensures var r := ParsePsk(ParseValue(text, "AP_PSK").GetOr(""));
            && (r.Ok? <==> PskFits(text))
            && (r.Ok? ==> SaysPsk(text, r.value))
            && (r.Err? ==> RealFault(r.error, text, robotId))
  {
    assert "AP_SSID"[3] == 'S' && "AP_PSK"[3] == 'P';
  }

  lemma SsidSays(text: string, robotId: RobotId)
    ensures LoadSsid(text, robotId).Ok? <==> SsidFits(text, robotId)
    ensures LoadSsid(text, robotId).Ok? ==> SaysSsid(text, robotId, LoadSsid(text, robotId).value)
    ensures LoadSsid(text, robotId).Err? ==> RealFault(LoadSsid(text, robotId).error, text, robotId)
  {
    if Derived(text) {
      DerivedSsid(text, robotId);
    }
  }

  /** What holds of every configuration that loads. */
  predicate Loaded(c: Config) {
    && IsIpv4(c.address) && IsIpv4(c.netmask) && IsIpv4(c.dhcpRangeStart) && IsIpv4(c.dhcpRangeEnd)
    && 1 <= c.netmaskCidr <= 32 && 1 <= c.channel <= CHANNEL_MAX
    && c.dhcpLeaseTime != "" && NoControl(c.dhcpLeaseTime)
    && c.country != "" && NoControl(c.country)
  }

  /** The fields that are texts, numbers or names load exactly when they should. */
  ghost predicate LoadWhenGood(text: string, robotId: RobotId, f: Fields) {
    && (f.ssid.Ok? <==> SsidFits(text, robotId))
    && (f.psk.Ok? <==> PskFits(text))
    && (f.address.Ok? <==> GoodIfSet(text, "AP_ADDRESS", IsIpv4))
    && (f.netmask.Ok? <==> GoodIfSet(text, "AP_NETMASK", IsIpv4))
    && (f.netmaskCidr.Ok? <==> GoodIfSet(text, "AP_NETMASK_CIDR", NumberFrom(1, 32)))
    && (f.dhcpRangeStart.Ok? <==> GoodIfSet(text, "AP_DHCP_RANGE_START", IsIpv4))
    && (f.dhcpRangeEnd.Ok? <==> GoodIfSet(text, "AP_DHCP_RANGE_END", IsIpv4))
    && (f.dhcpLeaseTime.Ok? <==> GoodIfSet(text, "AP_DHCP_LEASE_TIME", NoControl))
    && (f.channel.Ok? <==> GoodIfSet(text, "AP_CHANNEL", NumberFrom(1, 14)))
    && (f.country.Ok? <==> GoodIfSet(text, "AP_COUNTRY", NoControl))
  }

  /** Those that load are what the file says. */
  ghost predicate AreAsSaid(text: string, robotId: RobotId, f: Fields) {
    && (f.ssid.Ok? ==> SaysSsid(text, robotId, f.ssid.value))
    && (f.psk.Ok? ==> SaysPsk(text, f.psk.value))
    && (f.address.Ok? ==> Says(text, "AP_ADDRESS", "192.168.50.1", f.address.value))
    && (f.netmask.Ok? ==> Says(text, "AP_NETMASK", "255.255.255.0", f.netmask.value))
    && (f.netmaskCidr.Ok? ==> SaysNumber(text, "AP_NETMASK_CIDR", 24, f.netmaskCidr.value))
    && (f.dhcpRangeStart.Ok? ==> Says(text, "AP_DHCP_RANGE_START", "192.168.50.10", f.dhcpRangeStart.value))
    && (f.dhcpRangeEnd.Ok? ==> Says(text, "AP_DHCP_RANGE_END", "192.168.50.50", f.dhcpRangeEnd.value))
    && (f.dhcpLeaseTime.Ok? ==> Says(text, "AP_DHCP_LEASE_TIME", "12h", f.dhcpLeaseTime.value))
    && (f.channel.Ok? ==> SaysNumber(text, "AP_CHANNEL", 6, f.channel.value))
    && (f.country.Ok? ==> Says(text, "AP_COUNTRY", "US", f.country.value))
  }

  /** And whatever it says, they obey their rules. */
  ghost predicate AreInForm(f: Fields) {
    && (f.address.Ok? ==> IsIpv4(f.address.value)) && (f.netmask.Ok? ==> IsIpv4(f.netmask.value))
    && (f.dhcpRangeStart.Ok? ==> IsIpv4(f.dhcpRangeStart.value))
    && (f.dhcpRangeEnd.Ok? ==> IsIpv4(f.dhcpRangeEnd.value))
    && (f.netmaskCidr.Ok? ==> 1 <= f.netmaskCidr.value <= 32)
    && (f.channel.Ok? ==> 1 <= f.channel.value <= CHANNEL_MAX)
    && (f.dhcpLeaseTime.Ok? ==> f.dhcpLeaseTime.value != "" && NoControl(f.dhcpLeaseTime.value))
    && (f.country.Ok? ==> f.country.value != "" && NoControl(f.country.value))
  }

  /** And those that do not load have a fault. */
  ghost predicate FailForAFault(text: string, robotId: RobotId, f: Fields) {
    && (f.ssid.Err? ==> RealFault(f.ssid.error, text, robotId))
    && (f.psk.Err? ==> RealFault(f.psk.error, text, robotId))
    && (f.address.Err? ==> RealFault(f.address.error, text, robotId))
    && (f.netmask.Err? ==> RealFault(f.netmask.error, text, robotId))
    && (f.netmaskCidr.Err? ==> RealFault(f.netmaskCidr.error, text, robotId))
    && (f.dhcpRangeStart.Err? ==> RealFault(f.dhcpRangeStart.error, text, robotId))
    && (f.dhcpRangeEnd.Err? ==> RealFault(f.dhcpRangeEnd.error, text, robotId))
    && (f.dhcpLeaseTime.Err? ==> RealFault(f.dhcpLeaseTime.error, text, robotId))
    && (f.channel.Err? ==> RealFault(f.channel.error, text, robotId))
    && (f.country.Err? ==> RealFault(f.country.error, text, robotId))
  }

  lemma FieldsSay(text: string, robotId: RobotId)
    ensures var f := ReadFields(text, robotId);
            LoadWhenGood(text, robotId, f) && AreAsSaid(text, robotId, f) && FailForAFault(text, robotId, f)
  {
    DefaultRange();
    DefaultNetmask();
    DefaultTexts();
    SsidSays(text, robotId);
    PskSays(text, robotId);
    NumbersSay(text, robotId);
    Ipv4Says(text, robotId, "AP_ADDRESS", "192.168.50.1");
    Ipv4Says(text, robotId, "AP_NETMASK", "255.255.255.0");
    Ipv4Says(text, robotId, "AP_DHCP_RANGE_START", "192.168.50.10");
    Ipv4Says(text, robotId, "AP_DHCP_RANGE_END", "192.168.50.50");
    NonEmptySays(text, robotId, "AP_DHCP_LEASE_TIME", "12h");
    NonEmptySays(text, robotId, "AP_COUNTRY", "US");
  }

  lemma FieldsAreInForm(text: string, robotId: RobotId)
    ensures AreInForm(ReadFields(text, robotId))
  {
  }

  lemma AssembledSays(text: string, iface: string, robotId: RobotId, f: Fields)
    requires LoadWhenGood(text, robotId, f) && AreAsSaid(text, robotId, f) && FailForAFault(text, robotId, f)
    requires AreInForm(f)
    ensures var r := Assembled(iface, f);
            && (r.Ok? <==> Loadable(text, robotId))
            && (r.Ok? ==> Matches(r.value, text, robotId) && Loaded(r.value) && r.value.iface == iface)
            && (r.Err? ==> RealFault(r.error, text, robotId))
  {
  }

  /** A file loads if and only if every key in it that is set is set to something good, a missing file
      like an empty one; then every field is what its own key says, or that key's default. Otherwise the
      error names a fault that the file has. */
  lemma LoadsWhatItSays(file: Option<string>, iface: string, robotId: RobotId)
    ensures var r, text := LoadApConfig(file, iface, robotId), file.GetOr("");
            && (r.Ok? <==> Loadable(text, robotId))
            && (r.Ok? ==> Matches(r.value, text, robotId) && Loaded(r.value) && r.value.iface == iface)
            && (r.Err? ==> RealFault(r.error, text, robotId))
  {
    var text := file.GetOr("");
    FieldsSay(text, robotId);
    FieldsAreInForm(text, robotId);
    AssembledSays(text, iface, robotId, ReadFields(text, robotId));
  }

  /** What the fields of two files that load have in common, if the files agree on every other key. */
  predicate SameButFor(key: string, was: Config, now: Config) {
    && (key != "AP_SSID" && key != "AP_SSID_SUFFIX" ==> now.ssid == was.ssid)
    && (key != "AP_PSK" ==> now.psk == was.psk)
    && (key != "AP_ADDRESS" ==> now.address == was.address)
    && (key != "AP_NETMASK" ==> now.netmask == was.netmask)
    && (key != "AP_NETMASK_CIDR" ==> now.netmaskCidr == was.netmaskCidr)
    && (key != "AP_DHCP_RANGE_START" ==> now.dhcpRangeStart == was.dhcpRangeStart)
    && (key != "AP_DHCP_RANGE_END" ==> now.dhcpRangeEnd == was.dhcpRangeEnd)
    && (key != "AP_DHCP_LEASE_TIME" ==> now.dhcpLeaseTime == was.dhcpLeaseTime)
    && (key != "AP_CHANNEL" ==> now.channel == was.channel)
    && (key != "AP_COUNTRY" ==> now.country == was.country)
  }

  /** The two files agree on this key, unless it is the other one. */
  predicate AgreeOn(a: string, b: string, key: string, k: string) {
    k != key ==> ParseValue(b, k) == ParseValue(a, k)
  }

  const AP_KEYS := {"AP_SSID", "AP_SSID_SUFFIX", "AP_PSK", "AP_ADDRESS", "AP_NETMASK", "AP_NETMASK_CIDR",
                    "AP_DHCP_RANGE_START", "AP_DHCP_RANGE_END", "AP_DHCP_LEASE_TIME", "AP_CHANNEL", "AP_COUNTRY"}

  lemma ApKeysAreOk(k: string)
    requires k in AP_KEYS
    ensures KeyOk(k)
  {
  }

  lemma AgreeingFilesLoadAlike(a: string, b: string, key: string, robotId: RobotId, was: Config, now: Config)
    requires Matches(was, a, robotId) && Matches(now, b, robotId)
    requires forall k :: k in AP_KEYS ==> AgreeOn(a, b, key, k)
    ensures SameButFor(key, was, now)
  {
    assert AgreeOn(a, b, key, "AP_SSID") && AgreeOn(a, b, key, "AP_SSID_SUFFIX") && AgreeOn(a, b, key, "AP_PSK");
    assert AgreeOn(a, b, key, "AP_ADDRESS") && AgreeOn(a, b, key, "AP_NETMASK");
    assert AgreeOn(a, b, key, "AP_NETMASK_CIDR") && AgreeOn(a, b, key, "AP_DHCP_RANGE_START");
    assert AgreeOn(a, b, key, "AP_DHCP_RANGE_END") && AgreeOn(a, b, key, "AP_DHCP_LEASE_TIME");
    assert AgreeOn(a, b, key, "AP_CHANNEL") && AgreeOn(a, b, key, "AP_COUNTRY");
  }

  /** Setting one key changes no field but its own. */
  lemma OneKeyOneField(text: string, key: string, value: string, iface: string, robotId: RobotId)
    requires KeyOk(key) && NoNewline(value)
    requires LoadApConfig(Some(text), iface, robotId).Ok?
    requires LoadApConfig(Some(Upserted(Some(text), key, value)), iface, robotId).Ok?
    ensures SameButFor(key, LoadApConfig(Some(text), iface, robotId).value,
                       LoadApConfig(Some(Upserted(Some(text), key, value)), iface, robotId).value)
  {
    var after := Upserted(Some(text), key, value);
    LoadsWhatItSays(Some(text), iface, robotId);
    LoadsWhatItSays(Some(after), iface, robotId);
    forall k | k in AP_KEYS
      ensures AgreeOn(text, after, key, k)
    {
      ApKeysAreOk(k);
      if k != key {
        UpsertKeepsOthers(text, key, value, k);
      }
    }
    AgreeingFilesLoadAlike(text, after, key, robotId, LoadApConfig(Some(text), iface, robotId).value,
                           LoadApConfig(Some(after), iface, robotId).value);
  }

  method RenderHostapd(c: Config) returns (out: string)
    ensures out == Unlines(HostapdLines(c))
  {
    var open := OpenLines(c);
    UnlinesConcat(open, if c.psk.Some? then WpaLines(c.psk.value) else []);
    out := Unlines(open);
    if c.psk.Some? {
      out := out + Unlines(WpaLines(c.psk.value));
    }
  }

  function OpenLines(c: Config): seq<string> {
    ["interface=" + c.iface,
     "driver=nl80211",
     "ssid=" + c.ssid,
     "hw_mode=g",
     "channel=" + ToDecimal(c.channel),
     "country_code=" + c.country,
     "ieee80211n=1",
     "wmm_enabled=1",
     "",
     "auth_algs=1"]
  }

  function WpaLines(psk: Psk): seq<string> {
    ["wpa=2", "wpa_key_mgmt=WPA-PSK", "wpa_passphrase=" + psk, "rsn_pairwise=CCMP"]
  }

  /** One directive per line; the four WPA ones only for a network with a passphrase. */
  function HostapdLines(c: Config): seq<string> {
    OpenLines(c) + if c.psk.Some? then WpaLines(c.psk.value) else []
  }

  function DnsmasqLines(c: Config): seq<string> {
    ["interface=" + c.iface,
     "bind-interfaces",
     "dhcp-range=" + DhcpRange(c),
     "dhcp-option=3," + c.address,
     "dhcp-option=6," + c.address,
     "domain-needed",
     "bogus-priv"]
  }

  /** A text that stays one line when printed and read back. */
  predicate OneLine(s: string) {
    NoNewline(s) && !EndsWith(s, '\r')
  }

  lemma NoControlIsOneLine(s: string, before: string)
    requires NoControl(s) && OneLine(before)
    ensures OneLine(s) && OneLine(before + s)
  {
    assert IsControl('\n') && IsControl('\r');
  }

  lemma DecimalHasNoControl(n: nat)
    ensures NoControl(ToDecimal(n))
  {
    PrintedValue(n);
  }

  lemma OneLinesReadBack(lines: seq<string>)
    requires forall i :: 0 <= i < |lines| ==> OneLine(lines[i])
    ensures Lines(Unlines(lines)) == lines
  {
    LinesOfUnlines(lines);
    assert DropCrs(lines) == lines;
  }

  lemma FixedOpenLines()
    ensures OneLine("driver=nl80211") && OneLine("hw_mode=g") && OneLine("ieee80211n=1")
    ensures OneLine("wmm_enabled=1") && OneLine("") && OneLine("auth_algs=1")
  {
  }

  lemma FixedWpaLines()
    ensures OneLine("wpa=2") && OneLine("wpa_key_mgmt=WPA-PSK") && OneLine("rsn_pairwise=CCMP")
  {
  }

  lemma OpenOneLines(c: Config)
    requires Loaded(c) && OneLine(c.iface)
    ensures forall i :: 0 <= i < |OpenLines(c)| ==> OneLine(OpenLines(c)[i])
  {
    FixedOpenLines();
    NoControlIsOneLine(c.ssid, "ssid=");
    DecimalHasNoControl(c.channel);
    NoControlIsOneLine(ToDecimal(c.channel), "channel=");
    NoControlIsOneLine(c.country, "country_code=");
    OneLineAfter("interface=", c.iface);
  }

  lemma OneLineAfter(before: string, s: string)
    requires OneLine(before) && OneLine(s)
    ensures OneLine(before + s)
  {
  }

  lemma WpaOneLines(psk: Psk)
    ensures forall i :: 0 <= i < |WpaLines(psk)| ==> OneLine(WpaLines(psk)[i])
  {
    FixedWpaLines();
    NoControlIsOneLine(psk, "wpa_passphrase=");
  }

  lemma HostapdFileIsItsLines(c: Config)
    requires Loaded(c) && OneLine(c.iface)
    ensures Lines(Unlines(HostapdLines(c))) == HostapdLines(c)
  {
    OpenOneLines(c);
    if c.psk.Some? {
      WpaOneLines(c.psk.value);
    }
    OneLinesReadBack(HostapdLines(c));
  }

  predicate IsWpaLine(line: string) {
    StartsWith(line, "wpa")
  }

  /** The directives of an open network, one a line, and after them those of one with a passphrase. */
  ghost predicate HostapdDirectives(lines: seq<string>, c: Config) {
    && |lines| == (if SecurityOf(c) == Wpa2 then 14 else 10)
    && lines[0] == "interface=" + c.iface
    && lines[1] == "driver=nl80211"
    && lines[2] == "ssid=" + c.ssid
    && lines[3] == "hw_mode=g"
    && lines[4] == "channel=" + ToDecimal(c.channel)
    && lines[5] == "country_code=" + c.country
    && lines[6] == "ieee80211n=1" && lines[7] == "wmm_enabled=1" && lines[8] == ""
    && lines[9] == "auth_algs=1"
    && (c.psk.Some? ==>
          && lines[10] == "wpa=2" && lines[11] == "wpa_key_mgmt=WPA-PSK"
          && lines[12] == "wpa_passphrase=" + c.psk.value && lines[13] == "rsn_pairwise=CCMP")
  }

  lemma HostapdLinesAreDirectives(c: Config)
    ensures HostapdDirectives(HostapdLines(c), c)
  {
  }

  /** Read back line by line, the hostapd file of any configuration that loads has ten lines, or
      fourteen with a passphrase; each value stands whole on its own line, and the WPA lines are
      there exactly on a WPA2 network. So no value can add, remove or change a directive. */
  lemma HostapdFileReadsBack(c: Config)
    requires Loaded(c) && OneLine(c.iface)
    ensures var lines := Lines(Unlines(HostapdLines(c)));
            && HostapdDirectives(lines, c)
            && ((exists i :: 0 <= i < |lines| && IsWpaLine(lines[i])) <==> SecurityOf(c) == Wpa2)
  {
    HostapdFileIsItsLines(c);
    HostapdLinesAreDirectives(c);
    WpaLinesForPassphrase(c);
  }

  lemma WpaLinesForPassphrase(c: Config)
    ensures (exists i :: 0 <= i < |HostapdLines(c)| && IsWpaLine(HostapdLines(c)[i])) <==> c.psk.Some?
  {
    OpenLinesAreNotWpa(c);
    if c.psk.Some? {
      assert HostapdLines(c)[10] == WpaLines(c.psk.value)[0];
      assert IsWpaLine(HostapdLines(c)[10]);
    }
  }

  lemma OpenLinesAreNotWpa(c: Config)
    ensures forall i :: 0 <= i < |OpenLines(c)| ==> !IsWpaLine(OpenLines(c)[i])
  {
    forall i | 0 <= i < |OpenLines(c)|
      ensures !IsWpaLine(OpenLines(c)[i])
    {
      var line := OpenLines(c)[i];
      assert i == 7 ==> line[1] == 'm';
      assert i != 7 && line != "" ==> line[0] != 'w';
    }
  }

  lemma FixedDnsmasqLines()
    ensures OneLine("bind-interfaces") && OneLine("domain-needed") && OneLine("bogus-priv")
    ensures OneLine("dhcp-range=") && OneLine("dhcp-option=3,") && OneLine("dhcp-option=6,") && OneLine("interface=")
  {
  }

  function DhcpRange(c: Config): string {
    c.dhcpRangeStart + "," + c.dhcpRangeEnd + "," + c.netmask + "," + c.dhcpLeaseTime
  }

  lemma DnsmasqFileIsItsLines(c: Config)
    requires Loaded(c) && OneLine(c.iface)
    ensures Lines(Unlines(DnsmasqLines(c))) == DnsmasqLines(c)
  {
    FixedDnsmasqLines();
    Ipv4HasNoControl(c.address);
    Ipv4HasNoControl(c.netmask);
    Ipv4HasNoControl(c.dhcpRangeStart);
    Ipv4HasNoControl(c.dhcpRangeEnd);
    NoControlIsOneLine(DhcpRange(c), "dhcp-range=");
    NoControlIsOneLine(c.address, "dhcp-option=3,");
    NoControlIsOneLine(c.address, "dhcp-option=6,");
    OneLineAfter("interface=", c.iface);
    OneLinesReadBack(DnsmasqLines(c));
  }

  lemma OneByOne(a: string, b: string, c: string, rest: seq<string>)
    ensures [a] + ([b] + ([c] + rest)) == [a, b, c] + rest
  {
  }

  lemma CommasBetween(a: string, b: string, c: string, d: string)
    requires ',' !in a && ',' !in b && ',' !in c
    ensures Split(a + [','] + (b + [','] + (c + [','] + d)), ',') == [a, b, c] + Split(d, ',')
  {
    var third := c + [','] + d;
    var second := b + [','] + third;
    assert Split(third, ',') == [c] + Split(d, ',') by {
      SplitFirst(c, ',', d);
    }
    assert Split(second, ',') == [b] + Split(third, ',') by {
      SplitFirst(b, ',', third);
    }
    SplitFirst(a, ',', second);
    OneByOne(a, b, c, Split(d, ','));
  }

  lemma Regrouped(a: string, b: string, c: string, d: string)
    ensures a + "," + b + "," + c + "," + d == a + [','] + (b + [','] + (c + [','] + d))
  {
  }

  lemma RangeReadsBack(c: Config)
    requires Loaded(c)
    ensures Split(DhcpRange(c), ',') == [c.dhcpRangeStart, c.dhcpRangeEnd, c.netmask] + Split(c.dhcpLeaseTime, ',')
  {
    Ipv4HasNoControl(c.netmask);
    Ipv4HasNoControl(c.dhcpRangeStart);
    Ipv4HasNoControl(c.dhcpRangeEnd);
    Regrouped(c.dhcpRangeStart, c.dhcpRangeEnd, c.netmask, c.dhcpLeaseTime);
    CommasBetween(c.dhcpRangeStart, c.dhcpRangeEnd, c.netmask, c.dhcpLeaseTime);
  }

  /** Read back line by line, the dnsmasq file of any configuration that loads has seven lines. The range
      splits at its commas into its start, its end, the netmask and the lease time, and the robot names
      itself as the gateway and as the name server. */
  lemma DnsmasqFileReadsBack(c: Config)
    requires Loaded(c) && OneLine(c.iface)
    ensures var lines := Lines(Unlines(DnsmasqLines(c)));
            && |lines| == 7
            && lines[0] == "interface=" + c.iface && lines[1] == "bind-interfaces"
            && StartsWith(lines[2], "dhcp-range=")
            && Split(lines[2][11..], ',') ==
               [c.dhcpRangeStart, c.dhcpRangeEnd, c.netmask] + Split(c.dhcpLeaseTime, ',')
            && lines[3] == "dhcp-option=3," + c.address && lines[4] == "dhcp-option=6," + c.address
            && lines[5] == "domain-needed" && lines[6] == "bogus-priv"
  {
    DnsmasqFileIsItsLines(c);
    RangeReadsBack(c);
    assert DnsmasqLines(c)[2][11..] == DhcpRange(c);
  }

  lemma Ipv4HasNoControl(s: string)
    requires IsIpv4(s)
    ensures NoControl(s) && ',' !in s
  {
    var a, b, c, d := Ipv4IsDotted(s);
    PlainDecimal(a);
    PlainDecimal(b);
    PlainDecimal(c);
    PlainDecimal(d);
    assert forall x :: x in s ==> x in ToDecimal(a) || x in ToDecimal(b) || x in ToDecimal(c) || x in ToDecimal(d)
                                  || x == '.';
    assert forall i :: 0 <= i < |s| ==> s[i] in s;
  }

  lemma PlainDecimal(n: nat)
    ensures forall x :: x in ToDecimal(n) ==> IsDigit(x)
  {
    PrintedValue(n);
  }
}
