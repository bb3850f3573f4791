/** Robot identity: the rules for robot names and ROS domain numbers, and reading them back. */
module RobotIdentity {
  import opened Wrappers
  import opened Text
  import opened Numerals
  import opened Conf

  const ROBOT_ID_KEY := "ROBOT_ID"
  const ROS_DOMAIN_ID_KEY := "ROS_DOMAIN_ID"
  const ROS_DOMAIN_ID_MAX := 232

  predicate LabelChar(c: char) {
    IsLower(c) || IsDigit(c) || c == '-'
  }

  lemma LabelCharsExactly(c: char)
    ensures LabelChar(c) <==> c in "abcdefghijklmnopqrstuvwxyz0123456789-"
  {
  }

  /** A host name label as in section 2.1 of RFC 1123, in lower case. */
  predicate IsRobotId(id: string) {
    && 1 <= |id| <= 63
    && (forall i :: 0 <= i < |id| ==> LabelChar(id[i]))
    && id[0] != '-' && id[|id| - 1] != '-'
  }

  type RobotId = id: string | IsRobotId(id) witness "a"

  type RosDomainId = n: nat | n <= ROS_DOMAIN_ID_MAX

  datatype RobotIdError =
    | Lowercase(found: char, pos: nat)
    | InvalidChar(found: char, pos: nat)
    | InvalidLength(length: nat)
    | StartsWithHyphen
    | EndsWithHyphen

  /** The first character that is not allowed, uppercase being reported as such. */
  function FirstBadChar(id: string, pos: nat): (e: Option<RobotIdError>)
    requires pos <= |id|
    ensures e == None <==> forall i :: pos <= i < |id| ==> LabelChar(id[i])
    ensures e.Some? ==>
              && (e.value.Lowercase? || e.value.InvalidChar?)
              && pos <= e.value.pos < |id| && id[e.value.pos] == e.value.found
              && (e.value.Lowercase? <==> IsUpper(e.value.found))
              && !LabelChar(e.value.found)
              && forall i :: pos <= i < e.value.pos ==> LabelChar(id[i])
    decreases |id| - pos
  {
    if pos == |id| then None
    else if IsUpper(id[pos]) then Some(Lowercase(id[pos], pos))
    else if !IsLower(id[pos]) && !IsDigit(id[pos]) && id[pos] != '-' then Some(InvalidChar(id[pos], pos))
    else FirstBadChar(id, pos + 1)
  }

  /** Accepts exactly the labels above. The first bad character is reported before any other fault;
      lengths are counted in bytes, which by then are characters. */
  function NewRobotId(id: string): (r: Result<RobotId, RobotIdError>)
    ensures r.Ok? <==> IsRobotId(id)
    ensures r.Ok? ==> r.value == id
    ensures r.Err? ==>
              match r.error
              case Lowercase(found, pos) => pos < |id| && id[pos] == found && IsUpper(found)
              case InvalidChar(found, pos) => pos < |id| && id[pos] == found && !LabelChar(found) && !IsUpper(found)
              case InvalidLength(length) => length == |id| && (length == 0 || length > 63)
              case StartsWithHyphen => 1 <= |id| <= 63 && id[0] == '-'
              case EndsWithHyphen => 1 <= |id| <= 63 && id[0] != '-' && id[|id| - 1] == '-'
  {
    var bad := FirstBadChar(id, 0);
    if bad.Some? then Err(bad.value)
    else if id == "" || ByteLength(id) > 63 then Err(InvalidLength(ByteLength(id)))
    else if id[0] == '-' then Err(StartsWithHyphen)
    else if id[|id| - 1] == '-' then Err(EndsWithHyphen)
    else Ok(id)
  }

  datatype DomainError = OutOfRange(value: nat) | NotAnInteger(text: string)

  function NewDomainId(value: nat): Result<RosDomainId, DomainError> {
    if value > ROS_DOMAIN_ID_MAX then Err(OutOfRange(value)) else Ok(value)
  }

  /** Parsed as an 8-bit number first, so 256 and above are not integers. */
  function ParseDomainId(s: string): Result<RosDomainId, DomainError> {
    match ParseUnsigned(Trim(s), 255)
    case None => Err(NotAnInteger(s))
    case Some(value) => NewDomainId(value)
  }

  datatype RobotConfig = RobotConfig(robotId: RobotId, rosDomainId: RosDomainId)

  /** What robot.conf says, key by key; a key that is missing or has no valid value is defaulted. */
  function Load(text: Option<string>, defaults: RobotConfig): RobotConfig {
    match text
    case None => defaults
    case Some(t) =>
      var robotId :=
        match ParseValue(t, ROBOT_ID_KEY)
        case None => defaults.robotId
        case Some(raw) => (match NewRobotId(raw) case Ok(id) => id case Err(_) => defaults.robotId);
      var rosDomainId :=
        match ParseValue(t, ROS_DOMAIN_ID_KEY)
        case None => defaults.rosDomainId
        case Some(raw) => (match ParseDomainId(raw) case Ok(n) => n case Err(_) => defaults.rosDomainId);
      RobotConfig(robotId, rosDomainId)
  }

  /** A valid name reads back as itself. */
  lemma RobotIdReadsBack(id: RobotId)
    ensures NoNewline(id) && StripQuotes(Trim(id)) == id
  {
    TrimOfTrimmed(id);
  }

  /** A printed number reads back as that number. */
  lemma DomainIdReadsBack(n: RosDomainId)
    ensures NoNewline(ToDecimal(n)) && ParseDomainId(StripQuotes(Trim(ToDecimal(n)))) == Ok(n)
  {
    PrintedValue(n);
    var text := ToDecimal(n);
    assert IsDigit(text[0]) && IsDigit(text[|text| - 1]);
    TrimOfTrimmed(text);
    ParseUndoesPrint(n, 255);
  }
}
