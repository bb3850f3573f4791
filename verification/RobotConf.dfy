/** robot.conf as a map that survives any number of updates. */
module RobotConf {
  import opened Wrappers
  import opened Text
  import opened Numerals
  import opened Conf
  import opened ConfLaws
  import opened RobotIdentity

  datatype Update = SetRobotId(id: RobotId) | SetDomainId(n: RosDomainId)

  /** The text after one update. */
  function Updated(text: Option<string>, u: Update): string {
    match u
    case SetRobotId(id) => Upserted(text, ROBOT_ID_KEY, id)
    case SetDomainId(n) => Upserted(text, ROS_DOMAIN_ID_KEY, ToDecimal(n))
  }

  function UpdatedAll(text: Option<string>, us: seq<Update>): Option<string> {
    if us == [] then text else Some(Updated(UpdatedAll(text, us[..|us| - 1]), us[|us| - 1]))
  }

  function LastRobotId(us: seq<Update>): Option<RobotId> {
    if us == [] then None
    else if us[|us| - 1].SetRobotId? then Some(us[|us| - 1].id)
    else LastRobotId(us[..|us| - 1])
  }

  function LastDomainId(us: seq<Update>): Option<RosDomainId> {
    if us == [] then None
    else if us[|us| - 1].SetDomainId? then Some(us[|us| - 1].n)
    else LastDomainId(us[..|us| - 1])
  }

  predicate ShadowedIn(text: Option<string>, key: string) {
    text.Some? && Shadowed(text.value, key)
  }

  lemma KeysAreOk()
    ensures KeyOk(ROBOT_ID_KEY) && KeyOk(ROS_DOMAIN_ID_KEY) && ROBOT_ID_KEY != ROS_DOMAIN_ID_KEY
  {
    assert ROBOT_ID_KEY[1] != ROS_DOMAIN_ID_KEY[2];
    assert |ROBOT_ID_KEY| != |ROS_DOMAIN_ID_KEY|;
  }

  function KeyOf(u: Update): string {
    if u.SetRobotId? then ROBOT_ID_KEY else ROS_DOMAIN_ID_KEY
  }

  function OtherKey(u: Update): string {
    if u.SetRobotId? then ROS_DOMAIN_ID_KEY else ROBOT_ID_KEY
  }

  function ValueOf(u: Update): string {
    match u
    case SetRobotId(id) => id
    case SetDomainId(n) => ToDecimal(n)
  }

  function Raw(text: Option<string>, key: string): Option<string> {
    if text == None then None else ParseValue(text.value, key)
  }

  // What a file says, by what the reader reads and the rules for the two values.

  /** The name in the file if it is a valid one; otherwise, and without a file, the default. */
  predicate SaysRobotId(text: Option<string>, default: RobotId, id: RobotId) {
    var given := if text == None then None else ParseValue(text.value, "ROBOT_ID");
    id == if given.Some? && IsRobotId(given.value) then given.value else default
  }

  /** The number in the file if it is one from 0 to 232, whatever whitespace is around it; otherwise, and
      without a file, the default. */
  ghost predicate SaysDomainId(text: Option<string>, default: RosDomainId, id: RosDomainId) {
    var given := if text == None then None else ParseValue(text.value, "ROS_DOMAIN_ID");
    if given.Some? && exists n: nat :: n <= 232 && Denotes(Trim(given.value), n) then Denotes(Trim(given.value), id)
    else id == default
  }

  lemma DomainIdExactly(raw: string, n: nat)
    ensures ParseDomainId(raw).Ok? && ParseDomainId(raw).value == n <==> n <= 232 && Denotes(Trim(raw), n)
  {
    ParsesWhatIsDenoted(Trim(raw), 255, n);
  }

  /** What is loaded is what the file says, key by key. */
  lemma LoadsWhatItSays(text: Option<string>, defaults: RobotConfig)
    ensures SaysRobotId(text, defaults.robotId, Load(text, defaults).robotId)
    ensures SaysDomainId(text, defaults.rosDomainId, Load(text, defaults).rosDomainId)
  {
    if text.Some? && ParseValue(text.value, ROS_DOMAIN_ID_KEY).Some? {
      var raw := ParseValue(text.value, ROS_DOMAIN_ID_KEY).value;
      forall n: nat
        ensures ParseDomainId(raw).Ok? && ParseDomainId(raw).value == n <==> n <= 232 && Denotes(Trim(raw), n)
      {
        DomainIdExactly(raw, n);
      }
    }
  }

  /** What both keys read after one update. */
  lemma UpdateReads(text: Option<string>, u: Update)
    ensures var now := Some(Updated(text, u));
            && Raw(now, KeyOf(u)) ==
               (if ShadowedIn(text, KeyOf(u)) then Raw(text, KeyOf(u)) else Some(StripQuotes(Trim(ValueOf(u)))))
            && Raw(now, OtherKey(u)) == Raw(text, OtherKey(u))
            && ShadowedIn(now, KeyOf(u)) == ShadowedIn(text, KeyOf(u))
            && ShadowedIn(now, OtherKey(u)) == ShadowedIn(text, OtherKey(u))
  {
    KeysAreOk();
    match u {
      case SetRobotId(id) => RobotIdReadsBack(id);
      case SetDomainId(n) => DomainIdReadsBack(n);
    }
    assert Updated(text, u) == Upserted(text, KeyOf(u), ValueOf(u));
    match text {
      case None =>
        WriteToNothingReads(KeyOf(u), ValueOf(u), KeyOf(u));
        WriteToNothingReads(KeyOf(u), ValueOf(u), OtherKey(u));
      case Some(t) =>
        UpsertReads(t, KeyOf(u), ValueOf(u));
        UpsertKeepsOthers(t, KeyOf(u), ValueOf(u), OtherKey(u));
    }
  }

  /** One update is a map update on what is loaded, for every file: an unshadowed key reads the new
      value, and everything else reads as before. */
  lemma UpdateIsMapUpdate(text: Option<string>, u: Update, defaults: RobotConfig)
    ensures var was, now := Load(text, defaults), Load(Some(Updated(text, u)), defaults);
            match u
            case SetRobotId(id) =>
              now == was.(robotId := if ShadowedIn(text, ROBOT_ID_KEY) then was.robotId else id)
            case SetDomainId(n) =>
              now == was.(rosDomainId := if ShadowedIn(text, ROS_DOMAIN_ID_KEY) then was.rosDomainId else n)
    ensures ShadowedIn(Some(Updated(text, u)), ROBOT_ID_KEY) == ShadowedIn(text, ROBOT_ID_KEY)
    ensures ShadowedIn(Some(Updated(text, u)), ROS_DOMAIN_ID_KEY) == ShadowedIn(text, ROS_DOMAIN_ID_KEY)
  {
    UpdateReads(text, u);
    match u {
      case SetRobotId(id) => RobotIdReadsBack(id);
      case SetDomainId(n) => DomainIdReadsBack(n);
    }
  }

  lemma {:induction false} UpdatesAreMapUpdates(text: Option<string>, us: seq<Update>, defaults: RobotConfig)
    ensures var was, now := Load(text, defaults), Load(UpdatedAll(text, us), defaults);
            && now.robotId == (if ShadowedIn(text, ROBOT_ID_KEY) then was.robotId
                               else LastRobotId(us).GetOr(was.robotId))
            && now.rosDomainId == (if ShadowedIn(text, ROS_DOMAIN_ID_KEY) then was.rosDomainId
                                   else LastDomainId(us).GetOr(was.rosDomainId))
    ensures ShadowedIn(UpdatedAll(text, us), ROBOT_ID_KEY) == ShadowedIn(text, ROBOT_ID_KEY)
    ensures ShadowedIn(UpdatedAll(text, us), ROS_DOMAIN_ID_KEY) == ShadowedIn(text, ROS_DOMAIN_ID_KEY)
  {
    if us != [] {
      var init, last := us[..|us| - 1], us[|us| - 1];
      UpdatesAreMapUpdates(text, init, defaults);
      UpdateIsMapUpdate(UpdatedAll(text, init), last, defaults);
    }
  }

  /** After any sequence of updates of any file, or of none, each key loads the last value set for it. A
      key that was never set, or that was shadowed at first, loads what the original file says: its
      value there if that is a valid one, and otherwise the default. Updates never change what is
      shadowed. */
  lemma RobotConfIsAMap(text: Option<string>, us: seq<Update>, defaults: RobotConfig)
    ensures var id := Load(UpdatedAll(text, us), defaults).robotId;
            if ShadowedIn(text, "ROBOT_ID") || LastRobotId(us) == None then SaysRobotId(text, defaults.robotId, id)
            else LastRobotId(us) == Some(id)
    ensures var n := Load(UpdatedAll(text, us), defaults).rosDomainId;
            if ShadowedIn(text, "ROS_DOMAIN_ID") || LastDomainId(us) == None
            then SaysDomainId(text, defaults.rosDomainId, n)
            else LastDomainId(us) == Some(n)
    ensures ShadowedIn(UpdatedAll(text, us), "ROBOT_ID") == ShadowedIn(text, "ROBOT_ID")
    ensures ShadowedIn(UpdatedAll(text, us), "ROS_DOMAIN_ID") == ShadowedIn(text, "ROS_DOMAIN_ID")
  {
    LoadsWhatItSays(text, defaults);
    UpdatesAreMapUpdates(text, us, defaults);
  }
}
