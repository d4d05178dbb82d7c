/**
 * The UI test harness: a single mutable page state driven by button clicks.
 *
 * The DOM, browser storage and the wall clock are not modelled; what is left
 * is the `state` record (the class `UiState`), its transitions (methods that
 * update the record in place) and the rules that derive what the page shows
 * and which controls are enabled (functions of the record).
 */
module UiTestMode {
  import opened Wrappers

  // ---------------------------------------------------------------------------
  // Values
  // ---------------------------------------------------------------------------

  /** A flat vehicle snapshot, as held by a scenario fixture and by `state.status`. */
  datatype Status = Status(
    fuelPercent: int,
    isRunning: bool,
    isLocked: bool,
    climateOn: bool,
    tirePressureLow: bool,
    odometerKm: int,
    rangeKm: int,
    lastUpdated: string)

  /** A canned scenario: its key, its button label and its status fixture. */
  datatype Scenario = Scenario(key: string, displayName: string, status: Status)

  datatype Vehicle = Vehicle(nickName: string, modelYear: string, modelName: string)

  /** The CSS class of an event-log entry. */
  datatype EventClass = Ok | Warn | Error

  /** One entry of the event log. */
  datatype Event = Event(msg: string, cls: EventClass, when: string)

  /** One reading of the clock, in the two renderings the harness uses. */
  datatype Timestamp = Timestamp(iso: string, localTime: string)

  /** The saved setup: the form's entries, by field name. */
  type Setup = map<string, string>

  /** The eight vehicle actions offered as buttons. */
  datatype Action = Refresh | Lock | Unlock | EngineOn | EngineOff | HornLights | ClimateOn | ClimateOff

  /** The status flags that an action may set. */
  datatype Flag = Locked | Running | Climate

  /** Which controls of the page are enabled. */
  datatype Controls = Controls(actions: bool, scenarios: bool, login: bool, logout: bool)

  datatype DistanceUnit = Km | Mi

  /** The value column of a summary row; numbers are kept unformatted. */
  datatype Cell = Text(text: string) | Percent(percent: int) | Distance(amount: int, unit: DistanceUnit)

  datatype Row = Row(term: string, value: Cell)

  /** The keys of the action buttons, in the order they are shown. */
  const ActionButtonKeys := ["refresh", "lock", "unlock", "engineOn", "engineOff", "hornLights",
                             "climateOn", "climateOff"]

  /** The event log keeps at most this many entries. */
  const MaxEvents := 10

  const LoginRequired := Row("Status", Text("Login required to view app data"))

  const SummaryTerms := ["Vehicle", "Model", "Fuel Level", "Estimated Range", "Engine Running",
                          "Doors Locked", "Climate", "Low Tire Pressure", "Odometer", "Last Updated"]

  /** The four scenario fixtures; their `lastUpdated` is the page-load time. */
  function Fixtures(bootIso: string): (r: seq<Scenario>)
    ensures |r| == 4 && KeysDistinct(r)
    ensures forall i :: 0 <= i < |r| ==> r[i].status.lastUpdated == bootIso
  {
    [ Scenario("parked", "Parked", Status(58, false, true, false, false, 38412, 421, bootIso)),
      Scenario("driving", "Driving", Status(52, true, false, true, false, 38436, 388, bootIso)),
      Scenario("lowFuel", "Low Fuel", Status(9, false, true, false, true, 38890, 56, bootIso)),
      Scenario("valet", "Valet", Status(47, false, false, false, false, 39010, 335, bootIso)) ]
  }

  predicate KeysDistinct(scs: seq<Scenario>) {
    forall i, j :: 0 <= i < j < |scs| ==> scs[i].key != scs[j].key
  }

  /** `scenarios.find(item => item.key === key)`: the first scenario with that key. */
  function FindScenario(scs: seq<Scenario>, key: string): (r: Option<Scenario>)
    ensures r.None? <==> forall i :: 0 <= i < |scs| ==> scs[i].key != key
    ensures r.Some? ==> exists i :: 0 <= i < |scs| && scs[i] == r.value && scs[i].key == key &&
                                    forall j :: 0 <= j < i ==> scs[j].key != key
  {
    if scs == [] then None
    else if scs[0].key == key then Some(scs[0])
    else
      var r := FindScenario(scs[1..], key);
      assert r.Some? ==> exists i :: 1 <= i < |scs| && scs[i] == r.value && scs[i].key == key &&
                                     forall j :: 0 <= j < i ==> scs[j].key != key by {
        if r.Some? {
          var i :| 0 <= i < |scs| - 1 && scs[1..][i] == r.value && scs[1..][i].key == key &&
                   forall j :: 0 <= j < i ==> scs[1..][j].key != key;
          assert scs[i + 1] == r.value && forall j :: 0 <= j < i + 1 ==> scs[j].key != key;
        }
      }
      r
  }

  /** The keys of the scenarios. */
  function ScenarioKeys(scs: seq<Scenario>): set<string> {
    set i | 0 <= i < |scs| :: scs[i].key
  }

  /** With distinct keys, looking up the key of a scenario finds that scenario. */
  lemma FindByOwnKey(scs: seq<Scenario>, i: nat)
    requires KeysDistinct(scs) && i < |scs|
    ensures FindScenario(scs, scs[i].key) == Some(scs[i])
  {
  }

  /** The fixtures have distinct keys, and each of them is found by its key. */
  lemma FixturesFound(bootIso: string, i: nat)
    requires i < |Fixtures(bootIso)|
    ensures KeysDistinct(Fixtures(bootIso))
    ensures FindScenario(Fixtures(bootIso), Fixtures(bootIso)[i].key) == Some(Fixtures(bootIso)[i])
  {
  }

  /** The `parked` scenario shows 58% fuel, locked doors, engine and climate off. */
  lemma ParkedFixture(bootIso: string)
    ensures FindScenario(Fixtures(bootIso), "parked").Some?
    ensures var s := FindScenario(Fixtures(bootIso), "parked").value.status;
      s.fuelPercent == 58 && s.isLocked && !s.isRunning && !s.climateOn
  {
  }

  // ---------------------------------------------------------------------------
  // The event log
  // ---------------------------------------------------------------------------

  /** `events.unshift(e)` followed by `events.slice(0, 10)`. */
  function PushEvent(log: seq<Event>, e: Event): (r: seq<Event>)
    ensures |r| == if |log| < MaxEvents then |log| + 1 else MaxEvents
    ensures r[0] == e
    ensures forall i :: 1 <= i < |r| ==> r[i] == log[i - 1]
  {
    Newest([e] + log)
  }

  /** The newest `MaxEvents` entries of a newest-first log. */
  function Newest(log: seq<Event>): (r: seq<Event>)
    ensures |r| == if |log| < MaxEvents then |log| else MaxEvents
    ensures r == log[..|r|]
  {
    if |log| <= MaxEvents then log else log[..MaxEvents]
  }

  function Reverse(s: seq<Event>): seq<Event> {
    if s == [] then [] else Reverse(s[1..]) + [s[0]]
  }

  /** The log after adding the entries of `es`, in order, one `addEvent` at a time. */
  function PushAll(log: seq<Event>, es: seq<Event>): seq<Event>
    decreases |es|
  {
    if es == [] then log else PushAll(PushEvent(log, es[0]), es[1..])
  }

  lemma NewestAbsorbs(x: seq<Event>, y: seq<Event>)
    ensures Newest(x + Newest(y)) == Newest(x + y)
  {
  }

  /**
   * Adding a batch of entries equals putting them, newest first, in front of
   * the old log and keeping the newest ten.
   */
  lemma {:induction false} PushAllIsNewest(log: seq<Event>, es: seq<Event>)
    requires |log| <= MaxEvents
    ensures PushAll(log, es) == Newest(Reverse(es) + log)
    decreases |es|
  {
    if es != [] {
      var e, rest := es[0], es[1..];
      assert PushEvent(log, e) == Newest([e] + log);
      PushAllIsNewest(PushEvent(log, e), rest);
      NewestAbsorbs(Reverse(rest), [e] + log);
      assert Reverse(es) + log == Reverse(rest) + ([e] + log);
    }
  }

  lemma {:induction false} ReverseLength(s: seq<Event>)
    ensures |Reverse(s)| == |s|
  {
    if s != [] { ReverseLength(s[1..]); }
  }

  /** After ten or more new entries, nothing of the previous log survives. */
  lemma OldEntriesForgotten(log: seq<Event>, es: seq<Event>)
    requires |log| <= MaxEvents && |es| >= MaxEvents
    ensures PushAll(log, es) == PushAll([], es)
  {
    PushAllIsNewest(log, es);
    PushAllIsNewest([], es);
    ReverseLength(es);
    assert (Reverse(es) + log)[..MaxEvents] == Reverse(es)[..MaxEvents];
    assert Reverse(es) + [] == Reverse(es);
  }

  // ---------------------------------------------------------------------------
  // Setup
  // ---------------------------------------------------------------------------

  /** `state.setup?.name`, with a missing setup or field read as the empty (falsy) string. */
  function Field(setup: Option<Setup>, name: string): string {
    if setup.Some? && name in setup.value then setup.value[name] else ""
  }

  /** `isConfigured()`: a setup with non-empty username, password and PIN. */
  predicate Configured(setup: Option<Setup>)
    ensures Configured(setup) <==>
      setup.Some? && forall k :: k in ["username", "password", "pin"] ==> k in setup.value && setup.value[k] != ""
  {
    Field(setup, "username") != "" && Field(setup, "password") != "" && Field(setup, "pin") != ""
  }

  /** The vehicle `loadScenario` installs: a Tucson for `hyundai` (exact spelling), otherwise a Sportage. */
  function VehicleFor(setup: Option<Setup>): (v: Vehicle)
    ensures v.nickName == "Family SUV" && v.modelYear == "2024"
    ensures v.modelName == "Tucson" <==> setup.Some? && "manufacturer" in setup.value && setup.value["manufacturer"] == "hyundai"
    ensures v.modelName == "Tucson" || v.modelName == "Sportage"
  {
    if Field(setup, "manufacturer") == "hyundai"
    then Vehicle("Family SUV", "2024", "Tucson")
    else Vehicle("Family SUV", "2024", "Sportage")
  }

  /** Unlike the connector validator, the vehicle choice is case-sensitive. */
  lemma VehicleChoiceIsCaseSensitive()
    ensures VehicleFor(Some(map["manufacturer" := "Hyundai"])).modelName == "Sportage"
    ensures VehicleFor(Some(map["manufacturer" := "hyundai"])).modelName == "Tucson"
    ensures VehicleFor(None).modelName == "Sportage"
  {
  }

  // ---------------------------------------------------------------------------
  // Actions
  // ---------------------------------------------------------------------------

  /** The key an action button passes to `handleAction`. */
  function KeyOf(a: Action): (key: string)
    ensures key in ActionButtonKeys
  {
    match a
    case Refresh => "refresh"
    case Lock => "lock"
    case Unlock => "unlock"
    case EngineOn => "engineOn"
    case EngineOff => "engineOff"
    case HornLights => "hornLights"
    case ClimateOn => "climateOn"
    case ClimateOff => "climateOff"
  }

  /** The `switch` of `handleAction`: which action a key selects, if any. */
  function ActionOfKey(key: string): (r: Option<Action>)
    ensures forall a: Action :: r == Some(a) <==> key == KeyOf(a)
    ensures r.Some? <==> key in ActionButtonKeys
  {
    match key
    case "refresh" => Some(Refresh)
    case "lock" => Some(Lock)
    case "unlock" => Some(Unlock)
    case "engineOn" => Some(EngineOn)
    case "engineOff" => Some(EngineOff)
    case "hornLights" => Some(HornLights)
    case "climateOn" => Some(ClimateOn)
    case "climateOff" => Some(ClimateOff)
    case _ => None
  }

  function FlagValue(s: Status, f: Flag): bool {
    match f
    case Locked => s.isLocked
    case Running => s.isRunning
    case Climate => s.climateOn
  }

  /** The flag an action sets and the value it sets it to; none for refresh and horn. */
  function Effect(a: Action): Option<(Flag, bool)> {
    match a
    case Lock => Some((Locked, true))
    case Unlock => Some((Locked, false))
    case EngineOn => Some((Running, true))
    case EngineOff => Some((Running, false))
    case ClimateOn => Some((Climate, true))
    case ClimateOff => Some((Climate, false))
    case Refresh => None
    case HornLights => None
  }

  /** Every field but the three flags and `lastUpdated` is equal. */
  predicate SameReadings(s: Status, t: Status) {
    s.fuelPercent == t.fuelPercent && s.tirePressureLow == t.tirePressureLow &&
    s.odometerKm == t.odometerKm && s.rangeKm == t.rangeKm
  }

  /**
   * What an action does to the status, before the timestamp is touched: it
   * sets the one flag its effect names and leaves every other field alone.
   */
  function ApplyAction(s: Status, a: Action): (r: Status)
    ensures SameReadings(s, r) && r.lastUpdated == s.lastUpdated
    ensures forall f: Flag :: FlagValue(r, f) == if Effect(a).Some? && Effect(a).value.0 == f
                                                 then Effect(a).value.1 else FlagValue(s, f)
    ensures Effect(a).None? ==> r == s
  {
    match Effect(a)
    case None => s
    case Some((Locked, v)) => s.(isLocked := v)
    case Some((Running, v)) => s.(isRunning := v)
    case Some((Climate, v)) => s.(climateOn := v)
  }

  /** The log entry an action adds: `warn` for the three "off" actions, otherwise `ok`. */
  function ActionEvent(a: Action, now: Timestamp): (e: Event)
    ensures e.when == now.localTime
    ensures e.cls == Warn <==> a == Unlock || a == EngineOff || a == ClimateOff
    ensures e.cls != Error
  {
    match a
    case Refresh => Event("Status refresh simulated using current scenario data", Ok, now.localTime)
    case Lock => Event("Vehicle locked", Ok, now.localTime)
    case Unlock => Event("Vehicle unlocked", Warn, now.localTime)
    case EngineOn => Event("Engine started", Ok, now.localTime)
    case EngineOff => Event("Engine stopped", Warn, now.localTime)
    case HornLights => Event("Honk and lights triggered", Ok, now.localTime)
    case ClimateOn => Event("Climate started", Ok, now.localTime)
    case ClimateOff => Event("Climate stopped", Warn, now.localTime)
  }

  /** `touchStatus`: the status with `lastUpdated` set to the current time. */
  function Touched(s: Status, now: Timestamp): (r: Status)
    ensures SameReadings(s, r) && r.lastUpdated == now.iso
    ensures forall f: Flag :: FlagValue(r, f) == FlagValue(s, f)
  {
    s.(lastUpdated := now.iso)
  }

  /** Each of the six flag actions sets its flag as named, whatever its old value. */
  lemma FlagActions(s: Status)
    ensures ApplyAction(s, Lock).isLocked && !ApplyAction(s, Unlock).isLocked
    ensures ApplyAction(s, EngineOn).isRunning && !ApplyAction(s, EngineOff).isRunning
    ensures ApplyAction(s, ClimateOn).climateOn && !ApplyAction(s, ClimateOff).climateOn
    ensures ApplyAction(s, Lock).isRunning == s.isRunning && ApplyAction(s, Lock).climateOn == s.climateOn
  {
  }

  /** Applying an action twice is the same as applying it once. */
  lemma ActionIdempotent(s: Status, a: Action)
    ensures ApplyAction(ApplyAction(s, a), a) == ApplyAction(s, a)
  {
  }

  // ---------------------------------------------------------------------------
  // Derived view
  // ---------------------------------------------------------------------------

  /** `fmtBool`. */
  function FmtBool(b: bool): (r: string)
    ensures r == "Yes" || r == "No"
    ensures r == "Yes" <==> b
  {
    if b then "Yes" else "No"
  }

  /** `x || fallback` on a string. */
  function OrElse(x: string, fallback: string): (r: string)
    ensures x != "" ==> r == x
    ensures x == "" ==> r == fallback
  {
    if x == "" then fallback else x
  }

  predicate IsWhitespace(c: char) {
    c == ' ' || c == '\t' || c == '\n' || c == '\r'
  }

  function TrimStart(s: string): string {
    if s != [] && IsWhitespace(s[0]) then TrimStart(s[1..]) else s
  }

  function TrimEnd(s: string): string {
    if s != [] && IsWhitespace(s[|s| - 1]) then TrimEnd(s[..|s| - 1]) else s
  }

  /** `String.prototype.trim` for the whitespace characters above. */
  function Trim(s: string): (r: string)
    ensures |r| <= |s|
    ensures r == [] || (!IsWhitespace(r[0]) && !IsWhitespace(r[|r| - 1]))
  {
    TrimStartSpec(s);
    TrimEndSpec(TrimStart(s));
    TrimEnd(TrimStart(s))
  }

  /** Trimming the start drops exactly the leading whitespace. */
  lemma {:induction false} TrimStartSpec(s: string)
    ensures var r := TrimStart(s);
      |r| <= |s| && r == s[|s| - |r|..] &&
      (forall i :: 0 <= i < |s| - |r| ==> IsWhitespace(s[i])) &&
      (r == [] || !IsWhitespace(r[0]))
  {
    if s != [] && IsWhitespace(s[0]) {
      var t := s[1..];
      TrimStartSpec(t);
      var r := TrimStart(t);
      assert TrimStart(s) == r;
      assert t[|t| - |r|..] == s[|s| - |r|..];
    }
  }

  /** Trimming the end drops exactly the trailing whitespace. */
  lemma {:induction false} TrimEndSpec(s: string)
    ensures var r := TrimEnd(s);
      |r| <= |s| && r == s[..|r|] &&
      (forall i :: |r| <= i < |s| ==> IsWhitespace(s[i])) &&
      (r == [] || !IsWhitespace(r[|r| - 1]))
  {
    if s != [] && IsWhitespace(s[|s| - 1]) {
      var t := s[..|s| - 1];
      TrimEndSpec(t);
      var r := TrimEnd(t);
      assert TrimEnd(s) == r;
      assert t[..|r|] == s[..|r|];
    }
  }

  /**
   * `Trim` keeps a contiguous part of its input, drops only whitespace, and
   * leaves no whitespace at either end.
   */
  lemma TrimSpec(s: string)
    ensures var r := Trim(s);
      exists lo, hi :: 0 <= lo <= hi <= |s| && r == s[lo..hi] &&
        (forall i :: 0 <= i < lo ==> IsWhitespace(s[i])) &&
        (forall i :: hi <= i < |s| ==> IsWhitespace(s[i]))
    ensures Trim(s) == [] || (!IsWhitespace(Trim(s)[0]) && !IsWhitespace(Trim(s)[|Trim(s)| - 1]))
  {
    var t := TrimStart(s);
    TrimStartSpec(s);
    TrimEndSpec(t);
    var r := TrimEnd(t);
    var lo := |s| - |t|;
    var hi := lo + |r|;
    assert r == s[lo..hi];
    assert forall i :: hi <= i < |s| ==> s[i] == t[i - lo];
  }

  /** The distance unit: miles iff the setup's `distanceUnit` is exactly `mi`. */
  function UnitFor(setup: Option<Setup>): (u: DistanceUnit)
    ensures u == Mi <==> setup.Some? && "distanceUnit" in setup.value && setup.value["distanceUnit"] == "mi"
  {
    if Field(setup, "distanceUnit") == "mi" then Mi else Km
  }

  /** `summaryRows()`: nothing without a status, otherwise the ten labelled rows. */
  function SummaryRows(status: Option<Status>, vehicle: Vehicle, setup: Option<Setup>): (rows: seq<Row>)
    ensures status.None? ==> rows == []
    ensures status.Some? ==>
      |rows| == |SummaryTerms| && (forall i :: 0 <= i < |rows| ==> rows[i].term == SummaryTerms[i])
  {
    match status
    case None => []
    case Some(s) =>
      [ Row("Vehicle", Text(OrElse(vehicle.nickName, "Unknown"))),
        Row("Model", Text(Trim(OrElse(vehicle.modelYear, "") + " " + OrElse(vehicle.modelName, "")))),
        Row("Fuel Level", Percent(s.fuelPercent)),
        Row("Estimated Range", Distance(s.rangeKm, UnitFor(setup))),
        Row("Engine Running", Text(FmtBool(s.isRunning))),
        Row("Doors Locked", Text(FmtBool(s.isLocked))),
        Row("Climate", Text(FmtBool(s.climateOn))),
        Row("Low Tire Pressure", Text(FmtBool(s.tirePressureLow))),
        Row("Odometer", Distance(s.odometerKm, UnitFor(setup))),
        Row("Last Updated", Text(OrElse(s.lastUpdated, "N/A"))) ]
  }

  /** The vehicle rows and the timestamp row of the summary. */
  lemma SummaryVehicleCells(s: Status, vehicle: Vehicle, setup: Option<Setup>)
    ensures SummaryRows(Some(s), vehicle, setup)[0].value ==
      Text(if vehicle.nickName == "" then "Unknown" else vehicle.nickName)
    ensures SummaryRows(Some(s), vehicle, setup)[1].value == Text(Trim(vehicle.modelYear + " " + vehicle.modelName))
    ensures SummaryRows(Some(s), vehicle, setup)[9].value ==
      Text(if s.lastUpdated == "" then "N/A" else s.lastUpdated)
  {
  }

  /** The reading rows of the summary: fuel, and range and odometer in the chosen unit. */
  lemma SummaryReadingCells(s: Status, vehicle: Vehicle, setup: Option<Setup>)
    ensures SummaryRows(Some(s), vehicle, setup)[2].value == Percent(s.fuelPercent)
    ensures SummaryRows(Some(s), vehicle, setup)[3].value == Distance(s.rangeKm, UnitFor(setup))
    ensures SummaryRows(Some(s), vehicle, setup)[8].value == Distance(s.odometerKm, UnitFor(setup))
  {
  }

  /** The four flag rows of the summary, each `Yes` exactly when its flag is set. */
  lemma SummaryFlagCells(s: Status, vehicle: Vehicle, setup: Option<Setup>)
    ensures SummaryRows(Some(s), vehicle, setup)[4].value == Text(FmtBool(s.isRunning))
    ensures SummaryRows(Some(s), vehicle, setup)[5].value == Text(FmtBool(s.isLocked))
    ensures SummaryRows(Some(s), vehicle, setup)[6].value == Text(FmtBool(s.climateOn))
    ensures SummaryRows(Some(s), vehicle, setup)[7].value == Text(FmtBool(s.tirePressureLow))
  {
  }

  /** The rows `renderSummary` shows: one "login required" row when logged out. */
  function SummaryView(loggedIn: bool, status: Option<Status>, vehicle: Vehicle, setup: Option<Setup>)
    : (rows: seq<Row>)
    ensures !loggedIn ==> rows == [LoginRequired]
    ensures loggedIn ==> rows == SummaryRows(status, vehicle, setup)
    ensures loggedIn && status.None? ==> rows == []
  {
    if !loggedIn then [LoginRequired] else SummaryRows(status, vehicle, setup)
  }

  /** The model row of the installed vehicle reads "2024 Tucson" or "2024 Sportage". */
  lemma ModelRow(setup: Option<Setup>, s: Status)
    ensures var v := VehicleFor(setup);
      SummaryRows(Some(s), v, setup)[1].value == Text("2024 " + v.modelName)
  {
  }

  /** `updateControlState`: which buttons are enabled. */
  function ControlState(setup: Option<Setup>, loggedIn: bool): (c: Controls)
    ensures c.actions == loggedIn && c.scenarios == loggedIn && c.logout == loggedIn
    ensures c.login <==> Configured(setup) && !loggedIn
    ensures !(c.login && c.logout)
    ensures c.login ==> !c.actions
  {
    Controls(loggedIn, loggedIn, Configured(setup) && !loggedIn, loggedIn)
  }

  /** `updateSessionStatus`: the session line shown under the login buttons. */
  function SessionText(setup: Option<Setup>, loggedIn: bool): (t: string)
    ensures !Configured(setup) ==> t == "Not configured. Complete setup first."
    ensures Configured(setup) && !loggedIn ==> t == "Configured but logged out."
    ensures Configured(setup) && loggedIn ==>
      t == "Logged in as " + Field(setup, "username") + " (" + Shown(setup.value, "manufacturer") + "/" +
           Shown(setup.value, "region") + ")"
  {
    if !Configured(setup) then "Not configured. Complete setup first."
    else if loggedIn then
      "Logged in as " + setup.value["username"] + " (" + Shown(setup.value, "manufacturer") + "/" +
      Shown(setup.value, "region") + ")"
    else "Configured but logged out."
  }

  /** A setup field as a template literal prints it; a missing one prints `undefined`. */
  function Shown(setup: Setup, name: string): string {
    if name in setup then setup[name] else "undefined"
  }

  // ---------------------------------------------------------------------------
  // The page state and its transitions
  // ---------------------------------------------------------------------------

  /** The harness's `state` record, updated in place by the handlers below. */
  class UiState {
    /** The scenario fixtures; never changed, so loaded statuses are copies. */
    const scenarios: seq<Scenario>
    var selectedScenario: string
    var status: Option<Status>
    var vehicle: Vehicle
    var events: seq<Event>
    var setup: Option<Setup>
    var loggedIn: bool

    /** The log is bounded and the selected scenario always exists. */
    ghost predicate Valid()
      reads this
    {
      |events| <= MaxEvents && selectedScenario in ScenarioKeys(scenarios)
    }

    /** The initial `state` literal; `bootIso` is the page-load time stamped on the fixtures. */
    constructor (bootIso: string)
      ensures Valid()
      ensures scenarios == Fixtures(bootIso)
      ensures selectedScenario == "parked" && status == None
      ensures vehicle == Vehicle("Family SUV", "2024", "Sportage")
      ensures events == [] && setup == None && !loggedIn
    {
      scenarios := Fixtures(bootIso);
      selectedScenario := "parked";
      status := None;
      vehicle := Vehicle("Family SUV", "2024", "Sportage");
      events := [];
      setup := None;
      loggedIn := false;
      new;
      FixturesFound(bootIso, 0);
    }

    predicate IsConfigured()
      reads this
    {
      Configured(setup)
    }

    function ControlsNow(): Controls
      reads this
    {
      ControlState(setup, loggedIn)
    }

    function Summary(): seq<Row>
      reads this
    {
      SummaryView(loggedIn, status, vehicle, setup)
    }

    /** `addEvent(msg, cls)`: prepend an entry and keep the newest ten. */
    method AddEvent(msg: string, cls: EventClass, now: Timestamp)
      requires Valid()
      modifies this`events
      ensures Valid()
      ensures events == PushEvent(old(events), Event(msg, cls, now.localTime))
    {
      events := [Event(msg, cls, now.localTime)] + events;
      events := events[..if |events| < MaxEvents then |events| else MaxEvents];
    }

    /** `touchStatus`: stamp the status, if there is one, with the current time. */
    method TouchStatus(now: Timestamp)
      modifies this`status
      ensures status == if old(status).Some? then Some(Touched(old(status).value, now)) else None
    {
      if status.Some? {
        status := Some(status.value.(lastUpdated := now.iso));
      }
    }

    /** `handleAction(key)`: ignored without a status or a session. */
    method HandleAction(key: string, now: Timestamp)
      requires Valid()
      modifies this`status, this`events
      ensures Valid()
      ensures old(status).None? || !loggedIn ==> status == old(status) && events == old(events)
      ensures old(status).Some? && loggedIn && ActionOfKey(key).Some? ==>
        var a := ActionOfKey(key).value;
        status == Some(Touched(ApplyAction(old(status).value, a), now)) &&
        events == PushEvent(old(events), ActionEvent(a, now))
      ensures old(status).Some? && loggedIn && ActionOfKey(key).None? ==>
        status == Some(Touched(old(status).value, now)) && events == old(events)
    {
      if status.None? || !loggedIn {
        return;
      }
      var s := status.value;
      match ActionOfKey(key) {
        case Some(Refresh) =>
          AddEvent("Status refresh simulated using current scenario data", Ok, now);
        case Some(Lock) =>
          status := Some(s.(isLocked := true));
          AddEvent("Vehicle locked", Ok, now);
        case Some(Unlock) =>
          status := Some(s.(isLocked := false));
          AddEvent("Vehicle unlocked", Warn, now);
        case Some(EngineOn) =>
          status := Some(s.(isRunning := true));
          AddEvent("Engine started", Ok, now);
        case Some(EngineOff) =>
          status := Some(s.(isRunning := false));
          AddEvent("Engine stopped", Warn, now);
        case Some(HornLights) =>
          AddEvent("Honk and lights triggered", Ok, now);
        case Some(ClimateOn) =>
          status := Some(s.(climateOn := true));
          AddEvent("Climate started", Ok, now);
        case Some(ClimateOff) =>
          status := Some(s.(climateOn := false));
          AddEvent("Climate stopped", Warn, now);
        case None =>
      }
      TouchStatus(now);
    }

    /** `loadScenario(key)`: an unknown key changes nothing. */
    method LoadScenario(key: string, now: Timestamp)
      requires Valid()
      modifies this`selectedScenario, this`status, this`vehicle, this`events
      ensures Valid()
      ensures FindScenario(scenarios, key).None? ==>
        selectedScenario == old(selectedScenario) && status == old(status) &&
        vehicle == old(vehicle) && events == old(events)
      ensures FindScenario(scenarios, key).Some? ==>
        var sc := FindScenario(scenarios, key).value;
        selectedScenario == key && status == Some(sc.status) && vehicle == VehicleFor(setup) &&
        events == PushEvent(old(events), Event("Scenario loaded: " + sc.displayName, Ok, now.localTime))
    {
      var found := FindScenario(scenarios, key);
      if found.None? {
        return;
      }
      selectedScenario := key;
      status := Some(found.value.status);
      vehicle := VehicleFor(setup);
      AddEvent("Scenario loaded: " + found.value.displayName, Ok, now);
    }

    /** The setup form's submit handler: save, log out, reload the selected scenario. */
    method SubmitSetup(form: Setup, now: Timestamp)
      requires Valid()
      modifies this`setup, this`loggedIn, this`selectedScenario, this`status, this`vehicle, this`events
      ensures Valid()
      ensures setup == Some(form) && !loggedIn && selectedScenario == old(selectedScenario)
      ensures var sc := FindScenario(scenarios, old(selectedScenario)).value;
        status == Some(sc.status) && vehicle == VehicleFor(Some(form)) &&
        events == PushEvent(PushEvent(old(events), Event("Setup saved", Ok, now.localTime)),
                            Event("Scenario loaded: " + sc.displayName, Ok, now.localTime))
      ensures !ControlsNow().actions && !ControlsNow().logout
      ensures ControlsNow().login <==> Configured(Some(form))
    {
      setup := Some(form);
      loggedIn := false;
      AddEvent("Setup saved", Ok, now);
      LoadScenario(selectedScenario, now);
    }

    /** The reset button's handler: forget the setup and log out. */
    method ResetSetup(now: Timestamp)
      requires Valid()
      modifies this`setup, this`loggedIn, this`events
      ensures Valid()
      ensures setup == None && !loggedIn
      ensures events == PushEvent(old(events), Event("Setup reset", Warn, now.localTime))
      ensures ControlsNow() == Controls(false, false, false, false)
      ensures Summary() == [LoginRequired]
    {
      setup := None;
      loggedIn := false;
      AddEvent("Setup reset", Warn, now);
    }

    /** The login button's handler, with its wait taken as one step. */
    method Login(now: Timestamp)
      requires Valid()
      modifies this`loggedIn, this`events
      ensures Valid()
      ensures !Configured(setup) ==>
        loggedIn == old(loggedIn) &&
        events == PushEvent(old(events), Event("Cannot login before setup", Error, now.localTime))
      ensures Configured(setup) ==>
        loggedIn && events == PushEvent(old(events), Event("Login successful", Ok, now.localTime))
      ensures Configured(setup) ==> ControlsNow() == Controls(true, true, false, true)
    {
      if !IsConfigured() {
        AddEvent("Cannot login before setup", Error, now);
        return;
      }
      loggedIn := true;
      AddEvent("Login successful", Ok, now);
    }

    /** The logout button's handler. */
    method Logout(now: Timestamp)
      requires Valid()
      modifies this`loggedIn, this`events
      ensures Valid()
      ensures !loggedIn
      ensures events == PushEvent(old(events), Event("Logged out", Warn, now.localTime))
      ensures !ControlsNow().actions && !ControlsNow().logout
      ensures ControlsNow().login <==> Configured(setup)
      ensures Summary() == [LoginRequired]
    {
      loggedIn := false;
      AddEvent("Logged out", Warn, now);
    }
  }
}
