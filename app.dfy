/**
 * The top-level session (src/App.tsx): the state held in the root component,
 * the location handler with its deferred completion, the tab enablement, the
 * three mock data tables and the speech language tag.
 *
 * The deferred completion (`setTimeout(..., 2000)`) is an explicit event,
 * `TimerFires`; `pendingTimers` counts the completions scheduled and not yet
 * run. The pure state machine (`Step`, `Run`) specifies the class `Session`,
 * whose fields are the component's `useState` cells.
 */
module App {
  import opened Domain
  import SoilHealth
  import CropSuitability

  /** The five tabs of the main view. */
  datatype Tab = LocationTab | WeatherTab | SoilTab | RecommendationsTab | DashboardTab

  /** The weather snapshot every completion installs. */
  function MockWeather(): (w: WeatherData)
    ensures 0.0 <= w.humidity <= 100.0
    ensures |w.forecast| == 3
  {
    WeatherData(28.0, 65.0, 12.0, "NE",
      [ForecastDay("2025-09-18", 29.0, "Sunny"),
       ForecastDay("2025-09-19", 31.0, "Partly Cloudy"),
       ForecastDay("2025-09-20", 27.0, "Rainy")])
  }

  /**
   * The soil sample every completion installs. All five readings classify as
   * excellent, so the soil view shows neither advice block for it.
   */
  function MockSoil(): (s: SoilData)
    ensures forall p: SoilHealth.Parameter ::
              SoilHealth.SoilHealthStatus(SoilHealth.Reading(s, p), p) == SoilHealth.Excellent
    ensures !SoilHealth.ShowsPhAdvice(s) && !SoilHealth.ShowsOrganicAdvice(s)
    ensures forall p: SoilHealth.Parameter ::
              0.0 <= SoilHealth.ProgressValue(SoilHealth.Reading(s, p), p) <= 100.0
  {
    SoilData("Loamy", 6.8, 3.2, 45.0, 22.0, 180.0)
  }

  /**
   * The crop list every completion installs: three entries, each score a
   * percentage, in strictly descending order of suitability.
   */
  function MockRecommendations(): (r: seq<CropRecommendation>)
    ensures |r| == 3
    ensures forall i :: 0 <= i < |r| ==> 0.0 <= r[i].suitability <= 100.0
    ensures forall i, j :: 0 <= i < j < |r| ==> r[i].suitability > r[j].suitability
  {
    [CropRecommendation("Rice", "चावल", 95.0, "June-July", "October-November",
       "Heavy irrigation needed", "NPK 20:10:10", "Regular monitoring for stem borer"),
     CropRecommendation("Wheat", "गेहूं", 88.0, "November-December", "March-April",
       "Moderate irrigation", "NPK 18:18:18", "Watch for aphids and rust"),
     CropRecommendation("Sugarcane", "गन्ना", 82.0, "February-March", "December-January",
       "Heavy irrigation in summer", "High nitrogen content", "Monitor for red rot disease")]
  }

  /** The crop view labels the mock list highly recommended, recommended, recommended. */
  lemma MockRecommendationLevels()
    ensures CropSuitability.SuitabilityLevel(MockRecommendations()[0].suitability) == CropSuitability.HighlyRecommended
    ensures CropSuitability.SuitabilityLevel(MockRecommendations()[1].suitability) == CropSuitability.Recommended
    ensures CropSuitability.SuitabilityLevel(MockRecommendations()[2].suitability) == CropSuitability.Recommended
  {
  }

  /** The language tag of every utterance: Indian Hindi for Hindi, US English otherwise. */
  function SpeechLanguageTag(lang: Language): (tag: string)
    ensures tag == "hi-IN" <==> lang == Hi
    ensures tag == "en-US" <==> lang != Hi
  {
    if lang == Hi then "hi-IN" else "en-US"
  }

  /** The root component's state, plus the count of scheduled completions. */
  datatype SessionState = SessionState(
    location: Option<Location>,
    weatherData: Option<WeatherData>,
    soilData: Option<SoilData>,
    recommendations: seq<CropRecommendation>,
    selectedLanguage: Language,
    activeTab: Tab,
    isLoading: bool,
    pendingTimers: nat)

  /**
   * The state of a fresh session: no location, no data, nothing scheduled.
   * It satisfies the session invariant, and only its location tab is enabled.
   */
  function Initial(): (s: SessionState)
    ensures s.location == None && Unloaded(s) && s.selectedLanguage == Hi && !s.isLoading && s.pendingTimers == 0
    ensures Consistent(s)
    ensures forall tab :: TabEnabled(s.location, s.recommendations, tab) <==> tab == LocationTab
  {
    SessionState(None, None, None, [], Hi, LocationTab, false, 0)
  }

  /**
   * Whether a tab's trigger is enabled. The location tab always is; the
   * weather and soil tabs open together, once there is a location; the
   * recommendations and dashboard tabs open together, once there are crops.
   */
  function TabEnabled(location: Option<Location>, recommendations: seq<CropRecommendation>, tab: Tab): (enabled: bool)
    ensures tab == LocationTab ==> enabled
    ensures (tab == WeatherTab || tab == SoilTab) ==> (enabled <==> location != None)
    ensures (tab == RecommendationsTab || tab == DashboardTab) ==> (enabled <==> recommendations != [])
  {
    match tab
    case LocationTab => true
    case WeatherTab => location != None
    case SoilTab => location != None
    case RecommendationsTab => |recommendations| > 0
    case DashboardTab => |recommendations| > 0
  }

  /** The events the session reacts to. */
  datatype Event =
    | SelectLocation(loc: Location)   // `handleLocationSelect` (from the form or the map)
    | TimerFires                      // a scheduled completion runs
    | ChooseLanguage(lang: Language)  // the language selector's `onLanguageChange`
    | ClickTab(tab: Tab)              // a tab trigger is clicked

  /** A completion can only run when one has been scheduled. */
  predicate CanOccur(s: SessionState, e: Event)
  {
    e.TimerFires? ==> s.pendingTimers > 0
  }

  /**
   * The effect of one event on the session state. Only a selection moves the
   * location, only a completion touches the data and clears the loading
   * flag, only the selector changes the language, only a click on an
   * enabled tab moves the active tab, and the scheduled count
   * goes up by one per selection and down by one per completion.
   */
  function Step(s: SessionState, e: Event): (t: SessionState)
    requires CanOccur(s, e)
    ensures t.location == (if e.SelectLocation? then Some(e.loc) else s.location)
    ensures t.selectedLanguage == (if e.ChooseLanguage? then e.lang else s.selectedLanguage)
    ensures !e.TimerFires? ==>
              t.weatherData == s.weatherData && t.soilData == s.soilData && t.recommendations == s.recommendations
    ensures e.TimerFires? ==> Loaded(t) && !t.isLoading && t.activeTab == WeatherTab
    ensures e.SelectLocation? ==> t.isLoading
    ensures e.ChooseLanguage? || e.ClickTab? ==> t.isLoading == s.isLoading
    ensures e.SelectLocation? || e.ChooseLanguage? ==> t.activeTab == s.activeTab
    ensures e.ClickTab? ==>
              t.activeTab == (if TabEnabled(s.location, s.recommendations, e.tab) then e.tab else s.activeTab)
    ensures t.pendingTimers + (if e.TimerFires? then 1 else 0) == s.pendingTimers + (if e.SelectLocation? then 1 else 0)
  {
    match e
    case SelectLocation(loc) =>
      s.(location := Some(loc), isLoading := true, pendingTimers := s.pendingTimers + 1)
    case TimerFires =>
      s.(weatherData := Some(MockWeather()), soilData := Some(MockSoil()),
         recommendations := MockRecommendations(), isLoading := false,
         activeTab := WeatherTab, pendingTimers := s.pendingTimers - 1)
    case ChooseLanguage(lang) =>
      s.(selectedLanguage := lang)
    case ClickTab(tab) =>
      if TabEnabled(s.location, s.recommendations, tab) then s.(activeTab := tab) else s
  }

  /** How many events of a sequence are selections. */
  function Scheduled(events: seq<Event>): nat
    decreases |events|
  {
    if events == [] then 0 else (if events[0].SelectLocation? then 1 else 0) + Scheduled(events[1..])
  }

  /** How many events of a sequence are completions. */
  function Fired(events: seq<Event>): nat
    decreases |events|
  {
    if events == [] then 0 else (if events[0].TimerFires? then 1 else 0) + Fired(events[1..])
  }

  /**
   * The state after a sequence of events, or None if a completion ran with
   * none scheduled. Completions are conserved: every one that is scheduled
   * has either run or is still pending.
   */
  function Run(s: SessionState, events: seq<Event>): (r: Option<SessionState>)
    ensures r != None ==> r.value.pendingTimers + Fired(events) == s.pendingTimers + Scheduled(events)
    ensures events == [] ==> r == Some(s)
    decreases |events|
  {
    if events == [] then Some(s)
    else if !CanOccur(s, events[0]) then None
    else Run(Step(s, events[0]), events[1..])
  }

  /** No data has been installed yet. */
  predicate Unloaded(s: SessionState)
  {
    s.weatherData == None && s.soilData == None && s.recommendations == []
  }

  /** Weather, soil and crops are all those of the single mock snapshot. */
  predicate Loaded(s: SessionState)
  {
    s.weatherData == Some(MockWeather()) && s.soilData == Some(MockSoil())
    && s.recommendations == MockRecommendations()
  }

  /**
   * The session invariant: the data fields are never a mix of snapshots,
   * loading implies a completion is still scheduled, data and scheduled
   * completions imply a location, and the active tab is always enabled.
   */
  predicate Consistent(s: SessionState)
  {
    && (Unloaded(s) || Loaded(s))
    && (s.isLoading ==> s.pendingTimers > 0)
    && (s.pendingTimers > 0 ==> s.location != None)
    && (Loaded(s) ==> s.location != None)
    && TabEnabled(s.location, s.recommendations, s.activeTab)
  }

  /**
   * In a consistent state the recommendations and dashboard tabs are enabled
   * exactly when the snapshot is loaded, and then so are the weather and soil tabs.
   */
  lemma TabsInConsistentStates(s: SessionState)
    requires Consistent(s)
    ensures TabEnabled(s.location, s.recommendations, RecommendationsTab) <==> Loaded(s)
    ensures TabEnabled(s.location, s.recommendations, DashboardTab) <==> Loaded(s)
    ensures Loaded(s) ==> TabEnabled(s.location, s.recommendations, WeatherTab)
                          && TabEnabled(s.location, s.recommendations, SoilTab)
  {
  }

  lemma StepKeepsConsistent(s: SessionState, e: Event)
    requires Consistent(s) && CanOccur(s, e)
    ensures Consistent(Step(s, e))
  {
  }

  /** Every state reachable from a consistent one is consistent. */
  lemma {:induction false} RunKeepsConsistent(s: SessionState, events: seq<Event>)
    requires Consistent(s)
    requires Run(s, events) != None
    ensures Consistent(Run(s, events).value)
    decreases |events|
  {
    if events != [] {
      StepKeepsConsistent(s, events[0]);
      RunKeepsConsistent(Step(s, events[0]), events[1..]);
    }
  }

  /** The argument of the last `SelectLocation` in a sequence of events, if any. */
  function LastSelection(events: seq<Event>): Option<Location>
    decreases |events|
  {
    if events == [] then None
    else if events[|events| - 1].SelectLocation? then Some(events[|events| - 1].loc)
    else LastSelection(events[..|events| - 1])
  }

  lemma {:induction false} RunSplit(s: SessionState, events: seq<Event>, e: Event)
    requires Run(s, events + [e]) != None
    ensures Run(s, events) != None && CanOccur(Run(s, events).value, e)
    ensures Run(s, events + [e]) == Some(Step(Run(s, events).value, e))
    decreases |events|
  {
    if events == [] {
      assert events + [e] == [e];
    } else {
      assert (events + [e])[1..] == events[1..] + [e];
      RunSplit(Step(s, events[0]), events[1..], e);
    }
  }

  /**
   * Last write wins: whatever completions ran in between, the location is
   * the one of the last selection, and completions never touch it.
   */
  lemma {:induction false} LastSelectionWins(s: SessionState, events: seq<Event>)
    requires Run(s, events) != None
    ensures Run(s, events).value.location ==
              if LastSelection(events) != None then LastSelection(events) else s.location
    decreases |events|
  {
    if events != [] {
      var init, e := events[..|events| - 1], events[|events| - 1];
      assert events == init + [e];
      RunSplit(s, init, e);
      LastSelectionWins(s, init);
    }
  }

  /**
   * From a consistent state the data is the mock snapshot exactly when it
   * already was or some completion ran; nothing ever unloads it.
   */
  lemma {:induction false} LoadedIffSomeTimerFired(s: SessionState, events: seq<Event>)
    requires Consistent(s)
    requires Run(s, events) != None
    ensures Loaded(Run(s, events).value) <==> Loaded(s) || TimerFires in events
    decreases |events|
  {
    if events != [] {
      StepKeepsConsistent(s, events[0]);
      LoadedIffSomeTimerFired(Step(s, events[0]), events[1..]);
      assert TimerFires in events <==> events[0] == TimerFires || TimerFires in events[1..] by {
        assert events == [events[0]] + events[1..];
      }
      if !Loaded(s) && events[0] != TimerFires {
        assert Unloaded(s);
        assert Unloaded(Step(s, events[0]));
      }
    }
  }

  /** The state two selections of `a` then `b` settle in once both completions have run. */
  function Settled(b: Location): SessionState
  {
    SessionState(Some(b), Some(MockWeather()), Some(MockSoil()), MockRecommendations(),
                 Hi, WeatherTab, false, 0)
  }

  /**
   * Two selections and their two completions end in the same state whether
   * the first completion runs before or after the second selection: the
   * second location and one snapshot.
   */
  lemma TwoSelectionsSettle(a: Location, b: Location)
    ensures Run(Initial(), [SelectLocation(a), SelectLocation(b), TimerFires, TimerFires]) == Some(Settled(b))
    ensures Run(Initial(), [SelectLocation(a), TimerFires, SelectLocation(b), TimerFires]) == Some(Settled(b))
  {
    var s1 := Step(Initial(), SelectLocation(a));
    var s2 := Step(s1, SelectLocation(b));
    var s3 := Step(s2, TimerFires);
    assert Run(s3, [TimerFires]) == Some(Settled(b));
    assert Run(s2, [TimerFires, TimerFires]) == Some(Settled(b));
    assert Run(s1, [SelectLocation(b), TimerFires, TimerFires]) == Some(Settled(b));

    var t2 := Step(s1, TimerFires);
    var t3 := Step(t2, SelectLocation(b));
    assert Run(t3, [TimerFires]) == Some(Settled(b));
    assert Run(t2, [SelectLocation(b), TimerFires]) == Some(Settled(b));
    assert Run(s1, [TimerFires, SelectLocation(b), TimerFires]) == Some(Settled(b));
  }

  /**
   * With two selections in flight, the first completion already clears the
   * loading flag although the second one is still scheduled.
   */
  lemma FirstCompletionClearsLoading(a: Location, b: Location)
    ensures var r := Run(Initial(), [SelectLocation(a), SelectLocation(b), TimerFires]);
            r != None && !r.value.isLoading && r.value.pendingTimers == 1 && r.value.location == Some(b)
  {
    var s1 := Step(Initial(), SelectLocation(a));
    var s2 := Step(s1, SelectLocation(b));
    var s3 := Step(s2, TimerFires);
    assert Run(s2, [TimerFires]) == Some(s3);
    assert Run(s1, [SelectLocation(b), TimerFires]) == Some(s3);
  }

  /** The root component's `useState` cells and the completions they have scheduled. */
  class Session {
    var location: Option<Location>
    var weatherData: Option<WeatherData>
    var soilData: Option<SoilData>
    var recommendations: seq<CropRecommendation>
    var selectedLanguage: Language
    var activeTab: Tab
    var isLoading: bool
    /** Completions scheduled and not yet run (bookkeeping, not a `useState` cell). */
    ghost var pendingTimers: nat

    /** The fields as one value. */
    ghost function State(): SessionState
      reads this
    {
      SessionState(location, weatherData, soilData, recommendations,
                   selectedLanguage, activeTab, isLoading, pendingTimers)
    }

    constructor ()
      ensures State() == Initial() && Consistent(State())
    {
      location := None;
      weatherData := None;
      soilData := None;
      recommendations := [];
      selectedLanguage := Hi;
      activeTab := LocationTab;
      isLoading := false;
      pendingTimers := 0;
    }

    /** `handleLocationSelect`: store the location, start loading, schedule a completion. */
    method HandleLocationSelect(newLocation: Location)
      requires Consistent(State())
      modifies this
      ensures location == Some(newLocation) && isLoading && pendingTimers == old(pendingTimers) + 1
      ensures weatherData == old(weatherData) && soilData == old(soilData)
      ensures recommendations == old(recommendations)
      ensures selectedLanguage == old(selectedLanguage) && activeTab == old(activeTab)
      ensures State() == Step(old(State()), SelectLocation(newLocation)) && Consistent(State())
    {
      StepKeepsConsistent(State(), SelectLocation(newLocation));
      location := Some(newLocation);
      isLoading := true;
      pendingTimers := pendingTimers + 1;
    }

    /** A scheduled completion runs: install the snapshot, stop loading, show the weather tab. */
    method CompleteLoad()
      requires Consistent(State())
      requires pendingTimers > 0
      modifies this
      ensures Loaded(State()) && !isLoading && activeTab == WeatherTab
      ensures location == old(location) && selectedLanguage == old(selectedLanguage)
      ensures pendingTimers == old(pendingTimers) - 1
      ensures State() == Step(old(State()), TimerFires) && Consistent(State())
    {
      StepKeepsConsistent(State(), TimerFires);
      weatherData := Some(MockWeather());
      soilData := Some(MockSoil());
      recommendations := MockRecommendations();
      isLoading := false;
      activeTab := WeatherTab;
      pendingTimers := pendingTimers - 1;
    }

    /** The language selector's `onLanguageChange`. */
    method SetSelectedLanguage(lang: Language)
      requires Consistent(State())
      modifies this
      ensures State() == old(State()).(selectedLanguage := lang) && Consistent(State())
    {
      selectedLanguage := lang;
    }

    /** The tabs' `onValueChange`; a disabled trigger does not raise it. */
    method SetActiveTab(tab: Tab)
      requires Consistent(State())
      modifies this
      ensures activeTab == (if TabEnabled(location, recommendations, tab) then tab else old(activeTab))
      ensures State() == Step(old(State()), ClickTab(tab)) && Consistent(State())
    {
      if TabEnabled(location, recommendations, tab) {
        activeTab := tab;
      }
    }
  }
}
