/** The running screen: the remembered state plus the generation coroutines
    that have been launched and have not completed yet. Every user callback
    fires only while the composable that wires it is on screen; a coroutine
    completes whenever one is pending. Nothing stops a second generation from
    being launched while one is pending. */
module Session {
  import opened Optional
  import opened Repository
  import opened Generation
  import opened ScreenState
  import opened View

  /** The running screen. `inFlight` counts launched generation coroutines
      that have not yet stored their team. */
  datatype Running = Running(app: AppState, inFlight: nat)

  datatype Event =
    | HomeGenerate                    // Home screen: generate button
    | HomeSave                        // Home screen: save-team button
    | GeneratorGenerate               // generator screen: generate button
    | GeneratorSave                   // generator screen: save-team button
    | SelectItem(name: Name)          // generator screen: a Pokémon in the list
    | Back                            // generator screen: top bar back arrow
    | Refresh                         // bottom bar: refresh
    | HomeButton                      // bottom bar: home
    | TeamsButton                     // bottom bar: teams
    | GenerationDone(oracle: Oracle)  // a pending coroutine completes

  /** Facts every state reachable from launch satisfies. */
  ghost predicate Valid(s: Running) {
    && (s.inFlight == 0 ==> !s.app.isLoading)
    && (!s.app.isLoading ==> s.app.randomPokemonNames.Some?)
    && (s.app.randomPokemonNames.Some? ==> |s.app.randomPokemonNames.value| == TeamSize)
    && (forall t :: t in s.app.savedTeams ==> |t| == TeamSize)
    && (s.app.showDetails ==> s.app.selectedPokemonName.Some?)
    && (s.app.showSavedTeamsList ==> !s.app.showHome)
  }

  /** The first composition: initial state, with the launch effect's
      generation coroutine started (its `isLoading = true` changes nothing,
      the flag already starts raised). */
  function Launch(): (s: Running)
    ensures s.app == Initial()
    ensures s.inFlight == 1
    ensures Valid(s)
  {
    Running(BeginGeneration(Initial()), 1)
  }

  /** Whether the callback behind `e` is wired into what is on screen. */
  predicate Available(s: Running, e: Event) {
    var v := ViewOf(s.app);
    match e
    case HomeGenerate => v.HomeScreen?
    case HomeSave => v.HomeScreen?
    case SelectItem(name) => v.GeneratorScreen? && v.body.TeamList? && name in v.body.team
    case GenerationDone(_) => s.inFlight > 0
    case _ => v.GeneratorScreen?
  }

  /** The wiring screen by screen: Home wires its generate and save
      buttons; the saved-teams list wires nothing; the generator wires its
      generate and save buttons, back, refresh, home and teams, and a click
      on a name of the team list when that list is shown. A pending
      generation may complete on any screen. */
  lemma Wiring(s: Running, e: Event)
    ensures e.GenerationDone? ==> (Available(s, e) <==> s.inFlight > 0)
    ensures !e.GenerationDone? && ViewOf(s.app).HomeScreen? ==>
      (Available(s, e) <==> e.HomeGenerate? || e.HomeSave?)
    ensures !e.GenerationDone? && ViewOf(s.app).SavedTeamsScreen? ==> !Available(s, e)
    ensures !e.GenerationDone? && ViewOf(s.app).GeneratorScreen? ==>
      (Available(s, e) <==>
        || e.GeneratorGenerate? || e.GeneratorSave? || e.Back? || e.Refresh?
        || e.HomeButton? || e.TeamsButton?
        || (e.SelectItem? && ViewOf(s.app).body.TeamList? && e.name in ViewOf(s.app).body.team))
  {
  }

  /** Launching a generation coroutine. */
  function Launched(s: Running): (r: Running)
    ensures r.inFlight == s.inFlight + 1
    ensures r.app.isLoading
    ensures r.app.(isLoading := s.app.isLoading) == s.app
  {
    Running(BeginGeneration(s.app), s.inFlight + 1)
  }

  /** One callback or completion. */
  function Step(s: Running, e: Event): (r: Running)
    requires Available(s, e)
    ensures Valid(s) ==> Valid(r)
    ensures s.app.savedTeams <= r.app.savedTeams
    ensures s.app.showSavedTeamsList ==> r.app.showSavedTeamsList
  {
    match e
    case HomeGenerate => s.(app := LeaveHome(s.app))
    case HomeSave => s.(app := SaveCurrentTeam(s.app))
    case GeneratorGenerate => Launched(s)
    case GeneratorSave => s.(app := SaveCurrentTeam(s.app))
    case SelectItem(name) => s.(app := SelectPokemon(s.app, name))
    case Back => s.(app := CloseDetails(s.app))
    case Refresh => Launched(s)
    case HomeButton => s.(app := GoHome(s.app))
    case TeamsButton => s.(app := ShowSavedTeams(s.app))
    case GenerationDone(o) =>
      Running(FinishGeneration(s.app, GeneratedTeam(o)), s.inFlight - 1)
  }

  /** Whether every event of `es` is available when its turn comes. */
  predicate Enabled(s: Running, es: seq<Event>)
    decreases |es|
  {
    |es| == 0 || (Available(s, es[0]) && Enabled(Step(s, es[0]), es[1..]))
  }

  /** A sequence of events, one after the other. Validity is kept, saved
      teams are only ever appended to, and the saved-teams flag is never
      lowered. */
  function Run(s: Running, es: seq<Event>): (r: Running)
    requires Enabled(s, es)
    ensures Valid(s) ==> Valid(r)
    ensures s.app.savedTeams <= r.app.savedTeams
    ensures s.app.showSavedTeamsList ==> r.app.showSavedTeamsList
    decreases |es|
  {
    if |es| == 0 then s else Run(Step(s, es[0]), es[1..])
  }

  /** Running `e` and then `rest` is running `[e] + rest`. */
  lemma RunCons(s: Running, e: Event, rest: seq<Event>)
    requires Available(s, e) && Enabled(Step(s, e), rest)
    ensures Enabled(s, [e] + rest)
    ensures Run(s, [e] + rest) == Run(Step(s, e), rest)
  {
  }

}
