/** The remembered state of the `PokemonApp` composable and the effect of
    each of its callbacks on it. The state keeps the source's encoding:
    independent flags rather than one screen tag, so combinations such as
    "Home shown while details are open underneath" are representable. */
module ScreenState {
  import opened Optional
  import opened Repository
  import opened Generation

  datatype AppState = AppState(
    selectedPokemonName: Option<Name>,
    showDetails: bool,
    randomPokemonNames: Option<Team>,
    isLoading: bool,
    showHome: bool,
    showSavedTeamsList: bool,
    savedTeams: seq<Team>)

  /** The values the state is remembered with on first composition. */
  function Initial(): (s: AppState)
    ensures s.showHome && !s.showDetails && !s.showSavedTeamsList
    ensures s.selectedPokemonName.None? && s.randomPokemonNames.None?
    ensures s.isLoading
    ensures s.savedTeams == []
  {
    AppState(None, false, None, true, true, false, [])
  }

  /** `saveTeam`: append a team to the saved list. */
  function SaveTeam(s: AppState, team: Team): (r: AppState)
    ensures |r.savedTeams| == |s.savedTeams| + 1
    ensures r.savedTeams[|s.savedTeams|] == team
    ensures r.savedTeams[..|s.savedTeams|] == s.savedTeams
    ensures r.(savedTeams := s.savedTeams) == s
  {
    s.(savedTeams := s.savedTeams + [team])
  }

  /** The save-team callback (the same closure on the Home screen and on the
      generator screen): save the current team if there is one. */
  function SaveCurrentTeam(s: AppState): (r: AppState)
    ensures s.randomPokemonNames.None? ==> r == s
    ensures s.randomPokemonNames.Some? ==>
      && |r.savedTeams| == |s.savedTeams| + 1
      && r.savedTeams[|s.savedTeams|] == s.randomPokemonNames.value
      && r.savedTeams[..|s.savedTeams|] == s.savedTeams
    ensures r.(savedTeams := s.savedTeams) == s
  {
    match s.randomPokemonNames
    case None => s
    case Some(team) => SaveTeam(s, team)
  }

  /** First half of a generation coroutine (launch effect, generate button,
      refresh button): the loading flag is raised and nothing else moves. */
  function BeginGeneration(s: AppState): (r: AppState)
    ensures r.isLoading
    ensures r.(isLoading := s.isLoading) == s
  {
    s.(isLoading := true)
  }

  /** Second half of a generation coroutine: the generated team replaces the
      current one and the loading flag is lowered, whatever was shown. */
  function FinishGeneration(s: AppState, team: Team): (r: AppState)
    ensures r.randomPokemonNames == Some(team) && !r.isLoading
    ensures r.(randomPokemonNames := s.randomPokemonNames, isLoading := s.isLoading) == s
  {
    s.(randomPokemonNames := Some(team), isLoading := false)
  }

  /** The Home screen's generate button: leave Home. */
  function LeaveHome(s: AppState): (r: AppState)
    ensures !r.showHome
    ensures r.(showHome := s.showHome) == s
  {
    s.(showHome := false)
  }

  /** The bottom bar's home button: show Home. */
  function GoHome(s: AppState): (r: AppState)
    ensures r.showHome
    ensures r.(showHome := s.showHome) == s
  {
    s.(showHome := true)
  }

  /** The bottom bar's teams button: show the saved teams. */
  function ShowSavedTeams(s: AppState): (r: AppState)
    ensures r.showSavedTeamsList
    ensures r.(showSavedTeamsList := s.showSavedTeamsList) == s
  {
    s.(showSavedTeamsList := true)
  }

  /** Clicking a Pokémon in the team list: remember it and open details. */
  function SelectPokemon(s: AppState, name: Name): (r: AppState)
    ensures r.selectedPokemonName == Some(name) && r.showDetails
    ensures r.(selectedPokemonName := s.selectedPokemonName, showDetails := s.showDetails) == s
  {
    s.(selectedPokemonName := Some(name), showDetails := true)
  }

  /** The top bar's back arrow: close details, keeping the selection. */
  function CloseDetails(s: AppState): (r: AppState)
    ensures !r.showDetails
    ensures r.selectedPokemonName == s.selectedPokemonName
    ensures r.(showDetails := s.showDetails) == s
  {
    s.(showDetails := false)
  }

  /** Home and the Home screen's generate button undo each other: going
      Home from anywhere but Home and generating again restores the exact
      state, open details included. */
  lemma HomeThenGenerateRestores(s: AppState)
    requires !s.showHome
    ensures LeaveHome(GoHome(s)) == s
  {
  }

  /** Opening and then closing details restores everything but the
      remembered selection. */
  lemma SelectThenBackRestores(s: AppState, name: Name)
    requires !s.showDetails
    ensures CloseDetails(SelectPokemon(s, name)) == s.(selectedPokemonName := Some(name))
  {
  }

}
