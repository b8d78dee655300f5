/** What the `PokemonApp` composable draws for a given state, reduced to
    which screen shows and what it shows; layout and styling are left out. */
module View {
  import opened Optional
  import opened Repository
  import opened Generation
  import opened ScreenState

  /** One line of the saved-teams list: its 1-based number and the team. */
  datatype TeamRow = TeamRow(number: nat, team: Team)

  /** The body of the generator screen under its top bar and buttons. */
  datatype GeneratorBody =
    | Details(name: Name)     // details of the selected Pokémon
    | NoDetails               // details open but nothing selected: blank
    | Loading                 // the loading circle
    | TeamList(team: Team)    // the clickable team

  datatype Screen =
    | HomeScreen
    | SavedTeamsScreen(rows: seq<TeamRow>)
    | GeneratorScreen(body: GeneratorBody)

  /** `forEachIndexed` over the saved teams, numbering from `offset + 1`. */
  function RowsFrom(teams: seq<Team>, offset: nat): (rows: seq<TeamRow>)
    ensures |rows| == |teams|
    ensures forall i :: 0 <= i < |teams| ==> rows[i] == TeamRow(offset + i + 1, teams[i])
  {
    if |teams| == 0 then [] else [TeamRow(offset + 1, teams[0])] + RowsFrom(teams[1..], offset + 1)
  }

  /** The saved-teams list: team i (from 0) is shown as "Team i+1", in
      saving order. */
  function SavedTeamsRows(teams: seq<Team>): (rows: seq<TeamRow>)
    ensures |rows| == |teams|
    ensures forall i :: 0 <= i < |teams| ==> rows[i].number == i + 1 && rows[i].team == teams[i]
  {
    RowsFrom(teams, 0)
  }

  /** The generator screen's body. */
  function GeneratorView(s: AppState): (b: GeneratorBody)
    ensures s.showDetails ==> (b.Details? || b.NoDetails?)
    ensures b.Details? <==> s.showDetails && s.selectedPokemonName.Some?
    ensures b.Details? ==> b.name == s.selectedPokemonName.value
    ensures b.Loading? <==> !s.showDetails && (s.randomPokemonNames.None? || s.isLoading)
    ensures b.TeamList? <==> !s.showDetails && s.randomPokemonNames.Some? && !s.isLoading
    ensures b.TeamList? ==> b.team == s.randomPokemonNames.value
  {
    if s.showDetails then
      match s.selectedPokemonName
      case Some(name) => Details(name)
      case None => NoDetails
    else if s.randomPokemonNames.None? || s.isLoading then Loading
    else TeamList(s.randomPokemonNames.value)
  }

  /** Screen precedence: Home wins over the saved teams, which win over the
      generator. */
  function ViewOf(s: AppState): (v: Screen)
    ensures v.HomeScreen? <==> s.showHome
    ensures v.SavedTeamsScreen? <==> !s.showHome && s.showSavedTeamsList
    ensures v.GeneratorScreen? <==> !s.showHome && !s.showSavedTeamsList
    ensures v.SavedTeamsScreen? ==> v.rows == SavedTeamsRows(s.savedTeams)
    ensures v.GeneratorScreen? ==> v.body == GeneratorView(s)
  {
    if s.showHome then HomeScreen
    else if s.showSavedTeamsList then SavedTeamsScreen(SavedTeamsRows(s.savedTeams))
    else GeneratorScreen(GeneratorView(s))
  }

  /** Saving adds exactly one row at the bottom of the list, numbered one
      past the previous last, and renumbers nothing. */
  lemma SaveAddsLastRow(teams: seq<Team>, team: Team)
    ensures SavedTeamsRows(teams + [team]) == SavedTeamsRows(teams) + [TeamRow(|teams| + 1, team)]
  {
  }

  /** Going Home and generating again shows the very screen that was shown
      before, because Home clears none of the other flags. */
  lemma HomeRoundTripKeepsScreen(s: AppState)
    requires !s.showHome
    ensures ViewOf(LeaveHome(GoHome(s))) == ViewOf(s)
  {
    HomeThenGenerateRestores(s);
  }

  /** Opening and closing details on the team list brings the same list
      back. */
  lemma SelectThenBackKeepsScreen(s: AppState, name: Name)
    requires !s.showDetails
    ensures ViewOf(CloseDetails(SelectPokemon(s, name))) == ViewOf(s)
  {
  }

}
