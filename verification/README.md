# PokéTeam screen state machine

A Dafny model of the screen logic of the `PokemonApp` composable: the
remembered flags and slots (`showHome`, `showSavedTeamsList`, `showDetails`,
`isLoading`, `selectedPokemonName`, `randomPokemonNames`, `savedTeams`), the
team generator `generateRandomPokemonNames`, every button callback, and the
choice of which screen is drawn. The state is kept as independent flags,
as in the source, because several behaviours follow from that encoding:
Home does not close details, refresh keeps the selection, and the
saved-teams flag is never lowered.

Modules:

- `Optional`: Kotlin nullables as `Option`.
- `Repository`: the Pokémon repository as an oracle. For one generation run,
  `random(i)` is the answer to the run's i-th `getRandomPokemon` call and
  `lookup(n)` is the answer to `getPokemon(n)`.
- `Generation`: `generateRandomPokemonNames`. It has a reference function
  (`Draws`/`GeneratedTeam`), the call trace (`Calls`) and the loop itself.
- `ScreenState`: the state record, its initial value and one function per
  callback.
- `View`: which screen shows, what the generator screen's body is, and the
  numbered saved-teams list.
- `Session`: the running screen (`Running`): the state plus the count of pending generation coroutines.
  It defines which callbacks the screen on display wires (`Available`), one
  step per event, and runs of events.
- `Properties`: lemmas that relate several events.

A generation coroutine is modelled as two steps. The button (or the launch
effect) raises `isLoading` and adds a pending run. A later `GenerationDone`
event stores that run's team and lowers `isLoading`. Nothing prevents a
second run from starting while one is pending, and the model does not add
such a guard.

## Model

| member | source | states |
|---|---|---|
| `Generation.Draws` | app/src/main/java/com/example/myminiapp/ui/main/PokemonApp.kt:84-88 | after k rounds there are k names, and name i is the name of the i-th random draw |
| `Generation.GeneratedTeam` | app/src/main/java/com/example/myminiapp/ui/main/PokemonApp.kt:83-89 | a finished run yields exactly 6 names; name i is the one returned by the i-th `getRandomPokemon` call |
| `Generation.Calls` | app/src/main/java/com/example/myminiapp/ui/main/PokemonApp.kt:84-88 | k rounds make 2k repository calls; call 2i is the i-th random draw and call 2i+1 fetches by name exactly the name just drawn |
| `Generation.GenerateRandomPokemonNames` | app/src/main/java/com/example/myminiapp/ui/main/PokemonApp.kt:83-89 | the `1..6` loop returns 6 names in draw order and makes exactly the alternating call sequence; the names are the same whatever the by-name fetch answers |
| `Generation.TeamReadOffCalls` | app/src/main/java/com/example/myminiapp/ui/main/PokemonApp.kt:85-87 | the i-th team name is the one carried by the i-th random draw, and the following by-name fetch asks for that name |
| `Generation.CallsAlternate` | app/src/main/java/com/example/myminiapp/ui/main/PokemonApp.kt:84-88 | among the 12 calls, the random draws are exactly those at even positions |
| `Generation.LookupIsDiscarded` | app/src/main/java/com/example/myminiapp/ui/main/PokemonApp.kt:86 | the by-name fetch's result does not affect the team: two repositories with the same draws yield the same team |
| `ScreenState.Initial` | app/src/main/java/com/example/myminiapp/ui/main/PokemonApp.kt:57-75 | Home up, details and saved teams off, nothing selected, no team, loading, no saved teams |
| `ScreenState.SaveTeam` | app/src/main/java/com/example/myminiapp/ui/main/PokemonApp.kt:78-80 | the saved list grows by one, ending with the team; earlier entries and all other fields are unchanged |
| `ScreenState.SaveCurrentTeam` | app/src/main/java/com/example/myminiapp/ui/main/PokemonApp.kt:106-111 | no current team: no-op; otherwise the current team is appended and nothing else changes |
| `ScreenState.BeginGeneration` | app/src/main/java/com/example/myminiapp/ui/main/PokemonApp.kt:138 | a starting run raises `isLoading` and touches nothing else |
| `ScreenState.FinishGeneration` | app/src/main/java/com/example/myminiapp/ui/main/PokemonApp.kt:139-140 | a finished run replaces the team and lowers `isLoading`; every flag, the selection and the saved teams are kept |
| `ScreenState.LeaveHome` | app/src/main/java/com/example/myminiapp/ui/main/PokemonApp.kt:105 | Home's generate button lowers only `showHome` |
| `ScreenState.GoHome` | app/src/main/java/com/example/myminiapp/ui/main/PokemonApp.kt:181-183 | the home button raises only `showHome`; details stay open underneath |
| `ScreenState.ShowSavedTeams` | app/src/main/java/com/example/myminiapp/ui/main/PokemonApp.kt:184-187 | the teams button raises only `showSavedTeamsList` |
| `ScreenState.SelectPokemon` | app/src/main/java/com/example/myminiapp/ui/main/PokemonApp.kt:156-159 | clicking a Pokémon remembers its name and opens details, nothing else |
| `ScreenState.CloseDetails` | app/src/main/java/com/example/myminiapp/ui/main/PokemonApp.kt:129 | back lowers only `showDetails` and keeps the selection |
| `ScreenState.HomeThenGenerateRestores` | app/src/main/java/com/example/myminiapp/ui/main/PokemonApp.kt:181-183 | home then Home's generate restores exactly the state that was left |
| `ScreenState.SelectThenBackRestores` | app/src/main/java/com/example/myminiapp/ui/main/PokemonApp.kt:156-159 | select then back restores the state except for the remembered selection |
| `View.RowsFrom` | app/src/main/java/com/example/myminiapp/ui/main/PokemonApp.kt:210-217 | one row per team, in order, numbered consecutively from the offset plus one |
| `View.SavedTeamsRows` | app/src/main/java/com/example/myminiapp/ui/main/PokemonApp.kt:209-217 | the i-th saved team (from 0) is listed in position i as "Team i+1" |
| `View.SaveAddsLastRow` | app/src/main/java/com/example/myminiapp/ui/main/PokemonApp.kt:210-212 | appending a team adds one row at the end numbered one past the previous count, and no row is renumbered |
| `View.GeneratorView` | app/src/main/java/com/example/myminiapp/ui/main/PokemonApp.kt:151-165 | details open: the selection's details, or blank when nothing is selected; otherwise loading exactly when there is no team or `isLoading` is set, and the team list in all other cases |
| `View.ViewOf` | app/src/main/java/com/example/myminiapp/ui/main/PokemonApp.kt:103-117 | Home iff `showHome`; the saved teams iff not Home and `showSavedTeamsList`, listing exactly the saved teams in order; the generator otherwise |
| `View.HomeRoundTripKeepsScreen` | app/src/main/java/com/example/myminiapp/ui/main/PokemonApp.kt:103-105 | leaving Home after going Home shows the very screen that was shown before |
| `View.SelectThenBackKeepsScreen` | app/src/main/java/com/example/myminiapp/ui/main/PokemonApp.kt:151-159 | opening and closing details brings back the same team list |
| `Session.Launch` | app/src/main/java/com/example/myminiapp/ui/main/PokemonApp.kt:92-96 | at launch the state is the initial one and the launch run is pending; setting `isLoading` changes nothing because it starts set |
| `Session.Wiring` | app/src/main/java/com/example/myminiapp/ui/main/PokemonApp.kt:103-188 | Home permits its generate and save buttons; the saved-teams list permits no user event; the generator permits generate, save, back, refresh, home, teams, and a click on a name of the shown team list; a pending generation may complete on any screen |
| `Session.Launched` | app/src/main/java/com/example/myminiapp/ui/main/PokemonApp.kt:137-138 | launching a run adds one pending run and raises `isLoading`, nothing else |
| `Session.Step` | app/src/main/java/com/example/myminiapp/ui/main/PokemonApp.kt:103-187 | every available event keeps the reachable-state invariant, only appends to the saved teams, and never lowers the saved-teams flag |
| `Session.Run` | app/src/main/java/com/example/myminiapp/ui/main/PokemonApp.kt:98-191 | over any run of events the invariant holds, saved teams are append-only, and the saved-teams flag stays raised |
| `Session.RunCons` | app/src/main/java/com/example/myminiapp/ui/main/PokemonApp.kt:103-187 | running an event and then the rest equals running them together |
| `Properties.LaunchCompletes` | app/src/main/java/com/example/myminiapp/ui/main/PokemonApp.kt:92-96 | the launch run stores a 6-name team, clears `isLoading`, leaves no run pending, and keeps Home up |
| `Properties.GenerateIsRefresh` | app/src/main/java/com/example/myminiapp/ui/main/PokemonApp.kt:174-180 | the generate button and the refresh button have the same effect |
| `Properties.RefreshThenComplete` | app/src/main/java/com/example/myminiapp/ui/main/PokemonApp.kt:136-142 | a refresh and its completion replace the team and clear `isLoading`; the flags, selection and saved teams are unchanged |
| `Properties.SaveIsTheSameEverywhere` | app/src/main/java/com/example/myminiapp/ui/main/PokemonApp.kt:143-147 | both save buttons append the current team when there is one, and are no-ops otherwise |
| `Properties.SavedTeamSurvivesRefresh` | app/src/main/java/com/example/myminiapp/ui/main/PokemonApp.kt:78-80 | a saved team stays in the list after a later generation replaces the current team |
| `Properties.SelectThenBack` | app/src/main/java/com/example/myminiapp/ui/main/PokemonApp.kt:156-159 | selecting shows that Pokémon's details; back returns to the previous screen and keeps the selection |
| `Properties.BackStaysOnGenerator` | app/src/main/java/com/example/myminiapp/ui/main/PokemonApp.kt:129 | after back the generator screen shows without details, never Home or the saved teams |
| `Properties.ValidGeneratorView` | app/src/main/java/com/example/myminiapp/ui/main/PokemonApp.kt:151-165 | in reachable states the details pane is never blank, and the loading circle shows exactly while `isLoading` is set with details closed |
| `Properties.SavedTeamsNeverUnderHome` | app/src/main/java/com/example/myminiapp/ui/main/PokemonApp.kt:181-187 | in a state reachable from launch, Home is never up while the saved-teams flag is raised |
| `Properties.GenerateAfterTeamsShowsTeams` | app/src/main/java/com/example/myminiapp/ui/main/PokemonApp.kt:103-115 | with the saved-teams flag raised, leaving Home shows the saved teams rather than the generator (premise unreachable from launch; see `SavedTeamsNeverUnderHome`) |
| `Properties.SavedTeamsHasNoExit` | app/src/main/java/com/example/myminiapp/ui/main/PokemonApp.kt:114-115 | once the saved teams show, every later sequence of events leaves them showing |
| `Properties.OverlappingGenerations` | app/src/main/java/com/example/myminiapp/ui/main/PokemonApp.kt:174-180 | a refresh while loading is accepted; the first completion clears `isLoading` and shows a team while a run is still pending |
| `Properties.RefreshKeepsDetails` | app/src/main/java/com/example/myminiapp/ui/main/PokemonApp.kt:174-180 | refresh from details keeps them open on a Pokémon that may no longer be in the new team |
| `Properties.WalkThrough` | app/src/main/java/com/example/myminiapp/ui/main/PokemonApp.kt:92-187 | launch, generate, open the third Pokémon, back, save, teams: the list shows exactly that team as "Team 1" |

## Behaviours of note

- There is no loading guard. A generate or refresh while a run is pending
  starts a second run, and the first completion clears `isLoading` while
  the second is still pending (`Properties.OverlappingGenerations`).
- Refresh keeps the details view open and keeps the selection, which may
  then name a Pokémon absent from the new team
  (`Properties.RefreshKeepsDetails`).
- The saved-teams screen wires no callback, and no handler lowers
  `showSavedTeamsList`, so once that screen shows it never goes away
  (`Properties.SavedTeamsHasNoExit`).
- There is no error handling: a failing run leaves `isLoading` set.
- The Home screen has its own save button, with the same effect as the
  generator screen's (`Properties.SaveIsTheSameEverywhere`).

## Left out

- The repository's implementation (network, caching, randomness, `PokemonState`): these are replaced by the per-run oracle. A `Pokemon` keeps only its name.
- Failures of repository calls: a throwing run would end its coroutine with `isLoading` still set. The code has no recovery path, so none is modelled.
- Interleaving inside a run: each run's twelve calls are one atomic completion step. Runs may still overlap with one another and with user events.
- Composables that are not shown (`HomeScreen`, `MainContent`, `PokemonDetails`, `MyTopAppBar`, `MyBottomAppBar`, `ButtonsForGeneratePage`, `LoadingCircle`): only their callback wiring is modelled. Back is assumed to be available on the whole generator screen. A list click is assumed to pass a name from the shown team.
- The platform back button: it is not part of this screen's code.
- Layout, colours, sizes, icons, spacers and `Modifier` chains.
- The text of a saved-team row: Kotlin's `List.toString` formatting is not modelled. A row keeps its number and team.
