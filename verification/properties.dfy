/** Properties of the running screen that relate several events. */
module Properties {
  import opened Optional
  import opened Repository
  import opened Generation
  import opened ScreenState
  import opened View
  import opened Session

  /** The launch generation stores a six-name team drawn from the
      repository, lowers the loading flag and leaves the Home screen up. */
  lemma LaunchCompletes(o: Oracle)
    ensures Available(Launch(), GenerationDone(o))
    ensures var t := Step(Launch(), GenerationDone(o));
      && t.app.randomPokemonNames == Some(GeneratedTeam(o))
      && |t.app.randomPokemonNames.value| == TeamSize
      && !t.app.isLoading
      && t.inFlight == 0
      && ViewOf(t.app) == HomeScreen
      && t.app.savedTeams == []
  {
  }

  /** The generate button and the refresh button are the same action. */
  lemma GenerateIsRefresh(s: Running)
    requires Available(s, GeneratorGenerate)
    ensures Available(s, Refresh)
    ensures Step(s, GeneratorGenerate) == Step(s, Refresh)
  {
  }

  /** A refresh followed by its completion replaces the current team and
      lowers the loading flag, and nothing else: flags, selection and saved
      teams are as before. */
  lemma RefreshThenComplete(s: Running, o: Oracle)
    requires Available(s, Refresh)
    ensures Available(Step(s, Refresh), GenerationDone(o))
    ensures var t := Step(Step(s, Refresh), GenerationDone(o));
      && t.app == s.app.(randomPokemonNames := Some(GeneratedTeam(o)), isLoading := false)
      && t.inFlight == s.inFlight
  {
  }

  /** Whichever save button is on screen (Home's or the generator's)
      appends the current team, or does nothing without one. */
  lemma SaveIsTheSameEverywhere(s: Running)
    requires Available(s, HomeSave) || Available(s, GeneratorSave)
    ensures var r := if Available(s, HomeSave) then Step(s, HomeSave) else Step(s, GeneratorSave);
      && r.inFlight == s.inFlight
      && (s.app.randomPokemonNames.None? ==> r == s)
      && (s.app.randomPokemonNames.Some? ==>
            r.app.savedTeams == s.app.savedTeams + [s.app.randomPokemonNames.value])
      && r.app.(savedTeams := s.app.savedTeams) == s.app
  {
  }

  /** Saving keeps a copy: the saved entry stays the generated team after a
      later generation replaces the current team. */
  lemma SavedTeamSurvivesRefresh(s: Running, o: Oracle)
    requires Valid(s) && Available(s, GeneratorSave) && s.app.randomPokemonNames.Some?
    ensures var saved := Step(s, GeneratorSave);
      && Available(saved, Refresh)
      && Available(Step(saved, Refresh), GenerationDone(o))
      && var t := Step(Step(saved, Refresh), GenerationDone(o));
         && t.app.savedTeams[|s.app.savedTeams|] == s.app.randomPokemonNames.value
         && t.app.randomPokemonNames == Some(GeneratedTeam(o))
  {
  }

  /** Selecting a Pokémon opens its details; back returns to the team list
      with the selection still remembered. */
  lemma SelectThenBack(s: Running, name: Name)
    requires Available(s, SelectItem(name))
    ensures var d := Step(s, SelectItem(name));
      && ViewOf(d.app) == GeneratorScreen(Details(name))
      && Available(d, Back)
      && var b := Step(d, Back);
         && ViewOf(b.app) == ViewOf(s.app)
         && b.app.selectedPokemonName == Some(name)
  {
  }

  /** Back from details always lands on the generator screen, never on
      Home or the saved teams. */
  lemma BackStaysOnGenerator(s: Running)
    requires Available(s, Back)
    ensures ViewOf(Step(s, Back).app).GeneratorScreen?
    ensures !ViewOf(Step(s, Back).app).body.Details?
  {
  }

  /** In a state reachable from launch the details pane is never blank and
      the loading circle shows exactly while `isLoading` is set and details
      are closed. With overlapping runs a generation can still be pending
      after `isLoading` is lowered (see `OverlappingGenerations`). */
  lemma ValidGeneratorView(s: Running)
    requires Valid(s) && ViewOf(s.app).GeneratorScreen?
    ensures !ViewOf(s.app).body.NoDetails?
    ensures ViewOf(s.app).body.Loading? <==> !s.app.showDetails && s.app.isLoading
  {
  }

  /** A reachable state never has Home up with the saved-teams flag raised:
      that flag is only raised away from Home, and then Home is never
      reached again. */
  lemma SavedTeamsNeverUnderHome(es: seq<Event>)
    requires Enabled(Launch(), es)
    ensures Valid(Run(Launch(), es))
    ensures var r := Run(Launch(), es); r.app.showSavedTeamsList ==> !r.app.showHome
  {
  }

  /** For the flags alone: with the saved-teams flag raised, leaving Home by
      its generate button shows the saved teams instead of the generator.
      No state reachable from launch meets this premise (see
      `SavedTeamsNeverUnderHome`), so in the running screen it holds only
      vacuously. */
  lemma GenerateAfterTeamsShowsTeams(s: AppState)
    requires s.showHome && s.showSavedTeamsList
    ensures ViewOf(LeaveHome(s)).SavedTeamsScreen?
  {
  }

  /** The saved-teams screen wires no callback: once it shows, every later
      sequence of events leaves it showing. */
  lemma {:induction false} SavedTeamsHasNoExit(s: Running, es: seq<Event>)
    requires Enabled(s, es) && ViewOf(s.app).SavedTeamsScreen?
    ensures ViewOf(Run(s, es).app).SavedTeamsScreen?
    decreases |es|
  {
    if |es| > 0 {
      var next := Step(s, es[0]);
      assert es[0].GenerationDone?;
      assert next.app.showHome == s.app.showHome;
      SavedTeamsHasNoExit(next, es[1..]);
    }
  }

  /** Nothing guards against overlapping generations: a refresh while one is
      pending is accepted, and the first completion lowers the loading flag
      and shows a team although the second run is still pending. */
  lemma OverlappingGenerations(s: Running, o: Oracle)
    requires Valid(s) && Available(s, Refresh) && s.app.isLoading && !s.app.showDetails
    ensures var t := Step(Step(s, Refresh), GenerationDone(o));
      && t.inFlight == s.inFlight >= 1
      && !t.app.isLoading
      && ViewOf(t.app) == GeneratorScreen(TeamList(GeneratedTeam(o)))
  {
  }

  /** Refresh neither closes the details nor drops the selection: the
      details stay up for a Pokémon that may no longer be in the team. */
  lemma RefreshKeepsDetails(s: Running, name: Name, o: Oracle)
    requires Available(s, SelectItem(name))
    requires forall i :: 0 <= i < TeamSize ==> o.random(i).name != name
    ensures Enabled(s, [SelectItem(name), Refresh, GenerationDone(o)])
    ensures var t := Run(s, [SelectItem(name), Refresh, GenerationDone(o)]);
      && ViewOf(t.app) == GeneratorScreen(Details(name))
      && t.app.randomPokemonNames == Some(GeneratedTeam(o))
      && name !in GeneratedTeam(o)
  {
    var d := Step(s, SelectItem(name));
    var r := Step(d, Refresh);
    var t := Step(r, GenerationDone(o));
    RunCons(r, GenerationDone(o), []);
    assert [GenerationDone(o)] + [] == [GenerationDone(o)];
    RunCons(d, Refresh, [GenerationDone(o)]);
    RunCons(s, SelectItem(name), [Refresh] + [GenerationDone(o)]);
    assert [SelectItem(name)] + ([Refresh] + [GenerationDone(o)]) == [SelectItem(name), Refresh, GenerationDone(o)];
  }

  /** The walk-through: launch, wait for the team, generate, open the third
      Pokémon, go back, save, and open the saved teams — which list that one
      team as "Team 1". */
  lemma WalkThrough(o: Oracle)
    ensures var team := GeneratedTeam(o);
      var es := [GenerationDone(o), HomeGenerate, SelectItem(team[2]), Back, GeneratorSave, TeamsButton];
      && Enabled(Launch(), es)
      && ViewOf(Run(Launch(), es).app) == SavedTeamsScreen([TeamRow(1, team)])
  {
    var team := GeneratedTeam(o);
    var es := [GenerationDone(o), HomeGenerate, SelectItem(team[2]), Back, GeneratorSave, TeamsButton];
    var s0 := Launch();
    var s1 := Step(s0, GenerationDone(o));
    var s2 := Step(s1, HomeGenerate);
    assert ViewOf(s2.app) == GeneratorScreen(TeamList(team));
    var s3 := Step(s2, SelectItem(team[2]));
    var s4 := Step(s3, Back);
    var s5 := Step(s4, GeneratorSave);
    var s6 := Step(s5, TeamsButton);
    assert s6.app.savedTeams == [team];
    RunCons(s5, TeamsButton, []);
    RunCons(s4, GeneratorSave, [TeamsButton]);
    RunCons(s3, Back, [GeneratorSave] + [TeamsButton]);
    RunCons(s2, SelectItem(team[2]), [Back] + ([GeneratorSave] + [TeamsButton]));
    RunCons(s1, HomeGenerate, [SelectItem(team[2])] + ([Back] + ([GeneratorSave] + [TeamsButton])));
    RunCons(s0, GenerationDone(o), [HomeGenerate] + ([SelectItem(team[2])] + ([Back] + ([GeneratorSave] + [TeamsButton]))));
    assert [GenerationDone(o)] + ([HomeGenerate] + ([SelectItem(team[2])] + ([Back] + ([GeneratorSave] + [TeamsButton])))) == es;
  }

}
