/** `generateRandomPokemonNames`: a team is built by six sequential rounds,
    each asking the repository for a random Pokémon and then fetching that
    Pokémon's record by name (a call whose result is unused). */
module Generation {
  import opened Repository

  /** The `1..6` range of the generator. */
  const TeamSize: nat := 6

  /** A team: an ordered list of names. Duplicates are allowed. */
  type Team = seq<Name>

  /** Names collected by the first `k` rounds, in call order. */
  function Draws(o: Oracle, k: nat): (names: Team)
    ensures |names| == k
    ensures forall i :: 0 <= i < k ==> names[i] == o.random(i).name
  {
    if k == 0 then [] else Draws(o, k - 1) + [o.random(k - 1).name]
  }

  /** The team a completed generation run yields. */
  function GeneratedTeam(o: Oracle): (team: Team)
    ensures |team| == TeamSize
    ensures forall i :: 0 <= i < TeamSize ==> team[i] == o.random(i).name
  {
    Draws(o, TeamSize)
  }

  /** The repository calls made by the first `k` rounds, in order:
      a random draw, then a by-name fetch of exactly the drawn name. */
  function Calls(o: Oracle, k: nat): (calls: seq<Call>)
    ensures |calls| == 2 * k
    ensures forall i :: 0 <= i < k ==> calls[2 * i] == GetRandom(o.random(i))
    ensures forall i :: 0 <= i < k ==>
      calls[2 * i + 1] == GetByName(o.random(i).name, o.lookup(o.random(i).name))
  {
    if k == 0 then []
    else
      var p := o.random(k - 1);
      Calls(o, k - 1) + [GetRandom(p), GetByName(p.name, o.lookup(p.name))]
  }

  /** The generator as a loop over the rounds `1..6`. The by-name fetch
      of each round is made and recorded, but its answer is dropped: the
      same names come back whatever the repository answers by name. */
  method GenerateRandomPokemonNames(o: Oracle) returns (names: Team, calls: seq<Call>)
    ensures |names| == TeamSize
    ensures forall i :: 0 <= i < TeamSize ==> names[i] == o.random(i).name
    ensures names == GeneratedTeam(o)
    ensures forall l: Name -> Pokemon :: names == GeneratedTeam(Oracle(o.random, l))
    ensures calls == Calls(o, TeamSize)
  {
    names := [];
    calls := [];
    var round := 1;
    while round <= TeamSize
      invariant 1 <= round <= TeamSize + 1
      invariant names == Draws(o, round - 1)
      invariant calls == Calls(o, round - 1)
    {
      var randomPokemon := o.random(round - 1);
      calls := calls + [GetRandom(randomPokemon)];
      var discarded := o.lookup(randomPokemon.name);
      calls := calls + [GetByName(randomPokemon.name, discarded)];
      names := names + [randomPokemon.name];
      round := round + 1;
    }
  }

  /** The i-th name of the team is the name carried by the i-th random
      draw of the call trace, and the by-name fetch that follows that draw
      asks for exactly that name. */
  lemma TeamReadOffCalls(o: Oracle, i: nat)
    requires i < TeamSize
    ensures Calls(o, TeamSize)[2 * i].GetRandom?
    ensures GeneratedTeam(o)[i] == Calls(o, TeamSize)[2 * i].result.name
    ensures Calls(o, TeamSize)[2 * i + 1].GetByName?
    ensures Calls(o, TeamSize)[2 * i + 1].name == GeneratedTeam(o)[i]
  {
  }

  /** Exactly half of the twelve calls are random draws, and they come at
      even positions: the calls are strictly alternating. */
  lemma CallsAlternate(o: Oracle, j: nat)
    requires j < 2 * TeamSize
    ensures Calls(o, TeamSize)[j].GetRandom? <==> j % 2 == 0
  {
    var i := j / 2;
    if j % 2 == 0 {
      assert j == 2 * i;
    } else {
      assert j == 2 * i + 1;
      var p := o.random(i);
      assert Calls(o, TeamSize)[2 * i + 1] == GetByName(p.name, o.lookup(p.name));
    }
  }

  /** The by-name fetch's result is unused: two repositories that draw the
      same random Pokémon yield the same team, whatever their by-name
      answers. */
  lemma LookupIsDiscarded(o1: Oracle, o2: Oracle, k: nat)
    requires forall i :: 0 <= i < k ==> o1.random(i).name == o2.random(i).name
    ensures Draws(o1, k) == Draws(o2, k)
  {
  }

}
