/** The Pokémon repository as seen by the screen: an oracle that answers
    the two lookups the generator makes. How it fetches, caches or
    randomises is not modelled. */
module Repository {

  /** A Pokémon's name, the identifier the whole screen works with. */
  type Name = string

  /** A fetched record. Only its name is observed by the screen logic. */
  datatype Pokemon = Pokemon(name: Name)

  /** Answers for one generation run: `random(i)` is what the i-th
      `getRandomPokemon` call of the run returns (counting from 0), and
      `lookup(n)` is what `getPokemon(n)` returns. */
  datatype Oracle = Oracle(random: nat -> Pokemon, lookup: Name -> Pokemon)

  /** One repository call together with the record it returned. */
  datatype Call =
    | GetRandom(result: Pokemon)
    | GetByName(name: Name, result: Pokemon)

}
