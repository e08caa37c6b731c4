/**
 * Biome (enum Biome in src/main.rs): the terrain of a room, its description
 * text, whether it grows trees, and the draw that picks a biome for a new
 * ground-level room.
 */
module Biomes {

  /** None is the default, the biome of every room that was never randomised. */
  datatype Biome = None | Forest | PineForest | Swamp | Mountain | Desert | Plain | Tundra

  /** Biome::has_trees. */
  function HasTrees(b: Biome): bool {
    match b
    case Forest => true
    case PineForest => true
    case Swamp => true
    case _ => false
  }

  /**
   * The Distribution<Biome> sample. The random source is replaced by its
   * draw, an integer from gen_range(0..=6); every draw gives a real biome.
   */
  function SampleBiome(draw: int): (b: Biome)
    requires 0 <= draw <= 6
    ensures b != None
  {
    match draw
    case 0 => Forest
    case 1 => PineForest
    case 2 => Swamp
    case 3 => Mountain
    case 4 => Desert
    case 5 => Plain
    case _ => Tundra
  }

  /** The draw that SampleBiome turns into b. */
  function DrawFor(b: Biome): (draw: int)
    requires b != None
    ensures 0 <= draw <= 6
  {
    match b
    case Forest => 0
    case PineForest => 1
    case Swamp => 2
    case Mountain => 3
    case Desert => 4
    case Plain => 5
    case Tundra => 6
  }

  /** The Into<&'static str> conversion: how a room of this biome is described. */
  function Description(b: Biome): string {
    match b
    case None => ""
    case Forest => "in a forest"
    case PineForest => "in a pine forest"
    case Swamp => "knee deep in a swamp"
    case Mountain => "in a mountain range"
    case Desert => "in a desert"
    case Plain => "in a grassy plain"
    case Tundra => "in a frozen tundra"
  }

  /** has_trees holds exactly for forest, pine forest and swamp. */
  lemma HasTreesExactly(b: Biome)
    ensures HasTrees(b) <==> b in {Forest, PineForest, Swamp}
  {
  }

  /** SampleBiome and DrawFor are inverse: the draw reaches every biome but None. */
  lemma SampleRoundTrip(b: Biome, draw: int)
    requires 0 <= draw <= 6
    ensures b != None ==> SampleBiome(DrawFor(b)) == b
    ensures DrawFor(SampleBiome(draw)) == draw
  {
  }

  /** Distinct draws give distinct biomes. */
  lemma SampleInjective(d1: int, d2: int)
    requires 0 <= d1 <= 6 && 0 <= d2 <= 6
    ensures SampleBiome(d1) == SampleBiome(d2) ==> d1 == d2
  {
  }

  /**
   * Each of the seven biomes is the image of exactly one of the seven draws,
   * so a uniform draw gives each biome with weight 1/7.
   */
  lemma OneDrawPerBiome(b: Biome)
    requires b != None
    ensures (set draw | 0 <= draw <= 6 && SampleBiome(draw) == b) == {DrawFor(b)}
  {
  }

  /** A sampled biome has trees exactly for the draws 0, 1 and 2. */
  lemma TreesForDraw(draw: int)
    requires 0 <= draw <= 6
    ensures HasTrees(SampleBiome(draw)) <==> draw <= 2
  {
  }

  /** Each biome has its own description, and only None has the empty one. */
  lemma DescriptionsDistinct(b1: Biome, b2: Biome)
    ensures Description(b1) == Description(b2) ==> b1 == b2
    ensures Description(b1) == "" <==> b1 == None
  {
  }
}
