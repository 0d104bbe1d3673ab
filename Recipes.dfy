/**
 * The recipe catalogue of the page and the lookup `getRecipeDetails`
 * (script.js:137-281): a fixed table of six recipes keyed by the exact card
 * title, and a placeholder record for every other title.
 */
module Recipes {

  /** One recipe as the modal shows it; the two lists keep their order. */
  datatype Recipe = Recipe(
    title: string,
    emoji: string,
    time: string,
    ingredients: seq<string>,
    instructions: seq<string>)

  // The six recipes of the table (script.js:139-271).

  const RainbowQuinoaBowl: Recipe := Recipe(
    "Rainbow Quinoa Bowl",
    "\U{1F957}",  // salad
    "\U{23F1}\U{FE0F} 15 minutes",
    [ "1 cup quinoa",
      "2 cups water",
      "1 bell pepper (diced)",
      "1 cucumber (diced)",
      "1 avocado (sliced)",
      "2 tbsp tahini",
      "1 tbsp lemon juice",
      "Salt and pepper to taste" ],
    [ "Cook quinoa according to package instructions",
      "While quinoa cooks, dice the bell pepper and cucumber",
      "Mix tahini with lemon juice and a pinch of salt",
      "Combine cooked quinoa with vegetables",
      "Top with avocado slices and drizzle with tahini dressing",
      "Season with salt and pepper" ])

  const VeggieScramble: Recipe := Recipe(
    "Veggie Scramble",
    "\U{1F373}",  // frying pan
    "\U{23F1}\U{FE0F} 10 minutes",
    [ "3 eggs",
      "1 cup fresh spinach",
      "1 tomato (diced)",
      "1/4 cup shredded cheese",
      "1 tbsp olive oil",
      "Salt and pepper to taste" ],
    [ "Heat olive oil in a non-stick pan over medium heat",
      "Add spinach and cook until wilted",
      "Beat eggs in a bowl with salt and pepper",
      "Pour eggs into the pan with spinach",
      "Add diced tomatoes and scramble gently",
      "Top with cheese and serve immediately" ])

  const GreenSmoothie: Recipe := Recipe(
    "Green Smoothie",
    "\U{1F964}",  // cup with straw
    "\U{23F1}\U{FE0F} 5 minutes",
    [ "2 cups fresh spinach",
      "1 banana",
      "1/2 cup mixed berries",
      "1 cup almond milk",
      "1 tbsp honey (optional)",
      "1/2 cup ice" ],
    [ "Add spinach to blender first",
      "Add banana, berries, and almond milk",
      "Blend on high for 30 seconds",
      "Add ice and blend until smooth",
      "Taste and add honey if desired",
      "Pour into glass and enjoy immediately" ])

  const BlackBeanTacos: Recipe := Recipe(
    "Black Bean Tacos",
    "\U{1F32E}",  // taco
    "\U{23F1}\U{FE0F} 20 minutes",
    [ "1 can black beans (drained)",
      "6 corn tortillas",
      "1 avocado (sliced)",
      "1 lime (juiced)",
      "1/2 red onion (diced)",
      "1/4 cup cilantro",
      "1 tsp cumin",
      "Salt to taste" ],
    [ "Heat black beans in a pan with cumin and salt",
      "Warm tortillas in a dry pan or microwave",
      "Mash half the beans slightly for texture",
      "Fill tortillas with beans",
      "Top with avocado, onion, and cilantro",
      "Drizzle with lime juice and serve" ])

  const ZucchiniPasta: Recipe := Recipe(
    "Zucchini Pasta",
    "\U{1F35D}",  // spaghetti
    "\U{23F1}\U{FE0F} 25 minutes",
    [ "3 medium zucchinis",
      "2 cups marinara sauce",
      "2 cloves garlic (minced)",
      "2 tbsp olive oil",
      "1/4 cup fresh basil",
      "1/4 cup parmesan cheese",
      "Salt and pepper to taste" ],
    [ "Spiralize zucchinis into noodle shapes",
      "Heat olive oil in a large pan",
      "Add garlic and cook for 1 minute",
      "Add zucchini noodles and cook for 3-4 minutes",
      "Add marinara sauce and heat through",
      "Top with basil and parmesan cheese" ])

  const MediterraneanWrap: Recipe := Recipe(
    "Mediterranean Wrap",
    "\U{1F959}",  // stuffed flatbread
    "\U{23F1}\U{FE0F} 12 minutes",
    [ "2 whole wheat tortillas",
      "1/2 cup hummus",
      "1 cucumber (sliced)",
      "1/4 cup feta cheese",
      "1/4 cup kalamata olives",
      "1/4 cup red onion (sliced)",
      "2 tbsp olive oil",
      "Salt and pepper to taste" ],
    [ "Warm tortillas slightly",
      "Spread hummus evenly on tortillas",
      "Layer cucumber, feta, olives, and onion",
      "Drizzle with olive oil",
      "Season with salt and pepper",
      "Roll tightly and slice in half" ])

  /** The table of known recipes, keyed by card title (script.js:138-272). */
  const Catalog: map<string, Recipe> := map[
    "Rainbow Quinoa Bowl" := RainbowQuinoaBowl,
    "Veggie Scramble" := VeggieScramble,
    "Green Smoothie" := GreenSmoothie,
    "Black Bean Tacos" := BlackBeanTacos,
    "Zucchini Pasta" := ZucchiniPasta,
    "Mediterranean Wrap" := MediterraneanWrap
  ]

  /** Fields of the placeholder record (script.js:276-279). */
  const PlaceholderEmoji: string := "\U{1F37D}\U{FE0F}"  // fork and knife with plate
  const PlaceholderTime: string := "\U{23F1}\U{FE0F} 15 minutes"
  const PlaceholderIngredient: string := "Recipe details coming soon!"
  const PlaceholderInstruction: string := "Check back later for full instructions!"

  /** The record synthesised for a title that is not in the table. */
  function Placeholder(title: string): Recipe {
    Recipe(title, PlaceholderEmoji, PlaceholderTime, [PlaceholderIngredient], [PlaceholderInstruction])
  }

  /**
   * `getRecipeDetails(title)`: the table entry when there is one, otherwise
   * the placeholder. It is total, its result always carries the title it was
   * asked for, and both lists are never empty.
   */
  function GetRecipeDetails(title: string): (r: Recipe)
    ensures title in Catalog ==> r == Catalog[title]
    ensures title !in Catalog ==>
      && r.emoji == "\U{1F37D}\U{FE0F}"
      && r.time == "\U{23F1}\U{FE0F} 15 minutes"
      && r.ingredients == ["Recipe details coming soon!"]
      && r.instructions == ["Check back later for full instructions!"]
    ensures r.title == title
    ensures |r.ingredients| > 0 && |r.instructions| > 0
  {
    if title in Catalog then Catalog[title] else Placeholder(title)
  }

  /** The table has exactly the six card titles of the page as keys. */
  lemma CatalogKeys()
    ensures Catalog.Keys == {"Rainbow Quinoa Bowl", "Veggie Scramble", "Green Smoothie",
                             "Black Bean Tacos", "Zucchini Pasta", "Mediterranean Wrap"}
    ensures |Catalog| == 6
  {
  }

  /** Every entry is stored under its own title and has six instructions. */
  lemma CatalogEntries()
    ensures forall k :: k in Catalog ==>
      && Catalog[k].title == k
      && |Catalog[k].instructions| == 6
      && 6 <= |Catalog[k].ingredients| <= 8
  {
  }

  /** Over all titles: six instructions for a known recipe, one for any other. */
  lemma InstructionCount(title: string)
    ensures |GetRecipeDetails(title).instructions| == if title in Catalog then 6 else 1
  {
    CatalogEntries();
  }

  /** Spot checks of the table's contents (script.js:139-160, 183-194, 227-239). */
  lemma SpotChecks()
    ensures |GetRecipeDetails("Rainbow Quinoa Bowl").ingredients| == 8
    ensures |GetRecipeDetails("Rainbow Quinoa Bowl").instructions| == 6
    ensures GetRecipeDetails("Green Smoothie").emoji == "\U{1F964}"  // cup with straw
    ensures |GetRecipeDetails("Green Smoothie").ingredients| == 6
    ensures |GetRecipeDetails("Zucchini Pasta").ingredients| == 7
  {
  }

  /** A title that is not in the table, such as "nonexistent", gets the placeholder. */
  lemma UnknownTitle()
    ensures GetRecipeDetails("nonexistent") == Recipe(
      "nonexistent", "\U{1F37D}\U{FE0F}", "\U{23F1}\U{FE0F} 15 minutes",
      ["Recipe details coming soon!"], ["Check back later for full instructions!"])
  {
    CatalogKeys();
  }
}
