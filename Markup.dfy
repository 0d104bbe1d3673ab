/**
 * The markup the recipe button writes into the modal panel (the template of
 * script.js:82-121): title, emoji and time at fixed places, the ingredients
 * as `<li>` items inside a `<ul>`, then the instructions as `<li>` items
 * inside an `<ol>`, each list built with `map(...).join('')`. Nothing is
 * escaped. `ParseModal` reads such markup back; it is the partner the
 * renderer is proved against.
 *
 * The functions and proofs are written over a `Template`, the fixed text
 * between the interpolated values; `Panel` is the page's own template, and
 * `RenderModal` and `ParseModal` use it.
 */
module Markup {
  import opened Options
  import opened Recipes

  // The fixed text of script.js:82-121 between the interpolated values.

  const BeforeTitle: string :=
    "\n" +
    "            <button style=\"\n" +
    "                position: absolute;\n" +
    "                top: 1rem;\n" +
    "                right: 1rem;\n" +
    "                background: #ff6b6b;\n" +
    "                color: white;\n" +
    "                border: none;\n" +
    "                border-radius: 50%;\n" +
    "                width: 30px;\n" +
    "                height: 30px;\n" +
    "                cursor: pointer;\n" +
    "                font-size: 1.2rem;\n" +
    "            \" onclick=\"this.closest('.modal').remove()\">\U{D7}</button>\n" +
    "            <h2 style=\"color: #333; margin-bottom: 1rem; text-align: center;\">"

  const BeforeEmoji: string :=
    "</h2>\n" +
    "            <div style=\"text-align: center; margin-bottom: 1.5rem;\">\n" +
    "                <span style=\"font-size: 3rem;\">"

  const BeforeTime: string :=
    "</span>\n" +
    "                <p style=\"color: #ff6b6b; font-weight: 600; margin-top: 0.5rem;\">"

  const BeforeIngredients: string :=
    "</p>\n" +
    "            </div>\n" +
    "            <h3 style=\"color: #333; margin-bottom: 1rem;\">Ingredients:</h3>\n" +
    "            <ul style=\"margin-bottom: 1.5rem; padding-left: 1.5rem;\">\n" +
    "                "

  const BeforeInstructions: string :=
    "\n" +
    "            </ul>\n" +
    "            <h3 style=\"color: #333; margin-bottom: 1rem;\">Instructions:</h3>\n" +
    "            <ol style=\"padding-left: 1.5rem;\">\n" +
    "                "

  const AfterInstructions: string :=
    "\n" +
    "            </ol>\n" +
    "            <div style=\"text-align: center; margin-top: 2rem;\">\n" +
    "                <button style=\"\n" +
    "                    background: linear-gradient(45deg, #ff6b6b, #4ecdc4);\n" +
    "                    color: white;\n" +
    "                    border: none;\n" +
    "                    padding: 1rem 2rem;\n" +
    "                    border-radius: 25px;\n" +
    "                    cursor: pointer;\n" +
    "                    font-weight: 600;\n" +
    "                    font-size: 1rem;\n" +
    "                \" onclick=\"this.closest('.modal').remove()\">Close</button>\n" +
    "            </div>\n" +
    "        "

  // The item tags are written as "<li" plus the rest so that the verifier can
  // see their first character, which a single long literal hides from it.
  const IngredientOpen: string := "<li" + " style=\"margin-bottom: 0.5rem; color: #666;\">"
  const InstructionOpen: string := "<li" + " style=\"margin-bottom: 0.8rem; color: #666; line-height: 1.5;\">"
  const ItemClose: string := "</li>"

  /** The fixed text of a panel, in the order it appears. */
  datatype Template = Template(
    beforeTitle: string,
    beforeEmoji: string,
    beforeTime: string,
    beforeIngredients: string,
    beforeInstructions: string,
    afterInstructions: string,
    ingredientOpen: string,
    instructionOpen: string)

  const Panel: Template := Template(
    BeforeTitle, BeforeEmoji, BeforeTime, BeforeIngredients,
    BeforeInstructions, AfterInstructions, IngredientOpen, InstructionOpen)

  /** One list item: the callback given to `map` in script.js:103 and 107. */
  function Item(open: string, x: string): string {
    open + x + ItemClose
  }

  /** `items.map(x => Item(open, x))`. */
  function MapItem(open: string, xs: seq<string>): seq<string> {
    if xs == [] then [] else [Item(open, xs[0])] + MapItem(open, xs[1..])
  }

  /** `Array.prototype.join`: the parts with `sep` between neighbours. */
  function Join(parts: seq<string>, sep: string): string {
    if |parts| == 0 then ""
    else if |parts| == 1 then parts[0]
    else parts[0] + sep + Join(parts[1..], sep)
  }

  /** `items.map(...).join('')`. */
  function ListItems(open: string, xs: seq<string>): string {
    Join(MapItem(open, xs), "")
  }

  /** The panel markup for one recipe, with the fixed text of `t`. */
  function RenderWith(t: Template, r: Recipe): string {
    t.beforeTitle + r.title + t.beforeEmoji + r.emoji + t.beforeTime + r.time
    + t.beforeIngredients + ListItems(t.ingredientOpen, r.ingredients)
    + t.beforeInstructions + ListItems(t.instructionOpen, r.instructions)
    + t.afterInstructions
  }

  /** The markup the page writes into the modal panel for `r`. */
  function RenderModal(r: Recipe): string {
    RenderWith(Panel, r)
  }

  /** Mapping makes exactly one item per element, in the original order. */
  lemma {:induction false} MapItemInOrder(open: string, xs: seq<string>)
    ensures |MapItem(open, xs)| == |xs|
    ensures forall i :: 0 <= i < |xs| ==> MapItem(open, xs)[i] == open + xs[i] + "</li>"
  {
    if xs != [] {
      MapItemInOrder(open, xs[1..]);
    }
  }

  /** With the empty separator the items are simply concatenated. */
  lemma ListItemsCons(open: string, xs: seq<string>)
    requires xs != []
    ensures ListItems(open, xs) == open + xs[0] + "</li>" + ListItems(open, xs[1..])
  {
    if |xs| == 1 {
      assert MapItem(open, xs[1..]) == [];
    }
  }

  /** The list markup of two lists in a row is that of their concatenation. */
  lemma {:induction false} ListItemsAppend(open: string, xs: seq<string>, ys: seq<string>)
    ensures ListItems(open, xs + ys) == ListItems(open, xs) + ListItems(open, ys)
  {
    if xs == [] {
      assert xs + ys == ys;
    } else {
      assert (xs + ys)[1..] == xs[1..] + ys;
      ListItemsCons(open, xs + ys);
      ListItemsCons(open, xs);
      ListItemsAppend(open, xs[1..], ys);
    }
  }

  // Reading the markup back.

  /** A value that contains no `<`: the template leaves such a value intact. */
  predicate Plain(s: string) {
    forall i :: 0 <= i < |s| ==> s[i] != '<'
  }

  predicate AllPlain(xs: seq<string>) {
    forall i :: 0 <= i < |xs| ==> Plain(xs[i])
  }

  predicate PlainRecipe(r: Recipe) {
    Plain(r.title) && Plain(r.emoji) && Plain(r.time)
    && AllPlain(r.ingredients) && AllPlain(r.instructions)
  }

  /** What follows `lit` in `s`, when `s` starts with `lit`. */
  function Expect(s: string, lit: string): (r: Option<string>)
    ensures r.Some? ==> s == lit + r.value
  {
    if lit <= s then Some(s[|lit|..]) else None
  }

  /** The longest prefix of `s` without `<`, and the rest. */
  function Field(s: string): (r: (string, string))
    ensures r.0 + r.1 == s
    ensures Plain(r.0)
    ensures r.1 == [] || r.1[0] == '<'
  {
    if s == [] || s[0] == '<' then ([], s)
    else
      var (a, b) := Field(s[1..]);
      ([s[0]] + a, b)
  }

  /** As many `open`-tagged items as `s` starts with, and the rest. */
  function ParseItems(open: string, s: string): (r: (seq<string>, string))
    ensures ListItems(open, r.0) + r.1 == s
    ensures AllPlain(r.0)
    decreases |s|
  {
    if 0 < |open| && open <= s then
      var (x, rest) := Field(s[|open|..]);
      if ItemClose <= rest then
        var (xs, tail) := ParseItems(open, rest[|ItemClose|..]);
        ItemsRead(open, s, x, rest, xs, tail);
        ([x] + xs, tail)
      else ([], s)
    else ([], s)
  }

  /** The step of `ParseItems` that reads one item. */
  lemma ItemsRead(open: string, s: string, x: string, rest: string, xs: seq<string>, tail: string)
    requires open <= s && x + rest == s[|open|..] && ItemClose <= rest
    requires ListItems(open, xs) + tail == rest[|ItemClose|..]
    ensures ListItems(open, [x] + xs) + tail == s
  {
    ListItemsCons(open, [x] + xs);
    assert ([x] + xs)[1..] == xs;
    assert rest == ItemClose + rest[|ItemClose|..];
    assert s == open + s[|open|..];
    calc {
      ListItems(open, [x] + xs) + tail;
      open + x + ItemClose + ListItems(open, xs) + tail;
      open + (x + (ItemClose + (ListItems(open, xs) + tail)));
      open + (x + rest);
      s;
    }
  }

  /**
   * Reads panel markup with the fixed text of `t` back into the recipe it
   * shows, or `None` when the text is not such markup. Anything it accepts
   * is exactly what `RenderWith` produces for the recipe it returns.
   */
  function ParseWith(t: Template, s: string): (r: Option<Recipe>)
    ensures r.Some? ==> RenderWith(t, r.value) == s && PlainRecipe(r.value)
  {
    var a :- Expect(s, t.beforeTitle);
    var (title, a') := Field(a);
    var b :- Expect(a', t.beforeEmoji);
    var (emoji, b') := Field(b);
    var c :- Expect(b', t.beforeTime);
    var (time, c') := Field(c);
    var d :- Expect(c', t.beforeIngredients);
    var (ingredients, d') := ParseItems(t.ingredientOpen, d);
    var e :- Expect(d', t.beforeInstructions);
    var (instructions, e') := ParseItems(t.instructionOpen, e);
    var f :- Expect(e', t.afterInstructions);
    if f == [] then
      Reassemble(t, s, a, a', b, b', c, c', d, d', e, e', f,
        Recipe(title, emoji, time, ingredients, instructions));
      Some(Recipe(title, emoji, time, ingredients, instructions))
    else None
  }

  /** The pieces `ParseWith` splits markup into put it back together. */
  lemma Reassemble(t: Template, s: string, a: string, a': string, b: string, b': string,
                   c: string, c': string, d: string, d': string, e: string, e': string,
                   f: string, r: Recipe)
    requires s == t.beforeTitle + a && a == r.title + a'
    requires a' == t.beforeEmoji + b && b == r.emoji + b'
    requires b' == t.beforeTime + c && c == r.time + c'
    requires c' == t.beforeIngredients + d && d == ListItems(t.ingredientOpen, r.ingredients) + d'
    requires d' == t.beforeInstructions + e && e == ListItems(t.instructionOpen, r.instructions) + e'
    requires e' == t.afterInstructions + f && f == []
    ensures RenderWith(t, r) == s
  {
  }

  /** Reads the page's panel markup back into the recipe it shows. */
  function ParseModal(s: string): (r: Option<Recipe>)
    ensures r.Some? ==> RenderModal(r.value) == s && PlainRecipe(r.value)
  {
    ParseWith(Panel, s)
  }

  // Rendering then parsing gives the recipe back.

  /** What a template needs for its values to be read back: each value is followed by `<`, and each list by text that does not open another item. */
  predicate Fits(t: Template) {
    && |t.beforeEmoji| > 0 && t.beforeEmoji[0] == '<'
    && |t.beforeTime| > 0 && t.beforeTime[0] == '<'
    && |t.beforeIngredients| > 0 && t.beforeIngredients[0] == '<'
    && |t.ingredientOpen| > 0 && |t.instructionOpen| > 0
    && |t.beforeInstructions| > 0 && t.beforeInstructions[0] != t.ingredientOpen[0]
    && |t.afterInstructions| > 0 && t.afterInstructions[0] != t.instructionOpen[0]
  }

  lemma PanelFits()
    ensures Fits(Panel)
  {
    assert BeforeInstructions[0] == '\n' && IngredientOpen[0] == '<';
    assert AfterInstructions[0] == '\n' && InstructionOpen[0] == '<';
  }

  lemma ExpectConcat(lit: string, rest: string)
    ensures Expect(lit + rest, lit) == Some(rest)
  {
    assert (lit + rest)[|lit|..] == rest;
  }

  /** A value without `<` followed by a tag is read back whole. */
  lemma {:induction false} FieldConcat(x: string, rest: string)
    requires Plain(x)
    requires rest == [] || rest[0] == '<'
    ensures Field(x + rest) == (x, rest)
  {
    if x != [] {
      assert (x + rest)[1..] == x[1..] + rest;
      FieldConcat(x[1..], rest);
      assert [x[0]] + x[1..] == x;
    } else {
      assert x + rest == rest;
    }
  }

  /** Reading one item whose value contains no `<`. */
  lemma ParseItemsStep(open: string, x: string, tail: string)
    requires |open| > 0 && Plain(x)
    ensures ParseItems(open, open + (x + (ItemClose + tail)))
         == ([x] + ParseItems(open, tail).0, ParseItems(open, tail).1)
  {
    var m := x + (ItemClose + tail);
    var s := open + m;
    assert s[..|open|] == open;
    assert s[|open|..] == m;
    FieldConcat(x, ItemClose + tail);
    assert ItemClose <= ItemClose + tail;
    assert (ItemClose + tail)[|ItemClose|..] == tail;
  }

  lemma ListItemsSplit(open: string, xs: seq<string>, rest: string)
    requires xs != []
    ensures ListItems(open, xs) + rest
         == open + (xs[0] + (ItemClose + (ListItems(open, xs[1..]) + rest)))
  {
    ListItemsCons(open, xs);
  }

  lemma AllPlainTail(xs: seq<string>)
    requires xs != [] && AllPlain(xs)
    ensures AllPlain(xs[1..])
  {
    forall i | 0 <= i < |xs[1..]| ensures Plain(xs[1..][i]) {
      assert xs[1..][i] == xs[i + 1];
    }
  }

  /** A list of items without `<` is read back item by item, in order. */
  lemma {:induction false} ParseItemsConcat(open: string, xs: seq<string>, rest: string)
    requires |open| > 0
    requires AllPlain(xs)
    requires !(open <= rest)
    ensures ParseItems(open, ListItems(open, xs) + rest) == (xs, rest)
  {
    if xs == [] {
      assert ListItems(open, xs) + rest == rest;
    } else {
      var tail := ListItems(open, xs[1..]) + rest;
      ListItemsSplit(open, xs, rest);
      assert Plain(xs[0]);
      ParseItemsStep(open, xs[0], tail);
      AllPlainTail(xs);
      ParseItemsConcat(open, xs[1..], rest);
      assert [xs[0]] + xs[1..] == xs;
    }
  }

  lemma NotPrefix(open: string, s: string)
    requires |open| > 0 && |s| > 0 && s[0] != open[0]
    ensures !(open <= s)
  {
  }

  /** For a template that fits, parsing undoes rendering of any recipe whose values contain no `<`. */
  lemma ParseWithRender(t: Template, r: Recipe)
    requires Fits(t)
    requires PlainRecipe(r)
    ensures ParseWith(t, RenderWith(t, r)) == Some(r)
  {
    var f := t.afterInstructions;
    var e := ListItems(t.instructionOpen, r.instructions) + f;
    var d' := t.beforeInstructions + e;
    var d := ListItems(t.ingredientOpen, r.ingredients) + d';
    var c' := t.beforeIngredients + d;
    var c := r.time + c';
    var b' := t.beforeTime + c;
    var b := r.emoji + b';
    var a' := t.beforeEmoji + b;
    var a := r.title + a';
    var s := t.beforeTitle + a;
    assert f + [] == f;
    Reassemble(t, s, a, a', b, b', c, c', d, d', e, f, [], r);
    ExpectConcat(t.beforeTitle, a);
    FieldConcat(r.title, a');
    ExpectConcat(t.beforeEmoji, b);
    FieldConcat(r.emoji, b');
    ExpectConcat(t.beforeTime, c);
    FieldConcat(r.time, c');
    ExpectConcat(t.beforeIngredients, d);
    NotPrefix(t.ingredientOpen, d');
    ParseItemsConcat(t.ingredientOpen, r.ingredients, d');
    ExpectConcat(t.beforeInstructions, e);
    NotPrefix(t.instructionOpen, f);
    ParseItemsConcat(t.instructionOpen, r.instructions, f);
    ExpectConcat(t.afterInstructions, []);
  }

  /** The page's panel markup shows every recipe whose values contain no `<` recoverably: title, emoji, time, and both lists item by item in order. */
  lemma ModalRoundTrip(r: Recipe)
    requires PlainRecipe(r)
    ensures ParseModal(RenderModal(r)) == Some(r)
  {
    PanelFits();
    ParseWithRender(Panel, r);
  }

  /** Two recipes whose values contain no `<` render to the same markup only if they are equal. */
  lemma RenderModalInjective(r1: Recipe, r2: Recipe)
    requires PlainRecipe(r1) && PlainRecipe(r2)
    requires RenderModal(r1) == RenderModal(r2)
    ensures r1 == r2
  {
    ModalRoundTrip(r1);
    ModalRoundTrip(r2);
  }

  /** Without escaping, one value that contains item tags renders like two items. */
  lemma UnescapedItemsCollide(open: string, x: string, y: string)
    ensures ListItems(open, [x + ItemClose + open + y]) == ListItems(open, [x, y])
  {
    ListItemsCons(open, [x, y]);
    ListItemsCons(open, [y]);
    assert [x, y][1..] == [y];
    assert [y][1..] == [];
    ListItemsCons(open, [x + ItemClose + open + y]);
    assert [x + ItemClose + open + y][1..] == [];
  }

  // What the page shows for a looked-up title.

  /** A card whose title is unknown and contains no `<` gets a panel that reads back as the placeholder. */
  lemma PlaceholderPanel(title: string)
    requires Plain(title) && title !in Catalog
    ensures ParseModal(RenderModal(GetRecipeDetails(title))) == Some(Recipe(
      title, "\U{1F37D}\U{FE0F}", "\U{23F1}\U{FE0F} 15 minutes",
      ["Recipe details coming soon!"], ["Check back later for full instructions!"]))
  {
    assert Plain(PlaceholderEmoji) && Plain(PlaceholderTime);
    assert Plain(PlaceholderIngredient) && Plain(PlaceholderInstruction);
    ModalRoundTrip(Placeholder(title));
  }

  /** A value assembled from three pieces without `<` contains no `<`. */
  lemma PlainPieces(a: string, b: string, c: string)
    requires Plain(a) && Plain(b) && Plain(c)
    ensures Plain(a + b + c)
  {
    forall i | 0 <= i < |a + b + c| ensures (a + b + c)[i] != '<' {
      if i < |a| {
        assert (a + b + c)[i] == a[i];
      } else if i < |a| + |b| {
        assert (a + b + c)[i] == b[i - |a|];
      } else {
        assert (a + b + c)[i] == c[i - |a| - |b|];
      }
    }
  }

  // No value of the six recipes contains `<`. Values of 38 characters or
  // more are checked piece by piece: the verifier does not look that deep
  // into a single string literal.

  lemma RainbowQuinoaBowlIngredientsPlain()
    ensures AllPlain(RainbowQuinoaBowl.ingredients)
  {
    var xs := RainbowQuinoaBowl.ingredients;
    assert Plain(xs[0]) && Plain(xs[1]) && Plain(xs[2]) && Plain(xs[3]);
    assert Plain(xs[4]) && Plain(xs[5]) && Plain(xs[6]) && Plain(xs[7]);
  }

  lemma RainbowQuinoaBowlInstruction0Plain()
    ensures Plain("Cook quinoa according to package instructions")
  {
    PlainPieces("Cook quinoa according ", "to package ", "instructions");
    assert "Cook quinoa according " + "to package " + "instructions" == "Cook quinoa according to package instructions";
  }

  lemma RainbowQuinoaBowlInstruction1Plain()
    ensures Plain("While quinoa cooks, dice the bell pepper and cucumber")
  {
    PlainPieces("While quinoa cooks, ", "dice the bell pepper ", "and cucumber");
    assert "While quinoa cooks, " + "dice the bell pepper " + "and cucumber" == "While quinoa cooks, dice the bell pepper and cucumber";
  }

  lemma RainbowQuinoaBowlInstruction2Plain()
    ensures Plain("Mix tahini with lemon juice and a pinch of salt")
  {
    PlainPieces("Mix tahini with ", "lemon juice and ", "a pinch of salt");
    assert "Mix tahini with " + "lemon juice and " + "a pinch of salt" == "Mix tahini with lemon juice and a pinch of salt";
  }

  lemma RainbowQuinoaBowlInstruction4Plain()
    ensures Plain("Top with avocado slices and drizzle with tahini dressing")
  {
    PlainPieces("Top with avocado slices ", "and drizzle with ", "tahini dressing");
    assert "Top with avocado slices " + "and drizzle with " + "tahini dressing" == "Top with avocado slices and drizzle with tahini dressing";
  }

  lemma RainbowQuinoaBowlInstructionsPlain()
    ensures AllPlain(RainbowQuinoaBowl.instructions)
  {
    var xs := RainbowQuinoaBowl.instructions;
    RainbowQuinoaBowlInstruction0Plain();
    assert xs[0] == "Cook quinoa according to package instructions";
    RainbowQuinoaBowlInstruction1Plain();
    assert xs[1] == "While quinoa cooks, dice the bell pepper and cucumber";
    RainbowQuinoaBowlInstruction2Plain();
    assert xs[2] == "Mix tahini with lemon juice and a pinch of salt";
    RainbowQuinoaBowlInstruction4Plain();
    assert xs[4] == "Top with avocado slices and drizzle with tahini dressing";
    assert Plain(xs[0]) && Plain(xs[1]) && Plain(xs[2]) && Plain(xs[3]);
    assert Plain(xs[4]) && Plain(xs[5]);
  }

  lemma RainbowQuinoaBowlPlain()
    ensures PlainRecipe(RainbowQuinoaBowl)
  {
    assert Plain(RainbowQuinoaBowl.title) && Plain(RainbowQuinoaBowl.emoji) && Plain(RainbowQuinoaBowl.time);
    RainbowQuinoaBowlIngredientsPlain();
    RainbowQuinoaBowlInstructionsPlain();
  }

  lemma VeggieScrambleIngredientsPlain()
    ensures AllPlain(VeggieScramble.ingredients)
  {
    var xs := VeggieScramble.ingredients;
    assert Plain(xs[0]) && Plain(xs[1]) && Plain(xs[2]) && Plain(xs[3]);
    assert Plain(xs[4]) && Plain(xs[5]);
  }

  lemma VeggieScrambleInstruction0Plain()
    ensures Plain("Heat olive oil in a non-stick pan over medium heat")
  {
    PlainPieces("Heat olive oil in ", "a non-stick pan ", "over medium heat");
    assert "Heat olive oil in " + "a non-stick pan " + "over medium heat" == "Heat olive oil in a non-stick pan over medium heat";
  }

  lemma VeggieScrambleInstruction2Plain()
    ensures Plain("Beat eggs in a bowl with salt and pepper")
  {
    PlainPieces("Beat eggs in a ", "bowl with salt ", "and pepper");
    assert "Beat eggs in a " + "bowl with salt " + "and pepper" == "Beat eggs in a bowl with salt and pepper";
  }

  lemma VeggieScrambleInstruction4Plain()
    ensures Plain("Add diced tomatoes and scramble gently")
  {
    PlainPieces("Add diced tomatoes ", "and scramble ", "gently");
    assert "Add diced tomatoes " + "and scramble " + "gently" == "Add diced tomatoes and scramble gently";
  }

  lemma VeggieScrambleInstructionsPlain()
    ensures AllPlain(VeggieScramble.instructions)
  {
    var xs := VeggieScramble.instructions;
    VeggieScrambleInstruction0Plain();
    assert xs[0] == "Heat olive oil in a non-stick pan over medium heat";
    VeggieScrambleInstruction2Plain();
    assert xs[2] == "Beat eggs in a bowl with salt and pepper";
    VeggieScrambleInstruction4Plain();
    assert xs[4] == "Add diced tomatoes and scramble gently";
    assert Plain(xs[0]) && Plain(xs[1]) && Plain(xs[2]) && Plain(xs[3]);
    assert Plain(xs[4]) && Plain(xs[5]);
  }

  lemma VeggieScramblePlain()
    ensures PlainRecipe(VeggieScramble)
  {
    assert Plain(VeggieScramble.title) && Plain(VeggieScramble.emoji) && Plain(VeggieScramble.time);
    VeggieScrambleIngredientsPlain();
    VeggieScrambleInstructionsPlain();
  }

  lemma GreenSmoothieIngredientsPlain()
    ensures AllPlain(GreenSmoothie.ingredients)
  {
    var xs := GreenSmoothie.ingredients;
    assert Plain(xs[0]) && Plain(xs[1]) && Plain(xs[2]) && Plain(xs[3]);
    assert Plain(xs[4]) && Plain(xs[5]);
  }

  lemma GreenSmoothieInstructionsPlain()
    ensures AllPlain(GreenSmoothie.instructions)
  {
    var xs := GreenSmoothie.instructions;
    assert Plain(xs[0]) && Plain(xs[1]) && Plain(xs[2]) && Plain(xs[3]);
    assert Plain(xs[4]) && Plain(xs[5]);
  }

  lemma GreenSmoothiePlain()
    ensures PlainRecipe(GreenSmoothie)
  {
    assert Plain(GreenSmoothie.title) && Plain(GreenSmoothie.emoji) && Plain(GreenSmoothie.time);
    GreenSmoothieIngredientsPlain();
    GreenSmoothieInstructionsPlain();
  }

  lemma BlackBeanTacosIngredientsPlain()
    ensures AllPlain(BlackBeanTacos.ingredients)
  {
    var xs := BlackBeanTacos.ingredients;
    assert Plain(xs[0]) && Plain(xs[1]) && Plain(xs[2]) && Plain(xs[3]);
    assert Plain(xs[4]) && Plain(xs[5]) && Plain(xs[6]) && Plain(xs[7]);
  }

  lemma BlackBeanTacosInstruction0Plain()
    ensures Plain("Heat black beans in a pan with cumin and salt")
  {
    PlainPieces("Heat black beans ", "in a pan with ", "cumin and salt");
    assert "Heat black beans " + "in a pan with " + "cumin and salt" == "Heat black beans in a pan with cumin and salt";
  }

  lemma BlackBeanTacosInstruction1Plain()
    ensures Plain("Warm tortillas in a dry pan or microwave")
  {
    PlainPieces("Warm tortillas ", "in a dry pan ", "or microwave");
    assert "Warm tortillas " + "in a dry pan " + "or microwave" == "Warm tortillas in a dry pan or microwave";
  }

  lemma BlackBeanTacosInstruction2Plain()
    ensures Plain("Mash half the beans slightly for texture")
  {
    PlainPieces("Mash half the ", "beans slightly ", "for texture");
    assert "Mash half the " + "beans slightly " + "for texture" == "Mash half the beans slightly for texture";
  }

  lemma BlackBeanTacosInstructionsPlain()
    ensures AllPlain(BlackBeanTacos.instructions)
  {
    var xs := BlackBeanTacos.instructions;
    BlackBeanTacosInstruction0Plain();
    assert xs[0] == "Heat black beans in a pan with cumin and salt";
    BlackBeanTacosInstruction1Plain();
    assert xs[1] == "Warm tortillas in a dry pan or microwave";
    BlackBeanTacosInstruction2Plain();
    assert xs[2] == "Mash half the beans slightly for texture";
    assert Plain(xs[0]) && Plain(xs[1]) && Plain(xs[2]) && Plain(xs[3]);
    assert Plain(xs[4]) && Plain(xs[5]);
  }

  lemma BlackBeanTacosPlain()
    ensures PlainRecipe(BlackBeanTacos)
  {
    assert Plain(BlackBeanTacos.title) && Plain(BlackBeanTacos.emoji) && Plain(BlackBeanTacos.time);
    BlackBeanTacosIngredientsPlain();
    BlackBeanTacosInstructionsPlain();
  }

  lemma ZucchiniPastaIngredientsPlain()
    ensures AllPlain(ZucchiniPasta.ingredients)
  {
    var xs := ZucchiniPasta.ingredients;
    assert Plain(xs[0]) && Plain(xs[1]) && Plain(xs[2]) && Plain(xs[3]);
    assert Plain(xs[4]) && Plain(xs[5]) && Plain(xs[6]);
  }

  lemma ZucchiniPastaInstruction0Plain()
    ensures Plain("Spiralize zucchinis into noodle shapes")
  {
    PlainPieces("Spiralize zucchinis ", "into noodle ", "shapes");
    assert "Spiralize zucchinis " + "into noodle " + "shapes" == "Spiralize zucchinis into noodle shapes";
  }

  lemma ZucchiniPastaInstruction3Plain()
    ensures Plain("Add zucchini noodles and cook for 3-4 minutes")
  {
    PlainPieces("Add zucchini noodles ", "and cook for ", "3-4 minutes");
    assert "Add zucchini noodles " + "and cook for " + "3-4 minutes" == "Add zucchini noodles and cook for 3-4 minutes";
  }

  lemma ZucchiniPastaInstructionsPlain()
    ensures AllPlain(ZucchiniPasta.instructions)
  {
    var xs := ZucchiniPasta.instructions;
    ZucchiniPastaInstruction0Plain();
    assert xs[0] == "Spiralize zucchinis into noodle shapes";
    ZucchiniPastaInstruction3Plain();
    assert xs[3] == "Add zucchini noodles and cook for 3-4 minutes";
    assert Plain(xs[0]) && Plain(xs[1]) && Plain(xs[2]) && Plain(xs[3]);
    assert Plain(xs[4]) && Plain(xs[5]);
  }

  lemma ZucchiniPastaPlain()
    ensures PlainRecipe(ZucchiniPasta)
  {
    assert Plain(ZucchiniPasta.title) && Plain(ZucchiniPasta.emoji) && Plain(ZucchiniPasta.time);
    ZucchiniPastaIngredientsPlain();
    ZucchiniPastaInstructionsPlain();
  }

  lemma MediterraneanWrapIngredientsPlain()
    ensures AllPlain(MediterraneanWrap.ingredients)
  {
    var xs := MediterraneanWrap.ingredients;
    assert Plain(xs[0]) && Plain(xs[1]) && Plain(xs[2]) && Plain(xs[3]);
    assert Plain(xs[4]) && Plain(xs[5]) && Plain(xs[6]) && Plain(xs[7]);
  }

  lemma MediterraneanWrapInstruction2Plain()
    ensures Plain("Layer cucumber, feta, olives, and onion")
  {
    PlainPieces("Layer cucumber, ", "feta, olives, ", "and onion");
    assert "Layer cucumber, " + "feta, olives, " + "and onion" == "Layer cucumber, feta, olives, and onion";
  }

  lemma MediterraneanWrapInstructionsPlain()
    ensures AllPlain(MediterraneanWrap.instructions)
  {
    var xs := MediterraneanWrap.instructions;
    MediterraneanWrapInstruction2Plain();
    assert xs[2] == "Layer cucumber, feta, olives, and onion";
    assert Plain(xs[0]) && Plain(xs[1]) && Plain(xs[2]) && Plain(xs[3]);
    assert Plain(xs[4]) && Plain(xs[5]);
  }

  lemma MediterraneanWrapPlain()
    ensures PlainRecipe(MediterraneanWrap)
  {
    assert Plain(MediterraneanWrap.title) && Plain(MediterraneanWrap.emoji) && Plain(MediterraneanWrap.time);
    MediterraneanWrapIngredientsPlain();
    MediterraneanWrapInstructionsPlain();
  }

  /** No value of any table entry contains `<`. */
  lemma CatalogPlain()
    ensures forall k :: k in Catalog ==> PlainRecipe(Catalog[k])
  {
    RainbowQuinoaBowlPlain();
    VeggieScramblePlain();
    GreenSmoothiePlain();
    BlackBeanTacosPlain();
    ZucchiniPastaPlain();
    MediterraneanWrapPlain();
  }

  /** Every card of the table opens a panel that reads back as its table entry. */
  lemma CatalogPanels(title: string)
    requires title in Catalog
    ensures ParseModal(RenderModal(GetRecipeDetails(title))) == Some(Catalog[title])
  {
    CatalogPlain();
    ModalRoundTrip(Catalog[title]);
  }

  /** The "Green Smoothie" card opens a panel with six ingredients, in table order, and the cup-with-straw emoji. */
  lemma GreenSmoothiePanel()
    ensures var r := ParseModal(RenderModal(GetRecipeDetails("Green Smoothie")));
      && r.Some?
      && r.value == GreenSmoothie
      && |r.value.ingredients| == 6
      && r.value.emoji == "\U{1F964}"
  {
    var g := GetRecipeDetails("Green Smoothie");
    assert g == GreenSmoothie by {
      assert "Green Smoothie" in Catalog;
    }
    GreenSmoothiePlain();
    ModalRoundTrip(g);
  }
}
