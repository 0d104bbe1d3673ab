# Recipe page: catalogue, panel markup and overlays

This project models the part of the recipe showcase page's script that has
logic in it:

- **Recipes** (`Recipes.dfy`): `getRecipeDetails`. It holds a fixed table of
  six recipes keyed by the exact card title. Any other title gets a
  placeholder record that carries the title it was asked for. The lookup is a
  total, pure function over `string`.
- **Markup** (`Markup.dfy`): the markup the recipe button writes into the
  modal panel. Title, emoji and time go at fixed places. The ingredients
  become `<li>` items inside a `<ul>`, and after them the instructions become
  `<li>` items inside an `<ol>`. Each list is built with `map(...).join('')`,
  and the fixed text between the values is reproduced line for line.
  - The renderer's partner is `ParseModal`, which reads such markup back.
  - Whatever `ParseModal` accepts is exactly the markup produced for the
    recipe it returns.
  - For every recipe whose values contain no `<`, parsing the rendered markup
    gives back the same recipe: both lists item by item, in order. No value
    of the table contains `<`, so every card's panel reads back as its entry.
  - No escaping is done, so the `<`-free condition is needed.
    `UnescapedItemsCollide` shows two different ingredient lists that render
    to the same text.
- **Page** (`Page.dfy`): the overlays on the page, as a class `Document` over
  a sequence of overlays.
  - `OpenRecipe` appends one new overlay each time and never removes or
    replaces an open one, so overlays stack.
  - `Click` removes the overlay when either close button is clicked, or when
    the click lands on the overlay itself. A click inside the panel (a
    descendant) leaves it in place.
  - Removal (`Without`) takes out only that overlay and keeps the others in
    their order.

`Options.dfy` holds the optional value that the parser uses to stop on
failure.

Dafny functions are deterministic, so the lookup returns equal records for
equal titles, as the page's pure function does.

In the code, nothing prevents a second overlay from opening over the first.
The model follows the code, not a design with at most one overlay open.

## Model

| member | source | states |
|---|---|---|
| Recipes.Catalog | script.js:138-272 | The six-entry table, value for value. Specified by `CatalogKeys`, `CatalogEntries` and `SpotChecks`. |
| Recipes.Placeholder | script.js:274-280 | The record for a title outside the table. Specified by `GetRecipeDetails`'s placeholder clause and by `UnknownTitle`. |
| Recipes.GetRecipeDetails | script.js:137-281 | Total lookup. A title in the table gives exactly that table entry. Any other title gives the placeholder: emoji with plate, "15 minutes" time, and the two one-item placeholder lists. The result's title is always the input, and both lists are never empty. |
| Recipes.CatalogKeys | script.js:138-272 | The table's keys are exactly the six card titles, six distinct keys. |
| Recipes.CatalogEntries | script.js:139-271 | Every entry is stored under its own title, has exactly six instructions, and has six to eight ingredients. |
| Recipes.InstructionCount | script.js:137-281 | For every title, the lookup gives six instructions for a known recipe and one otherwise. |
| Recipes.SpotChecks | script.js:139-239 | "Rainbow Quinoa Bowl" has 8 ingredients and 6 instructions. "Green Smoothie" has the cup-with-straw emoji and 6 ingredients. "Zucchini Pasta" has 7 ingredients. |
| Recipes.UnknownTitle | script.js:274-280 | "nonexistent" gets the placeholder with the title "nonexistent" and the two placeholder lists. |
| Markup.Item | script.js:103 | The callback given to `map`: one `<li>` item around one value. Specified by `MapItemInOrder`. |
| Markup.MapItem | script.js:103 | `items.map(...)`. Specified by `MapItemInOrder`: one item per element, in order. |
| Markup.Join | script.js:103 | `Array.prototype.join`. With the empty separator, `ListItemsCons` and `ListItemsAppend` show it is plain concatenation. |
| Markup.ListItems | script.js:103-107 | `map(...).join('')` for either list. Specified by `MapItemInOrder`, `ListItemsAppend` and, through the parser, `ParseItemsConcat`. |
| Markup.RenderWith | script.js:82-121 | The panel template over any fixed text. Specified by `ParseWith` (soundness) and `ParseWithRender` (completeness). |
| Markup.RenderModal | script.js:82-121 | The page's own panel markup. Specified by `ModalRoundTrip`, `RenderModalInjective`, `CatalogPanels`, `PlaceholderPanel` and `GreenSmoothiePanel`. |
| Markup.MapItemInOrder | script.js:103-107 | Mapping a list gives one `<li>` item per element, the i-th wrapping the i-th element. |
| Markup.ListItemsAppend | script.js:103-107 | With the empty separator, the markup of a concatenated list is the concatenation of the two lists' markup. |
| Markup.Expect | script.js:82-121 | Partner definition: reads back the fixed text of the cited template. When it succeeds, the input is that fixed text followed by what it returns. |
| Markup.Field | script.js:96-99 | Partner definition: reads back one interpolated value. It splits off the longest `<`-free prefix; the two parts make up the input, and the rest is empty or starts at a tag. |
| Markup.ParseItems | script.js:103-107 | Partner definition: reads back a list's items. The items it reads, rendered again and followed by the rest, give back its input. Every item read is `<`-free. |
| Markup.ParseWith | script.js:82-121 | Partner definition: reads back a whole panel. Whatever it accepts is exactly the markup the template rendering gives for the recipe it returns, and that recipe is `<`-free. |
| Markup.ParseModal | script.js:82-121 | Partner definition: the same for the page's own panel template. |
| Markup.FieldConcat | script.js:96-99 | Partner property: a `<`-free value followed by a tag is read back whole. |
| Markup.ParseItemsConcat | script.js:101-108 | Partner property: a list of `<`-free items followed by text that opens no further item is read back item by item, in order, and the rest is left over. |
| Markup.ParseWithRender | script.js:82-121 | For any template whose values are each followed by a tag, parsing the rendered markup of a `<`-free recipe gives that recipe back. |
| Markup.ModalRoundTrip | script.js:82-121 | The page's panel markup of any `<`-free recipe reads back as that recipe: title, emoji, time, then the ingredients and then the instructions. |
| Markup.RenderModalInjective | script.js:96-108 | Two `<`-free recipes with the same panel markup are equal. |
| Markup.UnescapedItemsCollide | script.js:103 | Without escaping, one value that contains `</li>` followed by the item tag renders like two items. |
| Markup.CatalogPlain | script.js:139-271 | No value of any table entry contains `<`. |
| Markup.CatalogPanels | script.js:80-121 | Every card of the table opens a panel that reads back as exactly its table entry. |
| Markup.PlaceholderPanel | script.js:274-280 | An unknown, `<`-free card title opens a panel that reads back as the placeholder record for that title. |
| Markup.GreenSmoothiePanel | script.js:183-203 | The "Green Smoothie" card opens a panel that reads back as its table entry, with six ingredients and the cup-with-straw emoji. |
| Page.Without | script.js:130 | Removing overlay `id` leaves exactly the overlays other than it and never lengthens the list. |
| Page.WithoutDistinct | script.js:128-131 | Removal keeps overlay identities distinct. |
| Page.WithoutAbsent | script.js:130 | Removing an overlay that is not on the page changes nothing. |
| Page.WithoutAt | script.js:128-131 | Removing the overlay at position k takes out exactly that one and keeps the others in order. |
| Page.Document.constructor | script.js:45-47 | The page before any recipe button is clicked: no overlay open, no identity handed out yet. |
| Page.Document.OpenRecipe | script.js:47-125 | Appends exactly one overlay, holding the rendered panel of the looked-up recipe, with an identity no open overlay has. Every previous overlay stays in place. |
| Page.Document.Click | script.js:128-131 | A close button or a click on the overlay itself removes that overlay and nothing else. A click inside the panel changes nothing. |

## Left out

- The confetti burst (script.js:318-368) is left out. It uses floating-point positions, `Math.random`, trigonometry and per-frame `requestAnimationFrame` scheduling.
- Smooth scrolling for anchors and the call-to-action button, the header restyle at `scrollY > 100`, card hover transforms and the fade-in on intersection (script.js:1-43, 284-315) are left out. They are style side effects on the host document.
- Inline CSS, `createElement`, `className` and `style.cssText` (script.js:51-77, 123) are left out. Style text has no behaviour to state; the overlay is modelled by its identity and panel markup.
- JavaScript's `recipes[title] || …` looks up inherited object properties, so titles such as "constructor" or "toString" do not get the placeholder. The model uses a plain six-key map: every title outside the table gets the placeholder.
- The host's HTML parsing of `innerHTML` and browser event dispatch are not modelled. A click is one `ClickTarget` on one overlay. The close buttons' `closest('.modal')` is taken to be the overlay that holds them, because overlays are appended to the body and never nested.
- Reading the card title from the card's `h3` text (script.js:48) is left out. The title is the parameter of `OpenRecipe`.
- The unguarded `querySelector` calls on `.cta-button` and `#recipes` (script.js:39-40, 366) fail on the host when those elements are missing. They belong to the left-out scroll and confetti wiring.
