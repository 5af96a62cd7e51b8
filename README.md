# Recipe selection view — a Dafny model

The recipe-creation flow of the smart recipe generator shows the generated
recipes as a list of cards. Each card shows the recipe's name, its ingredients
(`name (quantity)`), its numbered instructions and a switch that marks the
recipe as selected. The list receives the current selection, an ordered list of
recipe ids, from its parent. When the user flips a switch, the list computes the
next selection and hands it back to the parent.

This project models the pure logic of that view:

- `Selection` (selection.dfy): the toggle handler. If the id is selected, every
  occurrence of it is filtered out. Otherwise it is appended at the end.
- `RecipeCard` (recipe_card.dfy): the ingredient label, the instruction labels,
  the switch state and the card as a whole.
- `SelectRecipes` (select_recipes.dfy): the list of cards and what a toggle does to it.
- `Decimal` (decimal.dfy): the decimal numeral that a template string produces
  for the instruction number, with its inverse.
- `RecipeTypes` (recipe_types.dfy): the recipe and ingredient records, with only
  the fields the view reads.
- `Scenarios` (scenarios.dfy): worked examples.

An ingredient's quantity is an `Option<string>`. The view shows the quantity
only when it is truthy. An empty string is falsy in JavaScript, so `Some("")`
displays exactly like `None`: a present but empty quantity is not shown.

## Model

| member | source | states |
|---|---|---|
| Selection.Filter | src/pages/components/Recipe_Creation/SelectRecipes.tsx:93 | the filtered list contains no occurrence of the id, every other id is in it exactly when it was in the input, and it is no longer than the input |
| Selection.FilterMultiset | src/pages/components/Recipe_Creation/SelectRecipes.tsx:93 | as a multiset the filtered list is the input with the id's count set to zero: every other id keeps its number of occurrences |
| Selection.FilterIsSubsequence | src/pages/components/Recipe_Creation/SelectRecipes.tsx:93 | filtering keeps the remaining ids in their original relative order (the result is a subsequence of the input) |
| Selection.FilterAbsent | src/pages/components/Recipe_Creation/SelectRecipes.tsx:93 | filtering out an id that is not there returns the list unchanged |
| Selection.FilterAppend | src/pages/components/Recipe_Creation/SelectRecipes.tsx:93 | filtering a concatenation is the concatenation of the filtered parts |
| Selection.FilterNoDuplicates | src/pages/components/Recipe_Creation/SelectRecipes.tsx:93 | filtering a duplicate-free list gives a duplicate-free list |
| Selection.Toggle | src/pages/components/Recipe_Creation/SelectRecipes.tsx:91-96 | after the toggle the id is selected exactly when it was not before; every other id keeps its membership; an unselected id is appended at the end with the old ids unchanged |
| Selection.ToggleWhenPresent | src/pages/components/Recipe_Creation/SelectRecipes.tsx:93 | toggling a selected id removes all its occurrences and keeps the other ids in order and with their counts |
| Selection.ToggleElements | src/pages/components/Recipe_Creation/SelectRecipes.tsx:93 | as a set of ids, the toggle is the symmetric difference with the toggled id |
| Selection.ToggleNoDuplicates | src/pages/components/Recipe_Creation/SelectRecipes.tsx:93 | a duplicate-free selection stays duplicate-free |
| Selection.ToggleLength | src/pages/components/Recipe_Creation/SelectRecipes.tsx:93 | on a duplicate-free selection the toggle removes or adds exactly one id |
| Selection.ToggleTwiceAbsent | src/pages/components/Recipe_Creation/SelectRecipes.tsx:93 | toggling an unselected id twice gives back exactly the original selection |
| Selection.ToggleTwicePresent | src/pages/components/Recipe_Creation/SelectRecipes.tsx:93 | toggling a selected id twice moves it to the end: the same set of ids, and on a duplicate-free selection the same multiset |
| RecipeCard.ShownQuantity | src/pages/components/Recipe_Creation/SelectRecipes.tsx:42 | a quantity is displayed exactly when it is present and non-empty |
| RecipeCard.IngredientLabel | src/pages/components/Recipe_Creation/SelectRecipes.tsx:42 | the label starts with the ingredient name; it equals the name exactly when no quantity is shown; otherwise the rest is " (quantity)" |
| RecipeCard.IngredientLabelShowsQuantity | src/pages/components/Recipe_Creation/SelectRecipes.tsx:42 | for one name, two quantities give the same label exactly when they display the same (empty and missing alike, distinct non-empty ones differ) |
| RecipeCard.IngredientLabels | src/pages/components/Recipe_Creation/SelectRecipes.tsx:39-45 | one label per ingredient, in order: label i is the label of ingredient i, so it starts with that ingredient's name |
| RecipeCard.InstructionLabel | src/pages/components/Recipe_Creation/SelectRecipes.tsx:61 | the label is the decimal numeral of idx + 1 followed by ". " and the step |
| RecipeCard.ParseInstructionLabel | src/pages/components/Recipe_Creation/SelectRecipes.tsx:61 | reads a label of the shape "<digits>. <step>" back into its number and step; the step it returns is a suffix of the label |
| RecipeCard.InstructionLabelRoundTrip | src/pages/components/Recipe_Creation/SelectRecipes.tsx:61 | every instruction label reads back as exactly its number idx + 1 and its step |
| RecipeCard.InstructionLabels | src/pages/components/Recipe_Creation/SelectRecipes.tsx:59-63 | one label per instruction, in order, label i being the label of position i |
| RecipeCard.InstructionLabelsNumbered | src/pages/components/Recipe_Creation/SelectRecipes.tsx:59-63 | label i carries number i + 1 and step i, so numbering starts at 1 without gaps and no two labels are equal |
| RecipeCard.RenderCard | src/pages/components/Recipe_Creation/SelectRecipes.tsx:17-64 | the card shows the recipe's name; its switch is on exactly when the selection contains the recipe's id; its ingredient labels are the recipe's ingredient labels and its instruction labels are the recipe's numbered instructions, in order |
| RecipeCard.RenderCardLabels | src/pages/components/Recipe_Creation/SelectRecipes.tsx:37-64 | on a rendered card, instruction i reads back as number i + 1 and step i, and ingredient i shows its bare name exactly when it has no quantity to show |
| Decimal.NatToDecimal | src/pages/components/Recipe_Creation/SelectRecipes.tsx:61 | the numeral is a non-empty string of digits with no leading zero |
| Decimal.DecimalRoundTrip | src/pages/components/Recipe_Creation/SelectRecipes.tsx:61 | the value of the numeral of n is n |
| Decimal.NatToDecimalInjective | src/pages/components/Recipe_Creation/SelectRecipes.tsx:61 | distinct numbers have distinct numerals |
| SelectRecipes.RenderList | src/pages/components/Recipe_Creation/SelectRecipes.tsx:101-108 | one card per recipe in input order: card k is the card of recipe k, titled with its name and switched on exactly when its id is selected |
| SelectRecipes.ToggleFlipsOnlyItsSwitch | src/pages/components/Recipe_Creation/SelectRecipes.tsx:91-108 | after a toggle exactly the cards of the toggled recipe flip their switch; all other card contents stay the same |
| Scenarios.ToggleIntoEmpty | src/pages/components/Recipe_Creation/SelectRecipes.tsx:93 | toggling "r1" in an empty selection gives ["r1"] |
| Scenarios.ToggleOutOfTwo | src/pages/components/Recipe_Creation/SelectRecipes.tsx:93 | toggling "r1" in ["r1", "r2"] gives ["r2"] |
| Scenarios.SaltLabels | src/pages/components/Recipe_Creation/SelectRecipes.tsx:42 | "Salt" with no or an empty quantity shows "Salt"; with "1 tsp" it shows "Salt (1 tsp)" |
| Scenarios.PastaInstructions | src/pages/components/Recipe_Creation/SelectRecipes.tsx:59-63 | ["Boil water", "Add pasta"] shows "1. Boil water", "2. Add pasta" |

## Left out

- The JSX markup, the CSS class strings and the third-party `Switch` component (lines 18-83 and 98-111). They only render; the model keeps the values they display.
- The `console.log` call in the handler (line 94). It is output with no effect on the result.
- The parent's `updateSelectedRecipes` callback (line 95). `Selection.Toggle` returns the new selection that the handler passes to it; how the parent stores it is outside this file.
- The dietary-preference tags (lines 48-55) and the four additional-information fields (lines 66-80). They pass fields through with no logic, and the recipe record here omits them.
- React `key` props and re-rendering. The model takes rendering as a function of the recipes and the selection.
- The full `Recipe` type from `src/types/index`. That file is not part of this model; `RecipeTypes.Recipe` keeps only the fields the view reads.
- How recipes are generated or fetched, and how the selection is persisted.
