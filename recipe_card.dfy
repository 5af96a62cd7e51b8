/**
 * What one recipe card shows: the ingredient labels, the numbered
 * instruction labels and the state of the selection switch.
 */
module RecipeCard {
  import opened RecipeTypes
  import opened Decimal

  /**
   * Whether a quantity is shown: a template-string condition on the quantity,
   * where a missing quantity and the empty string are both false.
   */
  predicate HasQuantity(q: Option<string>) {
    q.Some? && q.value != ""
  }

  /** The quantity as the card displays it: None when it is missing or empty. */
  function ShownQuantity(q: Option<string>): (r: Option<string>)
    ensures r.Some? <==> HasQuantity(q)
    ensures r.Some? ==> r == q
  {
    if HasQuantity(q) then q else None
  }

  /** The ingredient's name, followed by " (quantity)" when a quantity is shown. */
  function IngredientLabel(ing: Ingredient): (text: string)
    ensures ing.name <= text
    ensures text == ing.name <==> !HasQuantity(ing.quantity)
    ensures HasQuantity(ing.quantity) ==> text[|ing.name|..] == " (" + ing.quantity.value + ")"
  {
    if HasQuantity(ing.quantity) then ing.name + " (" + ing.quantity.value + ")" else ing.name
  }

  /**
   * For one ingredient name, two quantities give the same label exactly when
   * they display the same: an empty quantity looks like a missing one, and
   * distinct non-empty quantities look different.
   */
  lemma IngredientLabelShowsQuantity(name: string, q1: Option<string>, q2: Option<string>)
    ensures IngredientLabel(Ingredient(name, q1)) == IngredientLabel(Ingredient(name, q2))
        <==> ShownQuantity(q1) == ShownQuantity(q2)
  {
    var l1, l2 := IngredientLabel(Ingredient(name, q1)), IngredientLabel(Ingredient(name, q2));
    if HasQuantity(q1) && HasQuantity(q2) && l1 == l2 {
      assert l1[|name| + 2..|l1| - 1] == q1.value;
      assert l2[|name| + 2..|l2| - 1] == q2.value;
    }
  }

  /** One ingredient label per ingredient, in the recipe's order. */
  function IngredientLabels(ingredients: seq<Ingredient>): (labels: seq<string>)
    ensures |labels| == |ingredients|
    ensures forall i :: 0 <= i < |ingredients| ==> labels[i] == IngredientLabel(ingredients[i])
    ensures forall i :: 0 <= i < |ingredients| ==> ingredients[i].name <= labels[i]
  {
    seq(|ingredients|, i requires 0 <= i < |ingredients| => IngredientLabel(ingredients[i]))
  }

  /** The label of the instruction at zero-based position idx: "<idx+1>. <step>". */
  function InstructionLabel(idx: nat, step: string): (text: string)
    ensures NatToDecimal(idx + 1) <= text
    ensures text[|NatToDecimal(idx + 1)|..] == ". " + step
  {
    NatToDecimal(idx + 1) + ". " + step
  }

  /** Length of the longest prefix of s made of decimal digits. */
  function DigitPrefixLength(s: string): (k: nat)
    ensures k <= |s|
    ensures AllDigits(s[..k])
    ensures k < |s| ==> !IsDigit(s[k])
  {
    if s == [] || !IsDigit(s[0]) then 0
    else
      var k := 1 + DigitPrefixLength(s[1..]);
      assert forall j :: 1 <= j < k ==> s[..k][j] == s[1..][..k - 1][j - 1];
      k
  }

  /**
   * Reads an instruction label back: a non-empty run of digits, then ". ",
   * then the step. None when the label does not have that shape.
   */
  function ParseInstructionLabel(text: string): (r: Option<(nat, string)>)
    ensures r.Some? ==> |r.value.1| + 3 <= |text| && text[|text| - |r.value.1|..] == r.value.1
  {
    var k := DigitPrefixLength(text);
    if k == 0 || |text| < k + 2 || text[k..k + 2] != ". " then None
    else Some((DecimalValue(text[..k]), text[k + 2..]))
  }

  /** The digit run of digits + rest is exactly digits when rest does not start with a digit. */
  lemma {:induction false} DigitPrefixOfNumeral(digits: string, rest: string)
    requires AllDigits(digits)
    requires rest == [] || !IsDigit(rest[0])
    ensures DigitPrefixLength(digits + rest) == |digits|
  {
    if digits != [] {
      assert (digits + rest)[1..] == digits[1..] + rest;
      DigitPrefixOfNumeral(digits[1..], rest);
    } else {
      assert digits + rest == rest;
    }
  }

  /** Every instruction label reads back as its number and its step. */
  lemma InstructionLabelRoundTrip(idx: nat, step: string)
    ensures ParseInstructionLabel(InstructionLabel(idx, step)) == Some((idx + 1, step))
  {
    var d := NatToDecimal(idx + 1);
    var text := InstructionLabel(idx, step);
    assert text == d + (". " + step);
    DigitPrefixOfNumeral(d, ". " + step);
    assert text[..|d|] == d;
    assert text[|d|..|d| + 2] == ". ";
    assert text[|d| + 2..] == step;
    DecimalRoundTrip(idx + 1);
  }

  /** The instruction list, numbered from 1 in the recipe's order. */
  function InstructionLabels(steps: seq<string>): (labels: seq<string>)
    ensures |labels| == |steps|
    ensures forall i :: 0 <= i < |steps| ==> labels[i] == InstructionLabel(i, steps[i])
  {
    seq(|steps|, i requires 0 <= i < |steps| => InstructionLabel(i, steps[i]))
  }

  /**
   * Label i of the instruction list carries number i + 1 and step i, so the
   * numbers run 1, 2, ... without gaps and distinct positions get distinct labels.
   */
  lemma InstructionLabelsNumbered(steps: seq<string>)
    ensures forall i :: 0 <= i < |steps| ==>
      ParseInstructionLabel(InstructionLabels(steps)[i]) == Some((i + 1, steps[i]))
    ensures forall i, j :: 0 <= i < j < |steps| ==> InstructionLabels(steps)[i] != InstructionLabels(steps)[j]
  {
    var labels := InstructionLabels(steps);
    forall i | 0 <= i < |steps|
      ensures ParseInstructionLabel(labels[i]) == Some((i + 1, steps[i]))
    {
      InstructionLabelRoundTrip(i, steps[i]);
    }
  }

  /** The switch of a card is on exactly when the selection contains the recipe's id. */
  predicate IsChecked(recipe: Recipe, selected: seq<RecipeId>) {
    recipe.id in selected
  }

  /** Everything a card displays that depends on the recipe and the selection. */
  datatype CardView = CardView(
    title: string,
    checked: bool,
    ingredientLabels: seq<string>,
    instructionLabels: seq<string>)

  /** The card for one recipe under the given selection. */
  function RenderCard(recipe: Recipe, selected: seq<RecipeId>): (card: CardView)
    ensures card.title == recipe.name
    ensures card.checked <==> recipe.id in selected
    ensures card.ingredientLabels == IngredientLabels(recipe.ingredients)
    ensures card.instructionLabels == InstructionLabels(recipe.instructions)
    ensures |card.ingredientLabels| == |recipe.ingredients|
    ensures |card.instructionLabels| == |recipe.instructions|
  {
    CardView(recipe.name, IsChecked(recipe, selected),
             IngredientLabels(recipe.ingredients), InstructionLabels(recipe.instructions))
  }

  /**
   * What a rendered card shows: instruction i reads back as number i + 1 and
   * step i, and ingredient i shows its bare name exactly when it has no
   * quantity to show.
   */
  lemma RenderCardLabels(recipe: Recipe, selected: seq<RecipeId>)
    ensures var card := RenderCard(recipe, selected);
      && (forall i :: 0 <= i < |recipe.instructions| ==>
            ParseInstructionLabel(card.instructionLabels[i]) == Some((i + 1, recipe.instructions[i])))
      && (forall i :: 0 <= i < |recipe.ingredients| ==>
            (card.ingredientLabels[i] == recipe.ingredients[i].name <==> !HasQuantity(recipe.ingredients[i].quantity)))
  {
    InstructionLabelsNumbered(recipe.instructions);
  }
}
