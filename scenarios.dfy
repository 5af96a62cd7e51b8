/** Worked examples of the selection view's behaviour. */
module Scenarios {
  import opened RecipeTypes
  import opened Selection
  import opened RecipeCard
  import opened Decimal

  /** Toggling "r1" in an empty selection selects it. */
  lemma ToggleIntoEmpty()
    ensures Toggle([], "r1") == ["r1"]
  {
  }

  /** Toggling "r1" in ["r1", "r2"] leaves ["r2"]. */
  lemma ToggleOutOfTwo()
    ensures Toggle(["r1", "r2"], "r1") == ["r2"]
  {
    var s := ["r1", "r2"];
    assert s[1..] == ["r2"];
    assert Filter(["r2"], "r1") == ["r2"];
  }

  /** An ingredient without a quantity shows its name; one with a quantity adds it in parentheses. */
  lemma SaltLabels()
    ensures IngredientLabel(Ingredient("Salt", None)) == "Salt"
    ensures IngredientLabel(Ingredient("Salt", Some(""))) == "Salt"
    ensures IngredientLabel(Ingredient("Salt", Some("1 tsp"))) == "Salt (1 tsp)"
  {
  }

  /** Two instructions are numbered 1 and 2. */
  lemma PastaInstructions()
    ensures InstructionLabels(["Boil water", "Add pasta"]) == ["1. Boil water", "2. Add pasta"]
  {
    var labels := InstructionLabels(["Boil water", "Add pasta"]);
    assert labels[0] == "1. Boil water" by {
      assert NatToDecimal(1) == "1";
      assert "1" + ". " + "Boil water" == "1. Boil water";
    }
    assert labels[1] == "2. Add pasta" by {
      assert NatToDecimal(2) == "2";
      assert "2" + ". " + "Add pasta" == "2. Add pasta";
    }
    assert |labels| == 2;
  }
}
