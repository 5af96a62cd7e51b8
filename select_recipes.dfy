/**
 * The recipe list: one card per generated recipe, in input order, all
 * sharing the one selection list and its toggle handler.
 */
module SelectRecipes {
  import opened RecipeTypes
  import opened Selection
  import opened RecipeCard

  /** The cards of the list, one per recipe and in the same order. */
  function RenderList(recipes: seq<Recipe>, selected: seq<RecipeId>): (cards: seq<CardView>)
    ensures |cards| == |recipes|
    ensures forall k :: 0 <= k < |recipes| ==> cards[k] == RenderCard(recipes[k], selected)
    ensures forall k :: 0 <= k < |recipes| ==>
      cards[k].title == recipes[k].name && (cards[k].checked <==> recipes[k].id in selected)
  {
    seq(|recipes|, k requires 0 <= k < |recipes| => RenderCard(recipes[k], selected))
  }

  /**
   * After the user toggles recipe id, exactly the cards of that recipe flip
   * their switch; every other card, and everything else every card shows,
   * stays as it was.
   */
  lemma ToggleFlipsOnlyItsSwitch(recipes: seq<Recipe>, selected: seq<RecipeId>, id: RecipeId)
    ensures var before, after := RenderList(recipes, selected), RenderList(recipes, Toggle(selected, id));
      && |after| == |before|
      && (forall k :: 0 <= k < |recipes| ==>
            after[k].checked == (if recipes[k].id == id then !before[k].checked else before[k].checked))
      && (forall k :: 0 <= k < |recipes| ==>
            after[k].title == before[k].title
            && after[k].ingredientLabels == before[k].ingredientLabels
            && after[k].instructionLabels == before[k].instructionLabels)
  {
  }
}
