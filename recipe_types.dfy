/** The data the recipe-selection view reads. Only the fields the view uses are kept. */
module RecipeTypes {

  /** A value that may be missing (an optional property of a recipe object). */
  datatype Option<+T> = None | Some(value: T)

  /** Recipe identifiers are strings; a selection is an ordered list of them. */
  type RecipeId = string

  /** One ingredient: its name and an optional quantity such as "1 tsp". */
  datatype Ingredient = Ingredient(name: string, quantity: Option<string>)

  /** A generated recipe as far as the selection view uses it. */
  datatype Recipe = Recipe(
    id: RecipeId,
    name: string,
    ingredients: seq<Ingredient>,
    instructions: seq<string>)
}
