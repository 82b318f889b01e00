/** The recipe records the diet filters and the seasonality score read. */
module Recipes {
  import opened Wrappers

  /** One ingredient line; both fields may be missing. */
  datatype Ingredient = Ingredient(name: Option<string>, category: Option<string>)

  /** A recipe: its ingredient list, certifications and tags, each of which may be missing. */
  datatype Recipe = Recipe(
    ingredients: Option<seq<Ingredient>>,
    certifications: Option<seq<string>>,
    tags: Option<seq<string>>)

  /** `list?.includes(item)`: a missing list includes nothing. */
  predicate Lists(list: Option<seq<string>>, item: string)
  {
    list.Some? && item in list.value
  }
}
