/** Converts a quantity of activity into an emission mass. */
module EmissionCalculator {
  import opened Results
  import opened Categories

  const NullCategoryMessage := "Category cannot be null."
  const NonPositiveQuantityMessage := "Quantity must be a positive value."

  /** Emission of `quantity` units of `category`: the category's factor times
      the quantity. A missing category is rejected first, then a quantity that
      is not positive; a valid input always yields a positive emission. */
  function CalculateEmission(category: Option<Category>, quantity: real): (r: Result<real>)
    ensures r.Ok? <==> category.Some? && quantity > 0.0
    ensures category.None? ==> r == Err(InvalidArgument(NullCategoryMessage))
    ensures category.Some? && quantity <= 0.0 ==> r == Err(InvalidArgument(NonPositiveQuantityMessage))
    ensures r.Ok? ==> r.value == EmissionFactor(category.value) * quantity && r.value > 0.0
  {
    if category.None? then Err(InvalidArgument(NullCategoryMessage))
    else if quantity <= 0.0 then Err(InvalidArgument(NonPositiveQuantityMessage))
    else Ok(EmissionFactor(category.value) * quantity)
  }

  /** More of the same activity always emits strictly more. */
  lemma EmissionStrictlyIncreasing(c: Category, q1: real, q2: real)
    requires 0.0 < q1 < q2
    ensures CalculateEmission(Some(c), q1).value < CalculateEmission(Some(c), q2).value
  {
  }

  /** Splitting an activity into two logs emits the same as logging it once. */
  lemma EmissionAdditive(c: Category, q1: real, q2: real)
    requires q1 > 0.0 && q2 > 0.0
    ensures CalculateEmission(Some(c), q1 + q2).value
         == CalculateEmission(Some(c), q1).value + CalculateEmission(Some(c), q2).value
  {
  }
}
