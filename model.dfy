/** The enumerations of the domain model. Their display-string resources are
    presentation only and are not modelled. */
module Model {

  datatype MealType = Breakfast | Lunch | Dinner | Snack

  datatype Gender = Male | Female

  datatype ActivityLevel = Sedentary | LightlyActive | ModeratelyActive | Active | VeryActive

  datatype Objective = LoseWeight | MaintainWeight | GainMuscle

  datatype RecipeIngredientMeasurementUnit =
    | Grams | Kilograms | Mililiters | Liters | Teaspoon | Tablespoon | Cup | Unit | Pinch

  /** A calendar date, carried through the reducers without interpretation. */
  datatype LocalDate = LocalDate(year: int, month: int, day: int)
}
