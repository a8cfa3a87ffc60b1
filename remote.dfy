/** The data-transfer records exchanged with the remote API, as far as the
    reducers read or build them. `Long` and `Int` fields are integers, `Double`
    fields reals. */
module Remote {
  import opened Common
  import opened Model

  /** One ingredient found by a search. */
  datatype IngredientDetailsResponse = IngredientDetailsResponse(
    id: int,
    name: string,
    ingredientMeasurementUnitOfMeasurement: string,
    group: string,
    caloriesPer100: real,
    availableCarbohydratePer100: real,
    proteinPer100: real,
    lipidsPer100: real)

  /** The body of a profile update. */
  datatype ProfileUpdateRequest = ProfileUpdateRequest(
    birthDate: LocalDate,
    heightCm: int,
    currentWeightKg: real,
    goalWeightKg: Option<real>,
    gender: Gender,
    activityLevel: ActivityLevel,
    objective: Objective)

  /** The profile the server returns, with the goals it computed. */
  datatype ProfileDataResponse = ProfileDataResponse(
    name: string,
    birthDate: LocalDate,
    heightCm: int,
    currentWeightKg: real,
    goalWeightKg: Option<real>,
    gender: Gender,
    activityLevel: ActivityLevel,
    objective: Objective,
    dailyCaloriesGoal: int,
    dailyProteinGoal: int,
    dailyCarbsGoal: int,
    dailyFatGoal: int,
    imc: real,
    tmb: real)

  datatype IngredientResponse = IngredientResponse(
    name: string,
    displayQuantity: real,
    displayUnit: RecipeIngredientMeasurementUnit)

  /** A stored recipe, as the server returns it after creation. */
  datatype RecipeDetailsResponse = RecipeDetailsResponse(
    authorName: string,
    id: int,
    name: string,
    description: string,
    instructions: seq<string>,
    image: string,
    prepTimeMinutes: int,
    servings: int,
    totalCalories: int,
    totalProtein: int,
    totalCarbohydrate: int,
    totalLipids: int,
    ingredients: seq<IngredientResponse>)

  /** One ingredient line of a recipe-creation request. */
  datatype IngredientRequest = IngredientRequest(
    ingredientId: int,
    ingredientName: string,
    quantityInGrams: real,
    measurementUnit: RecipeIngredientMeasurementUnit)

  /** The body of a recipe-creation request, with the fields the recipe form
      fills in. The meal types are carried as a set. */
  datatype RecipeCreateRequest = RecipeCreateRequest(
    name: string,
    description: string,
    instructions: seq<string>,
    image: string,
    prepTimeMinutes: int,
    servings: int,
    ingredients: seq<IngredientRequest>,
    mealType: set<MealType>)
}
