# Fitness tracker screen reducers, in Dafny

This project models the three screen-state reducers of the fitness-tracker
Android client that contain logic of their own. Each is a view model that
holds one immutable UI-state record, takes discrete events and replaces the
record step by step.

- **Recipe creation** (`RecipeCreateViewModel`). It edits the form and
  toggles meal types. It appends and removes instructions and ingredients.
  It runs the quantity prompt for an ingredient picked in the search screen.
  It validates with a fixed first-failure rule order and then submits the
  recipe.
- **Profile setup** (`ProfileSetupViewModel`). It edits the fields and
  validates with a collect-all rule set. It converts the text fields to
  numbers and sends the profile update.
- **Ingredient search** (`SearchIngredientViewModel`). It holds the query
  field and the quantity dialog. The debounced, de-duplicated query stream
  triggers the search.

Each view model is a Dafny `class`. Its `uiState` field is replaced by an
`Update` helper (`_uiState.update`). Two ghost fields record what happens:
`updates` holds every snapshot the state cell has held, and `requests` holds
every request handed to the repository, so "no repository call" is a
statement about `requests`. Beside each class, pure functions give the
snapshots one event writes (`Steps`, `SaveSteps`, `SearchSteps`) and the
resulting state (`Next`). The methods are proved against these functions,
and the lemmas state the reducers' properties about them.

The repository call is an input of the synchronous step. Recipe creation and
search receive a `RepoResult` (`Success(value)`, `Null`, or `Failure` for an
exception), and profile setup receives an `Option`. The ingredient repository
lets exceptions through, so `Failure` is a real outcome of the search. The
recipe repository catches every exception and returns null, and so does the
profile repository for the request itself. For the profile screen the model
therefore has no exception outcome. For the recipe screen `Failure`
over-approximates: it drives the view model's own `catch` branch (the
connection message), which the real repository never reaches.

A launched coroutine runs to completion inside the event that starts it, so
its loading snapshot appears in `updates`. Kotlin's
`toDoubleOrNull` is a parser passed to the view model (`DoubleParser`);
`toDouble` throws exactly where that parser gives `None`. `isBlank` follows
the JVM's `Char.isWhitespace`. `toIntOrNull` accepts an optional sign and
decimal digits within the 32-bit signed range. It is proved to read back
every 32-bit value `Int.toString` writes.

Three behaviours of the code are worth stating plainly:

- Recipe validation reports one form-level message, not field errors.
- A non-blank goal weight that does not parse fails with the same generic
  message as an unparsable height or weight.
- A successful profile save leaves the field errors of an earlier failed
  save in place.

## Model

| member | source | states |
|---|---|---|
| Common.RemoveAt | app/src/main/java/br/com/marllonbruno/fitnesstracker/android/ui/viewmodel/RecipeCreateViewModel.kt:50-53 | `removeAt(i)` on a copy deletes exactly element `i`: one element fewer, the elements before `i` in place, the later ones shifted down by one |
| Common.RemoveAtUndoesAppend | app/src/main/java/br/com/marllonbruno/fitnesstracker/android/ui/viewmodel/RecipeCreateViewModel.kt:55-63 | removing the element just appended gives back the original list |
| KotlinText.IsBlank | app/src/main/java/br/com/marllonbruno/fitnesstracker/android/ui/viewmodel/RecipeCreateViewModel.kt:121-136 | `isBlank` holds for the empty string, fails for a string starting with a non-whitespace character, and a blank string holds no digit |
| KotlinText.ToIntOrNull | app/src/main/java/br/com/marllonbruno/fitnesstracker/android/ui/viewmodel/RecipeCreateViewModel.kt:131-139 | `toIntOrNull` yields only values within the 32-bit signed range |
| KotlinText.ParsedIsNotBlank | app/src/main/java/br/com/marllonbruno/fitnesstracker/android/ui/viewmodel/RecipeCreateViewModel.kt:131 | a string `toIntOrNull` accepts is never blank |
| KotlinText.IntToStringRoundTrip | app/src/main/java/br/com/marllonbruno/fitnesstracker/android/ui/viewmodel/RecipeCreateViewModel.kt:177-178 | `toIntOrNull` reads back every 32-bit value written by `Int.toString` |
| RecipeCreate.PositiveIntRuleIsPositiveParse | app/src/main/java/br/com/marllonbruno/fitnesstracker/android/ui/viewmodel/RecipeCreateViewModel.kt:131-139 | the prep-time and servings rule passes if and only if `toIntOrNull` gives a value > 0; its blank test adds nothing |
| RecipeCreate.PositiveIntRuleAcceptsPositiveInts | app/src/main/java/br/com/marllonbruno/fitnesstracker/android/ui/viewmodel/RecipeCreateViewModel.kt:131-139 | every positive 32-bit count written in decimal passes the rule |
| RecipeCreate.FirstFailingRule | app/src/main/java/br/com/marllonbruno/fitnesstracker/android/ui/viewmodel/RecipeCreateViewModel.kt:117-158 | gives no rule exactly when all seven rules pass; otherwise a failing rule before which every rule passes |
| RecipeCreate.Toggle | app/src/main/java/br/com/marllonbruno/fitnesstracker/android/ui/viewmodel/RecipeCreateViewModel.kt:35-43 | a meal type is selected afterwards exactly when it was selected before XOR it is the toggled one |
| RecipeCreate.NextIsNotLoading | app/src/main/java/br/com/marllonbruno/fitnesstracker/android/ui/viewmodel/RecipeCreateViewModel.kt:27-86 | no event leaves the screen loading once it has been handled |
| RecipeCreate.EditsKeepLastValue | app/src/main/java/br/com/marllonbruno/fitnesstracker/android/ui/viewmodel/RecipeCreateViewModel.kt:29-33 | after any sequence of name, description, prep-time, servings and image edits, each field holds its last edited value and nothing else in the state changed |
| RecipeCreate.ToggleTwiceRestores | app/src/main/java/br/com/marllonbruno/fitnesstracker/android/ui/viewmodel/RecipeCreateViewModel.kt:35-43 | `MealTypeToggled(m)` flips membership of `m` only, changes no other field, and a second identical toggle restores the state |
| RecipeCreate.AddingAppends | app/src/main/java/br/com/marllonbruno/fitnesstracker/android/ui/viewmodel/RecipeCreateViewModel.kt:45-58 | `InstructionAdded` and `IngredientAdded` grow their list by one, keep earlier elements in place, put the new one last, and change nothing else |
| RecipeCreate.AddThenRemoveIngredientRestores | app/src/main/java/br/com/marllonbruno/fitnesstracker/android/ui/viewmodel/RecipeCreateViewModel.kt:55-63 | `IngredientAdded(x)` followed by `IngredientRemoved` of the last index is allowed and restores the whole state |
| RecipeCreate.EmptyIngredientsRejectedAgain | app/src/main/java/br/com/marllonbruno/fitnesstracker/android/ui/viewmodel/RecipeCreateViewModel.kt:120-144 | a form with no ingredients is refused and sends no request: with the ingredients message once the four text rules pass, with an earlier rule's message otherwise; after an ingredient is added and removed it is refused with the same message and still sends nothing |
| RecipeCreate.ConfirmAppendsOnlyValidQuantity | app/src/main/java/br/com/marllonbruno/fitnesstracker/android/ui/viewmodel/RecipeCreateViewModel.kt:89-115 | confirming appends `IngredientInForm(id, name, quantity, GRAMS)` if and only if a prompt is open and the quantity parses to a number > 0; it always resets the prompt and the quantity text, and changes nothing else |
| RecipeCreate.ToIngredientRequest | app/src/main/java/br/com/marllonbruno/fitnesstracker/android/ui/viewmodel/RecipeCreateViewModel.kt:242-249 | ids, name and unit are copied; a quantity the parser accepts is sent as its value and one it rejects as 0.0 |
| RecipeCreate.Request | app/src/main/java/br/com/marllonbruno/fitnesstracker/android/ui/viewmodel/RecipeCreateViewModel.kt:172-181 | texts, instructions and meal types are copied, every ingredient is converted in order, a positive count is sent as its value and one that does not parse as 0 |
| RecipeCreate.ValidatedRequestIsComplete | app/src/main/java/br/com/marllonbruno/fitnesstracker/android/ui/viewmodel/RecipeCreateViewModel.kt:119-181 | the request a validated form sends has a non-blank name and description, positive prep time and servings, and at least one ingredient, instruction and meal type |
| RecipeCreate.SaveOutcomes | app/src/main/java/br/com/marllonbruno/fitnesstracker/android/ui/viewmodel/RecipeCreateViewModel.kt:160-195 | failed validation sends nothing and only sets the first message; otherwise one request is sent, a loading snapshot with no message comes first, a returned recipe sets `createdRecipeId`, a null answer or an exception sets a message and keeps the id, and loading ends false; this holds also for a save that arrives while the screen is loading |
| RecipeCreate.RecipeCreateViewModel.constructor | app/src/main/java/br/com/marllonbruno/fitnesstracker/android/ui/viewmodel/RecipeCreateViewModel.kt:210-228 | the screen starts from the default state, with nothing sent |
| RecipeCreate.RecipeCreateViewModel.OnEvent | app/src/main/java/br/com/marllonbruno/fitnesstracker/android/ui/viewmodel/RecipeCreateViewModel.kt:27-87 | handling an event writes exactly the snapshots `Steps` gives, ends in `Next`, sends only a validated save's request, and keeps the screen not loading; removal needs an index in range |
| RecipeCreate.RecipeCreateViewModel.AddIngredientToList | app/src/main/java/br/com/marllonbruno/fitnesstracker/android/ui/viewmodel/RecipeCreateViewModel.kt:89-115 | one update to the confirmed-prompt state |
| RecipeCreate.RecipeCreateViewModel.ValidateInputs | app/src/main/java/br/com/marllonbruno/fitnesstracker/android/ui/viewmodel/RecipeCreateViewModel.kt:117-158 | the early-return chain returns true exactly when every rule passes, and sets `errorMessage` to the first failing rule's message (null when all pass) in one update |
| RecipeCreate.RecipeCreateViewModel.SubmitData | app/src/main/java/br/com/marllonbruno/fitnesstracker/android/ui/viewmodel/RecipeCreateViewModel.kt:160-196 | validation, then loading, the request built from the form and the answer's effect, as the save steps give them |
| ProfileSetup.ValidationErrors | app/src/main/java/br/com/marllonbruno/fitnesstracker/android/ui/viewmodel/ProfileSetupViewModel.kt:43-55 | there is an entry for height or weight if and only if that text is blank, and for birth date, gender, activity level or objective if and only if it is unset; each entry has its message, and the goal weight has none |
| ProfileSetup.BuildRequest | app/src/main/java/br/com/marllonbruno/fitnesstracker/android/ui/viewmodel/ProfileSetupViewModel.kt:81-100 | the request is built if and only if every choice is set, the height converts with `toInt` and the weight and any non-blank goal weight convert with `toDouble`; it carries those values, and its goal weight is null exactly when the goal text is blank |
| ProfileSetup.EditsKeepLastValue | app/src/main/java/br/com/marllonbruno/fitnesstracker/android/ui/viewmodel/ProfileSetupViewModel.kt:32-38 | after any sequence of field events, each of the seven fields holds its last event's value and everything else (errors, loading, message, result) is unchanged |
| ProfileSetup.FailedValidationSetsFieldErrors | app/src/main/java/br/com/marllonbruno/fitnesstracker/android/ui/viewmodel/ProfileSetupViewModel.kt:59-75 | a failed save sets each of the six error fields exactly when its rule fails, in one update, leaves loading and message untouched and sends no request |
| ProfileSetup.OnlyNumbersCanFailConversion | app/src/main/java/br/com/marllonbruno/fitnesstracker/android/ui/viewmodel/ProfileSetupViewModel.kt:81-100 | after validation passes, building the request throws if and only if the height, the weight or a non-blank goal weight does not convert |
| ProfileSetup.PassedValidationOutcomes | app/src/main/java/br/com/marllonbruno/fitnesstracker/android/ui/viewmodel/ProfileSetupViewModel.kt:77-110 | a validated save keeps all six error fields, passes through loading with no message and ends not loading; a failed conversion sets the generic message and sends nothing; otherwise the request goes out, `updatedProfile` is the answer, and the message is set exactly when the answer is null |
| ProfileSetupTest.FilledFormConverts | app/src/test/java/br/com/marllonbruno/fitnesstracker/android/ui/viewmodel/ProfileSetupViewModelTest.kt:54-59 | the unit test's form (height "180", weight "80.5", all choices made) passes validation and converts |
| ProfileSetupTest.SelectGenderOnFreshScreen | app/src/test/java/br/com/marllonbruno/fitnesstracker/android/ui/viewmodel/ProfileSetupViewModelTest.kt:30-44 | selecting a gender on a fresh screen sets the gender and leaves every other field at its default |
| ProfileSetupTest.SaveFilledForm | app/src/test/java/br/com/marllonbruno/fitnesstracker/android/ui/viewmodel/ProfileSetupViewModelTest.kt:47-97 | saving the test's form ends not loading, with `updatedProfile` equal to the repository's answer and an error message exactly when that answer is null |
| ProfileSetup.ProfileSetupViewModel.constructor | app/src/main/java/br/com/marllonbruno/fitnesstracker/android/ui/viewmodel/ProfileSetupViewModel.kt:127-150 | the screen starts from the default state, with nothing sent |
| ProfileSetup.ProfileSetupViewModel.OnEvent | app/src/main/java/br/com/marllonbruno/fitnesstracker/android/ui/viewmodel/ProfileSetupViewModel.kt:30-41 | handling an event writes exactly the snapshots `Steps` gives, ends in `Next`, sends only a converted save's request, and keeps the screen not loading |
| ProfileSetup.ProfileSetupViewModel.ValidateInputs | app/src/main/java/br/com/marllonbruno/fitnesstracker/android/ui/viewmodel/ProfileSetupViewModel.kt:43-55 | the conditional inserts build exactly the collect-all error map of the current state |
| ProfileSetup.ProfileSetupViewModel.SaveProfileData | app/src/main/java/br/com/marllonbruno/fitnesstracker/android/ui/viewmodel/ProfileSetupViewModel.kt:57-111 | errors in one update, or loading, then the generic message or the repository's answer, as the save steps give them |
| SearchIngredient.SearchOutcomes | app/src/main/java/br/com/marllonbruno/fitnesstracker/android/ui/viewmodel/SearchIngredientViewModel.kt:69-83 | a blank query empties the results, keeps the error and writes one snapshot; any other query writes a loading snapshot with no error first, then success sets the results (empty for null), and an exception sets an error and keeps the old results; the query and dialog fields never change |
| SearchIngredient.DismissDialogIsIdempotent | app/src/main/java/br/com/marllonbruno/fitnesstracker/android/ui/viewmodel/SearchIngredientViewModel.kt:39-41 | dismissing resets the prompt and the quantity text only, and dismissing again changes nothing |
| SearchIngredient.SearchIngredientViewModel.constructor | app/src/main/java/br/com/marllonbruno/fitnesstracker/android/ui/viewmodel/SearchIngredientViewModel.kt:25-28 | default state, empty query cell, no query let through yet, nothing sent |
| SearchIngredient.SearchIngredientViewModel.OnEvent | app/src/main/java/br/com/marllonbruno/fitnesstracker/android/ui/viewmodel/SearchIngredientViewModel.kt:30-46 | each event sets only its own fields; `QueryChanged` also sets the query cell; `AddIngredientConfirmed` writes nothing; no event searches |
| SearchIngredient.SearchIngredientViewModel.OnSearchQueryChanged | app/src/main/java/br/com/marllonbruno/fitnesstracker/android/ui/viewmodel/SearchIngredientViewModel.kt:63-67 | sets the query cell and the shown query to `q`, and changes nothing else |
| SearchIngredient.SearchIngredientViewModel.SearchIngredients | app/src/main/java/br/com/marllonbruno/fitnesstracker/android/ui/viewmodel/SearchIngredientViewModel.kt:69-83 | writes the search steps and asks the repository exactly when the query is not blank |
| SearchIngredient.SearchIngredientViewModel.DebounceElapsed | app/src/main/java/br/com/marllonbruno/fitnesstracker/android/ui/viewmodel/SearchIngredientViewModel.kt:48-57 | a settled query equal to the last one let through changes nothing; any other is let through and searched; afterwards the last query let through is the current one |
| SearchIngredient.TypingBurstSearchesOnce | app/src/main/java/br/com/marllonbruno/fitnesstracker/android/ui/viewmodel/SearchIngredientViewModel.kt:48-67 | typing "a", "ap", "app" within one quiet period lets only "app" through, the repository is asked exactly once, for "app", and a second quiet period lets nothing through |

## Left out

- Coroutines and timing. Each launched block runs to completion within the event that starts it. Events arriving while a call is pending, cancellation, and the 500 ms debounce delay are not modelled. `DebounceElapsed` stands for the end of a quiet period.
- Cancellation. A `CancellationException` raised inside the recipe or profile request is caught by the repository and returned as null, so it ends as the save-failed message; in the search it reaches the view model's `catch (e: Exception)`. The model does not single it out.
- Logging. `printStackTrace` in the view models and `Log.e` in the repositories write only to the log and do not affect the state; log output is not modelled.
- The `StateFlow` machinery. Observation by the screens and conflation of equal values are not modelled; `updates` records every value written.
- The repositories, the HTTP layer and the session store. They are reduced to the outcome passed to the reducer's step. The profile repository reads the session token outside its `try`; an exception escaping from there would crash the app and is not modelled.
- Floating point. `toDoubleOrNull` and `toDouble` are an abstract parser giving reals. NaN, infinities and rounding are not modelled.
- KotlinText.ToIntOrNull: accepts ASCII digits only. On the JVM, `toIntOrNull` and `toInt` also accept other Unicode decimal digits.
- KotlinText.IsWhitespace: follows the current Unicode separator categories. The Unicode version of a given Android release may differ.
- Indices and ids are unbounded integers. The 32-bit or 64-bit width of `Int` and `Long` is not modelled, except in `toIntOrNull`.
- RecipeCreate.RecipeCreateViewModel.OnEvent: an out-of-range removal index is a precondition. The source throws from `removeAt`, which would crash the app; the screens only pass indices of rows they show.
- The order of meal types. The source keeps them in an insertion-ordered set and sends them as a list in that order. The model keeps a set, so the request's order is not captured.
- The create request uses the field names the view model builds it with (`mealType`, `measurementUnit`). It does not reconcile them with the DTO declarations.
- The `!!` assertions on birth date and choices in the profile save. In a synchronous step they cannot fail after validation passed, so they only guard the conversion.
- Factories, dependency wiring, navigation, Compose screens, and the login, register, recipe-list, recipe-detail and main view models.
