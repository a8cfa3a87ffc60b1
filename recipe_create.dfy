/** The recipe-creation screen's reducer: form edits, the quantity prompt for
    an ingredient picked in the search screen, first-failure validation and the
    submission of the recipe to the repository. */
module RecipeCreate {
  import opened Common
  import opened KotlinText
  import opened Model
  import opened Remote

  /** One ingredient line of the form; the quantity is kept as typed. */
  datatype IngredientInForm = IngredientInForm(
    ingredientId: int,
    ingredientName: string,
    quantityInGrams: string,
    measurementUnit: RecipeIngredientMeasurementUnit)

  datatype RecipeCreateUiState = RecipeCreateUiState(
    name: string,
    description: string,
    image: string,
    prepTimeMinutes: string,
    servings: string,
    instructions: seq<string>,
    ingredients: seq<IngredientInForm>,
    mealTypes: set<MealType>,
    ingredientForQuantityPrompt: Option<IngredientDetailsResponse>,
    quantityInput: string,
    isLoading: bool,
    createdRecipeId: Option<int>,
    errorMessage: Option<string>)

  const InitialUiState: RecipeCreateUiState :=
    RecipeCreateUiState("", "", "", "", "", [], [], {}, None, "", false, None, None)

  datatype RecipeCreateEvent =
    | NameChanged(name: string)
    | DescriptionChanged(description: string)
    | PrepTimeChanged(prepTimeMinutes: string)
    | ServingsChanged(servings: string)
    | ImageChanged(image: string)
    | MealTypeToggled(mealType: MealType)
    | InstructionAdded(instruction: string)
    | InstructionRemoved(index: int)
    | IngredientAdded(ingredient: IngredientInForm)
    | IngredientRemoved(index: int)
    | IngredientSelected(selected: IngredientDetailsResponse)
    | QuantityChanged(quantity: string)
    | AddIngredientConfirmed
    | DismissAddIngredientDialog
    | SaveRecipe

  /** The removal events index into the current list: `removeAt` throws on an
      index out of range. Every other event can always be sent. */
  predicate Enabled(s: RecipeCreateUiState, e: RecipeCreateEvent) {
    match e
    case InstructionRemoved(i) => 0 <= i < |s.instructions|
    case IngredientRemoved(i) => 0 <= i < |s.ingredients|
    case _ => true
  }

  const NameRequired := "O nome da receita é obrigatório"
  const DescriptionRequired := "A descrição da receita é obrigatória"
  const PrepTimeInvalid := "O tempo de preparo deve ser um número positivo."
  const ServingsInvalid := "O número de porções deve ser um número positivo."
  const IngredientsRequired := "A receita precisa ter pelo menos um ingrediente."
  const InstructionsRequired := "A receita precisa ter pelo menos uma instrução."
  const MealTypesRequired := "Selecione pelo menos um tipo de refeição."
  const SaveFailed := "Falha ao salvar a receita. Tente novamente."
  const ConnectionFailed := "Erro de conexão. Verifique sua internet."

  // ---------------------------------------------------------------------------
  // Validation
  // ---------------------------------------------------------------------------

  /** The prep-time and servings rule: not blank, `toIntOrNull` succeeds and
      the value (what `toInt` then returns) is positive. */
  predicate PositiveIntRule(s: string) {
    !IsBlank(s) && ToIntOrNull(s).Some? && ToIntOrNull(s).value > 0
  }

  /** The blank test in the rule is implied by the parse: the rule holds
      exactly when `toIntOrNull` gives a positive value. */
  lemma PositiveIntRuleIsPositiveParse(s: string)
    ensures PositiveIntRule(s) <==> ToIntOrNull(s).Some? && ToIntOrNull(s).value > 0
  {
    if ToIntOrNull(s).Some? {
      ParsedIsNotBlank(s);
    }
  }

  /** The rule is met by every positive 32-bit count written in decimal. */
  lemma PositiveIntRuleAcceptsPositiveInts(n: int)
    requires 0 < n <= IntMax
    ensures PositiveIntRule(IntToString(n))
  {
    IntToStringRoundTrip(n);
    PositiveIntRuleIsPositiveParse(IntToString(n));
  }

  const RuleCount: nat := 7

  /** The validation rules, in the order they are checked. */
  predicate RulePasses(s: RecipeCreateUiState, k: nat)
    requires k < RuleCount
  {
    if k == 0 then !IsBlank(s.name)
    else if k == 1 then !IsBlank(s.description)
    else if k == 2 then PositiveIntRule(s.prepTimeMinutes)
    else if k == 3 then PositiveIntRule(s.servings)
    else if k == 4 then |s.ingredients| > 0
    else if k == 5 then |s.instructions| > 0
    else |s.mealTypes| > 0
  }

  /** The message for a failure of each rule, in rule order. */
  const RuleMessages: seq<string> := [
    NameRequired, DescriptionRequired, PrepTimeInvalid, ServingsInvalid,
    IngredientsRequired, InstructionsRequired, MealTypesRequired]

  /** The first rule at or after `from` that fails, if any. */
  function FirstFailingRule(s: RecipeCreateUiState, from: nat): (r: Option<nat>)
    requires from <= RuleCount
    ensures r.None? <==> forall k :: from <= k < RuleCount ==> RulePasses(s, k)
    ensures r.Some? ==> from <= r.value < RuleCount && !RulePasses(s, r.value)
    ensures r.Some? ==> forall k :: from <= k < r.value ==> RulePasses(s, k)
    decreases RuleCount - from
  {
    if from == RuleCount then None
    else if !RulePasses(s, from) then Some(from)
    else FirstFailingRule(s, from + 1)
  }

  /** The single message validation reports: that of the first failing rule,
      or none when every rule passes. */
  function ValidationMessage(s: RecipeCreateUiState): Option<string>
  {
    match FirstFailingRule(s, 0)
    case Some(k) => Some(RuleMessages[k])
    case None => None
  }

  // ---------------------------------------------------------------------------
  // The effect of each event on the state
  // ---------------------------------------------------------------------------

  /** Flip the membership of `m`. */
  function Toggle(mealTypes: set<MealType>, m: MealType): (r: set<MealType>)
    ensures forall x :: x in r <==> (x in mealTypes) != (x == m)
  {
    if m in mealTypes then mealTypes - {m} else mealTypes + {m}
  }

  /** The quantity prompt is confirmed: the prompt's ingredient is appended,
      in grams and with the quantity as typed, when there is one and the
      quantity parses to a positive number; the prompt is closed either way. */
  function ConfirmQuantity(s: RecipeCreateUiState, parse: DoubleParser): RecipeCreateUiState
  {
    var closed := s.(ingredientForQuantityPrompt := None, quantityInput := "");
    match s.ingredientForQuantityPrompt
    case Some(x) =>
      if ParsesToPositive(parse, s.quantityInput) then
        closed.(ingredients := s.ingredients + [IngredientInForm(x.id, x.name, s.quantityInput, Grams)])
      else closed
    case None => closed
  }

  /** `toIngredientRequest`: an unparsable quantity is sent as zero. */
  function ToIngredientRequest(x: IngredientInForm, parse: DoubleParser): (r: IngredientRequest)
    ensures r.ingredientId == x.ingredientId && r.ingredientName == x.ingredientName
    ensures r.measurementUnit == x.measurementUnit
    ensures parse(x.quantityInGrams).Some? ==> r.quantityInGrams == parse(x.quantityInGrams).value
    ensures parse(x.quantityInGrams).None? ==> r.quantityInGrams == 0.0
  {
    IngredientRequest(x.ingredientId, x.ingredientName, parse(x.quantityInGrams).GetOr(0.0), x.measurementUnit)
  }

  /** The request built from a validated form: the texts, lists and meal
      types copied, each ingredient converted in order, and a count that does
      not parse sent as zero. */
  function Request(s: RecipeCreateUiState, parse: DoubleParser): (r: RecipeCreateRequest)
    ensures r.name == s.name && r.description == s.description && r.image == s.image
    ensures r.instructions == s.instructions && r.mealType == s.mealTypes
    ensures |r.ingredients| == |s.ingredients|
    ensures forall i :: 0 <= i < |s.ingredients| ==> r.ingredients[i] == ToIngredientRequest(s.ingredients[i], parse)
    ensures PositiveIntRule(s.prepTimeMinutes) ==> r.prepTimeMinutes == ToIntOrNull(s.prepTimeMinutes).value > 0
    ensures PositiveIntRule(s.servings) ==> r.servings == ToIntOrNull(s.servings).value > 0
    ensures ToIntOrNull(s.prepTimeMinutes).None? ==> r.prepTimeMinutes == 0
    ensures ToIntOrNull(s.servings).None? ==> r.servings == 0
  {
    RecipeCreateRequest(
      s.name, s.description, s.instructions, s.image,
      ToIntOrNull(s.prepTimeMinutes).GetOr(0), ToIntOrNull(s.servings).GetOr(0),
      seq(|s.ingredients|, i requires 0 <= i < |s.ingredients| => ToIngredientRequest(s.ingredients[i], parse)),
      s.mealTypes)
  }

  /** The state once the repository call has come back. */
  function Completed(loading: RecipeCreateUiState, outcome: RepoResult<RecipeDetailsResponse>): RecipeCreateUiState
  {
    match outcome
    case Success(recipe) => loading.(isLoading := false, createdRecipeId := Some(recipe.id))
    case Null => loading.(isLoading := false, errorMessage := Some(SaveFailed))
    case Failure => loading.(isLoading := false, errorMessage := Some(ConnectionFailed))
  }

  /** The snapshots a save writes: the validation verdict, then, when it
      passes, the loading state and the completed state. */
  function SaveSteps(s: RecipeCreateUiState, outcome: RepoResult<RecipeDetailsResponse>): seq<RecipeCreateUiState>
  {
    var message := ValidationMessage(s);
    if message.Some? then [s.(errorMessage := message)]
    else
      var validated := s.(errorMessage := None);
      var loading := validated.(isLoading := true, errorMessage := None);
      [validated, loading, Completed(loading, outcome)]
  }

  /** The snapshots one event writes to the state, in order. `outcome` is what
      the repository answers, should the event reach it. */
  function Steps(s: RecipeCreateUiState, e: RecipeCreateEvent, outcome: RepoResult<RecipeDetailsResponse>,
                 parse: DoubleParser): seq<RecipeCreateUiState>
    requires Enabled(s, e)
  {
    match e
    case NameChanged(v) => [s.(name := v)]
    case DescriptionChanged(v) => [s.(description := v)]
    case PrepTimeChanged(v) => [s.(prepTimeMinutes := v)]
    case ServingsChanged(v) => [s.(servings := v)]
    case ImageChanged(v) => [s.(image := v)]
    case MealTypeToggled(m) => [s.(mealTypes := Toggle(s.mealTypes, m))]
    case InstructionAdded(x) => [s.(instructions := s.instructions + [x])]
    case InstructionRemoved(i) => [s.(instructions := RemoveAt(s.instructions, i))]
    case IngredientAdded(x) => [s.(ingredients := s.ingredients + [x])]
    case IngredientRemoved(i) => [s.(ingredients := RemoveAt(s.ingredients, i))]
    case IngredientSelected(x) => [s.(ingredientForQuantityPrompt := Some(x))]
    case QuantityChanged(q) => [s.(quantityInput := q)]
    case AddIngredientConfirmed => [ConfirmQuantity(s, parse)]
    case DismissAddIngredientDialog => [s.(ingredientForQuantityPrompt := None, quantityInput := "")]
    case SaveRecipe => SaveSteps(s, outcome)
  }

  /** The state after an event. */
  function Next(s: RecipeCreateUiState, e: RecipeCreateEvent, outcome: RepoResult<RecipeDetailsResponse>,
                parse: DoubleParser): RecipeCreateUiState
    requires Enabled(s, e)
  {
    Last(Steps(s, e, outcome, parse))
  }

  /** The request an event hands to the repository, if any. */
  function RequestSent(s: RecipeCreateUiState, e: RecipeCreateEvent, parse: DoubleParser): seq<RecipeCreateRequest>
  {
    if e.SaveRecipe? && ValidationMessage(s).None? then [Request(s, parse)] else []
  }

  // ---------------------------------------------------------------------------
  // Properties of the reducer
  // ---------------------------------------------------------------------------

  /** No event leaves the screen loading once it has been handled. */
  lemma NextIsNotLoading(s: RecipeCreateUiState, e: RecipeCreateEvent, outcome: RepoResult<RecipeDetailsResponse>,
                         parse: DoubleParser)
    requires Enabled(s, e) && !s.isLoading
    ensures !Next(s, e, outcome, parse).isLoading
  {
  }

  predicate IsTextEdit(e: RecipeCreateEvent) {
    e.NameChanged? || e.DescriptionChanged? || e.PrepTimeChanged? || e.ServingsChanged? || e.ImageChanged?
  }

  function NameOf(e: RecipeCreateEvent): Option<string> { if e.NameChanged? then Some(e.name) else None }
  function DescriptionOf(e: RecipeCreateEvent): Option<string> { if e.DescriptionChanged? then Some(e.description) else None }
  function PrepTimeOf(e: RecipeCreateEvent): Option<string> { if e.PrepTimeChanged? then Some(e.prepTimeMinutes) else None }
  function ServingsOf(e: RecipeCreateEvent): Option<string> { if e.ServingsChanged? then Some(e.servings) else None }
  function ImageOf(e: RecipeCreateEvent): Option<string> { if e.ImageChanged? then Some(e.image) else None }

  /** The state after a sequence of text-field edits, applied one by one. */
  function ApplyEdits(s: RecipeCreateUiState, es: seq<RecipeCreateEvent>, parse: DoubleParser): RecipeCreateUiState
    requires forall i :: 0 <= i < |es| ==> IsTextEdit(es[i])
    decreases |es|
  {
    if |es| == 0 then s
    else
      assert IsTextEdit(es[0]);
      ApplyEdits(Next(s, es[0], Null, parse), es[1..], parse)
  }

  /** After any sequence of text-field edits each text field holds the value
      of the last edit of that field (its old value if there was none), and
      nothing else in the state has changed. */
  lemma {:induction false} EditsKeepLastValue(s: RecipeCreateUiState, es: seq<RecipeCreateEvent>, parse: DoubleParser)
    requires forall i :: 0 <= i < |es| ==> IsTextEdit(es[i])
    ensures ApplyEdits(s, es, parse) == s.(
      name := LastPicked(es, NameOf, s.name),
      description := LastPicked(es, DescriptionOf, s.description),
      prepTimeMinutes := LastPicked(es, PrepTimeOf, s.prepTimeMinutes),
      servings := LastPicked(es, ServingsOf, s.servings),
      image := LastPicked(es, ImageOf, s.image))
    decreases |es|
  {
    if |es| != 0 {
      EditsKeepLastValue(Next(s, es[0], Null, parse), es[1..], parse);
    }
  }

  /** Toggling a meal type flips its membership only, and toggling it again
      restores the selection. */
  lemma ToggleTwiceRestores(s: RecipeCreateUiState, m: MealType, o: RepoResult<RecipeDetailsResponse>, parse: DoubleParser)
    ensures var t := Next(s, MealTypeToggled(m), o, parse);
      (m in t.mealTypes <==> m !in s.mealTypes)
      && (forall x :: x != m ==> (x in t.mealTypes <==> x in s.mealTypes))
      && t == s.(mealTypes := t.mealTypes)
      && Next(t, MealTypeToggled(m), o, parse) == s
  {
  }

  /** Adding appends at the end: one more element, the earlier ones in place,
      the new one last. */
  lemma AddingAppends(s: RecipeCreateUiState, instruction: string, ingredient: IngredientInForm,
                      o: RepoResult<RecipeDetailsResponse>, parse: DoubleParser)
    ensures var t := Next(s, InstructionAdded(instruction), o, parse);
      |t.instructions| == |s.instructions| + 1 && t.instructions[..|s.instructions|] == s.instructions
      && Last(t.instructions) == instruction && t == s.(instructions := t.instructions)
    ensures var t := Next(s, IngredientAdded(ingredient), o, parse);
      |t.ingredients| == |s.ingredients| + 1 && t.ingredients[..|s.ingredients|] == s.ingredients
      && Last(t.ingredients) == ingredient && t == s.(ingredients := t.ingredients)
  {
  }

  /** Adding an ingredient and then removing the last one gives back the state
      as it was. */
  lemma AddThenRemoveIngredientRestores(s: RecipeCreateUiState, x: IngredientInForm,
                                        o: RepoResult<RecipeDetailsResponse>, parse: DoubleParser)
    ensures var t := Next(s, IngredientAdded(x), o, parse);
      Enabled(t, IngredientRemoved(|s.ingredients|)) && Next(t, IngredientRemoved(|s.ingredients|), o, parse) == s
  {
    RemoveAtUndoesAppend(s.ingredients, x);
  }

  /** A form with no ingredients is refused before any request is sent: with
      the ingredients message once the four text rules pass, with an earlier
      rule's message otherwise. Adding an ingredient and removing it again
      leaves it refused with the same message. */
  lemma EmptyIngredientsRejectedAgain(s: RecipeCreateUiState, x: IngredientInForm,
                                      o: RepoResult<RecipeDetailsResponse>, parse: DoubleParser)
    requires s.ingredients == []
    ensures ValidationMessage(s).Some? && RequestSent(s, SaveRecipe, parse) == []
    ensures (forall k :: 0 <= k < 4 ==> RulePasses(s, k)) ==> ValidationMessage(s) == Some(IngredientsRequired)
    ensures var t := Next(Next(s, IngredientAdded(x), o, parse), IngredientRemoved(0), o, parse);
      t.ingredients == [] && ValidationMessage(t) == ValidationMessage(s)
      && RequestSent(t, SaveRecipe, parse) == []
      && Next(t, SaveRecipe, o, parse).errorMessage == ValidationMessage(s)
  {
    assert !RulePasses(s, 4);
    AddThenRemoveIngredientRestores(s, x, o, parse);
    assert Next(Next(s, IngredientAdded(x), o, parse), IngredientRemoved(0), o, parse) == s;
    assert Steps(s, SaveRecipe, o, parse) == [s.(errorMessage := ValidationMessage(s))];
  }

  /** Confirming the quantity prompt appends an ingredient if and only if a
      prompt is open and the quantity parses to a positive number, and always
      closes the prompt. */
  lemma ConfirmAppendsOnlyValidQuantity(s: RecipeCreateUiState, o: RepoResult<RecipeDetailsResponse>, parse: DoubleParser)
    ensures var t := Next(s, AddIngredientConfirmed, o, parse);
      var accepted := s.ingredientForQuantityPrompt.Some? && ParsesToPositive(parse, s.quantityInput);
      t.ingredientForQuantityPrompt.None? && t.quantityInput == ""
      && (|t.ingredients| == |s.ingredients| + 1 <==> accepted)
      && (!accepted ==> t.ingredients == s.ingredients)
      && (accepted ==> t.ingredients == s.ingredients + [IngredientInForm(
            s.ingredientForQuantityPrompt.value.id, s.ingredientForQuantityPrompt.value.name,
            s.quantityInput, Grams)])
      && t == s.(ingredients := t.ingredients, ingredientForQuantityPrompt := None, quantityInput := "")
  {
  }

  /** What a save does, by case: a failed validation only sets its message and
      sends nothing; otherwise the screen passes through a loading state with
      no message, a returned recipe sets its id, and a null answer or an
      exception sets a message and keeps the previous id. */
  lemma SaveOutcomes(s: RecipeCreateUiState, o: RepoResult<RecipeDetailsResponse>, parse: DoubleParser)
    ensures var steps := Steps(s, SaveRecipe, o, parse);
      var t := Next(s, SaveRecipe, o, parse);
      (ValidationMessage(s).Some? ==>
            RequestSent(s, SaveRecipe, parse) == [] && |steps| == 1
            && t == s.(errorMessage := ValidationMessage(s)))
      && (ValidationMessage(s).None? ==>
            RequestSent(s, SaveRecipe, parse) == [Request(s, parse)] && !t.isLoading
            && steps[|steps| - 2].isLoading && steps[|steps| - 2].errorMessage.None?
            && (o.Success? ==> t.createdRecipeId == Some(o.value.id) && t.errorMessage.None?)
            && (!o.Success? ==> t.errorMessage.Some? && t.createdRecipeId == s.createdRecipeId))
  {
  }

  /** The request a validated form sends carries positive counts, named and
      described texts, and at least one ingredient, instruction and meal type. */
  lemma ValidatedRequestIsComplete(s: RecipeCreateUiState, parse: DoubleParser)
    requires ValidationMessage(s).None?
    ensures var r := Request(s, parse);
      !IsBlank(r.name) && !IsBlank(r.description) && r.prepTimeMinutes > 0 && r.servings > 0
      && |r.ingredients| > 0 && |r.instructions| > 0 && |r.mealType| > 0
  {
    assert RulePasses(s, 0) && RulePasses(s, 1) && RulePasses(s, 2) && RulePasses(s, 3);
    assert RulePasses(s, 4) && RulePasses(s, 5) && RulePasses(s, 6);
  }

  // ---------------------------------------------------------------------------
  // The view model
  // ---------------------------------------------------------------------------

  class RecipeCreateViewModel {
    /** The current state snapshot. */
    var uiState: RecipeCreateUiState
    /** Every value the state cell has held, oldest first. */
    ghost var updates: seq<RecipeCreateUiState>
    /** Every request handed to the recipe repository, oldest first. */
    ghost var requests: seq<RecipeCreateRequest>
    const toDoubleOrNull: DoubleParser

    /** Between events the last written snapshot is the state, and the screen
        is not loading. */
    ghost predicate Valid()
      reads this
    {
      |updates| > 0 && Last(updates) == uiState && !uiState.isLoading
    }

    constructor (toDoubleOrNull: DoubleParser)
      ensures Valid() && this.toDoubleOrNull == toDoubleOrNull
      ensures uiState == InitialUiState && updates == [InitialUiState] && requests == []
    {
      this.toDoubleOrNull := toDoubleOrNull;
      uiState := InitialUiState;
      updates := [InitialUiState];
      requests := [];
    }

    /** `_uiState.update { ... }`: replace the snapshot and publish it. */
    method Update(next: RecipeCreateUiState)
      modifies this
      ensures uiState == next && updates == old(updates) + [next] && requests == old(requests)
    {
      uiState := next;
      updates := updates + [next];
    }

    /** Handle one event; `outcome` is what the repository answers if the
        event reaches it. */
    method OnEvent(event: RecipeCreateEvent, outcome: RepoResult<RecipeDetailsResponse>)
      requires Valid() && Enabled(uiState, event)
      modifies this
      ensures Valid()
      ensures updates == old(updates) + Steps(old(uiState), event, outcome, toDoubleOrNull)
      ensures uiState == Next(old(uiState), event, outcome, toDoubleOrNull)
      ensures requests == old(requests) + RequestSent(old(uiState), event, toDoubleOrNull)
    {
      match event
      case NameChanged(v) => Update(uiState.(name := v));
      case DescriptionChanged(v) => Update(uiState.(description := v));
      case PrepTimeChanged(v) => Update(uiState.(prepTimeMinutes := v));
      case ServingsChanged(v) => Update(uiState.(servings := v));
      case ImageChanged(v) => Update(uiState.(image := v));
      case MealTypeToggled(m) =>
        var current := uiState.mealTypes;
        if m in current {
          current := current - {m};
        } else {
          current := current + {m};
        }
        Update(uiState.(mealTypes := current));
      case InstructionAdded(x) =>
        var newInstructions := uiState.instructions + [x];
        Update(uiState.(instructions := newInstructions));
      case InstructionRemoved(i) =>
        var newInstructions := uiState.instructions[..i] + uiState.instructions[i + 1..];
        Update(uiState.(instructions := newInstructions));
      case IngredientAdded(x) =>
        var newIngredients := uiState.ingredients + [x];
        Update(uiState.(ingredients := newIngredients));
      case IngredientRemoved(i) =>
        var newIngredients := uiState.ingredients[..i] + uiState.ingredients[i + 1..];
        Update(uiState.(ingredients := newIngredients));
      case IngredientSelected(x) => Update(uiState.(ingredientForQuantityPrompt := Some(x)));
      case QuantityChanged(q) => Update(uiState.(quantityInput := q));
      case DismissAddIngredientDialog => Update(uiState.(ingredientForQuantityPrompt := None, quantityInput := ""));
      case AddIngredientConfirmed => AddIngredientToList();
      case SaveRecipe => SubmitData(outcome);
    }

    /** Confirm the quantity prompt. */
    method AddIngredientToList()
      requires Valid()
      modifies this
      ensures Valid()
      ensures uiState == ConfirmQuantity(old(uiState), toDoubleOrNull)
      ensures updates == old(updates) + [uiState] && requests == old(requests)
    {
      var ingredientToAdd := uiState.ingredientForQuantityPrompt;
      var quantity := uiState.quantityInput;
      var quantityAsDouble := toDoubleOrNull(quantity);
      if ingredientToAdd.Some? && quantityAsDouble.Some? && quantityAsDouble.value > 0.0 {
        var item := IngredientInForm(ingredientToAdd.value.id, ingredientToAdd.value.name, quantity, Grams);
        var newIngredients := uiState.ingredients + [item];
        Update(uiState.(ingredients := newIngredients, ingredientForQuantityPrompt := None, quantityInput := ""));
      } else {
        Update(uiState.(ingredientForQuantityPrompt := None, quantityInput := ""));
      }
    }

    /** Check the rules in order, stopping at the first that fails; record its
        message (or clear the message when all pass). */
    method ValidateInputs() returns (ok: bool)
      requires Valid()
      modifies this
      ensures Valid()
      ensures ok <==> ValidationMessage(old(uiState)).None?
      ensures uiState == old(uiState).(errorMessage := ValidationMessage(old(uiState)))
      ensures updates == old(updates) + [uiState] && requests == old(requests)
    {
      var state := uiState;
      ghost var first := FirstFailingRule(state, 0);
      if IsBlank(state.name) {
        assert !RulePasses(state, 0);
        Update(uiState.(errorMessage := Some(NameRequired)));
        return false;
      }
      assert RulePasses(state, 0);
      if IsBlank(state.description) {
        assert !RulePasses(state, 1);
        Update(uiState.(errorMessage := Some(DescriptionRequired)));
        return false;
      }
      assert RulePasses(state, 1);
      if IsBlank(state.prepTimeMinutes) || ToIntOrNull(state.prepTimeMinutes).None?
         || ToIntOrNull(state.prepTimeMinutes).value <= 0 {
        assert !RulePasses(state, 2);
        Update(uiState.(errorMessage := Some(PrepTimeInvalid)));
        return false;
      }
      assert RulePasses(state, 2);
      if IsBlank(state.servings) || ToIntOrNull(state.servings).None? || ToIntOrNull(state.servings).value <= 0 {
        assert !RulePasses(state, 3);
        Update(uiState.(errorMessage := Some(ServingsInvalid)));
        return false;
      }
      assert RulePasses(state, 3);
      if |state.ingredients| == 0 {
        assert !RulePasses(state, 4);
        Update(uiState.(errorMessage := Some(IngredientsRequired)));
        return false;
      }
      assert RulePasses(state, 4);
      if |state.instructions| == 0 {
        assert !RulePasses(state, 5);
        Update(uiState.(errorMessage := Some(InstructionsRequired)));
        return false;
      }
      assert RulePasses(state, 5);
      if |state.mealTypes| == 0 {
        assert !RulePasses(state, 6);
        Update(uiState.(errorMessage := Some(MealTypesRequired)));
        return false;
      }
      assert RulePasses(state, 6);
      Update(uiState.(errorMessage := None));
      return true;
    }

    /** Validate, then (the launched block, run to completion) show loading,
        send the request and record the answer. */
    method SubmitData(outcome: RepoResult<RecipeDetailsResponse>)
      requires Valid()
      modifies this
      ensures Valid()
      ensures updates == old(updates) + SaveSteps(old(uiState), outcome)
      ensures uiState == Last(SaveSteps(old(uiState), outcome))
      ensures requests == old(requests) + RequestSent(old(uiState), SaveRecipe, toDoubleOrNull)
    {
      var ok := ValidateInputs();
      if !ok {
        return;
      }
      Update(uiState.(isLoading := true, errorMessage := None));
      var state := uiState;
      var requestDto := RecipeCreateRequest(
        state.name, state.description, state.instructions, state.image,
        ToIntOrNull(state.prepTimeMinutes).GetOr(0), ToIntOrNull(state.servings).GetOr(0),
        seq(|state.ingredients|, i requires 0 <= i < |state.ingredients| =>
          ToIngredientRequest(state.ingredients[i], toDoubleOrNull)),
        state.mealTypes);
      requests := requests + [requestDto];
      match outcome
      case Success(newRecipe) => Update(uiState.(isLoading := false, createdRecipeId := Some(newRecipe.id)));
      case Null => Update(uiState.(isLoading := false, errorMessage := Some(SaveFailed)));
      case Failure => Update(uiState.(isLoading := false, errorMessage := Some(ConnectionFailed)));
    }
  }
}
