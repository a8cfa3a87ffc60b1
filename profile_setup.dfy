/** The profile-setup screen's reducer: field edits, collect-all validation,
    conversion of the text fields to numbers and the profile update sent to
    the repository. */
module ProfileSetup {
  import opened Common
  import opened KotlinText
  import opened Model
  import opened Remote

  /** Numeric fields are kept as typed; errors are per field. */
  datatype ProfileSetupUiState = ProfileSetupUiState(
    birthDate: Option<LocalDate>,
    heightCm: string,
    currentWeightKg: string,
    goalWeightKg: string,
    gender: Option<Gender>,
    activityLevel: Option<ActivityLevel>,
    objective: Option<Objective>,
    birthDateError: Option<string>,
    heightCmError: Option<string>,
    currentWeightKgError: Option<string>,
    genderError: Option<string>,
    activityLevelError: Option<string>,
    objectiveError: Option<string>,
    isLoading: bool,
    errorMessage: Option<string>,
    updatedProfile: Option<ProfileDataResponse>)

  const InitialUiState: ProfileSetupUiState :=
    ProfileSetupUiState(None, "", "", "", None, None, None, None, None, None, None, None, None, false, None, None)

  datatype ProfileSetupEvent =
    | BirthDateChanged(birthDate: LocalDate)
    | HeightChanged(height: string)
    | WeightChanged(weight: string)
    | GoalWeightChanged(goalWeight: string)
    | GenderSelected(gender: Gender)
    | ActivityLevelSelected(level: ActivityLevel)
    | ObjectiveSelected(objective: Objective)
    | SaveProfile

  const HeightKey := "height"
  const WeightKey := "weight"
  const BirthDateKey := "birthDate"
  const GenderKey := "gender"
  const ActivityLevelKey := "activityLevel"
  const ObjectiveKey := "objective"

  const HeightRequired := "Altura é obrigatória"
  const WeightRequired := "Peso é obrigatório"
  const BirthDateRequired := "Data de Nascimento é obrigatória"
  const GenderRequired := "Gênero é obrigatório"
  const ActivityLevelRequired := "Nível de Atividade é obrigatório"
  const ObjectiveRequired := "Objetivo é obrigatório"
  const FillAllFields := "Por favor, preencha todos os campos obrigatórios corretamente."
  const SaveFailed := "Falha ao salvar o perfil. Tente novamente."

  // ---------------------------------------------------------------------------
  // Validation
  // ---------------------------------------------------------------------------

  /** All field errors at once, keyed by field. Height and weight are checked
      for blankness, the other four for having been chosen; the goal weight is
      never checked. */
  function ValidationErrors(s: ProfileSetupUiState): (r: map<string, string>)
    ensures HeightKey in r <==> IsBlank(s.heightCm)
    ensures WeightKey in r <==> IsBlank(s.currentWeightKg)
    ensures BirthDateKey in r <==> s.birthDate.None?
    ensures GenderKey in r <==> s.gender.None?
    ensures ActivityLevelKey in r <==> s.activityLevel.None?
    ensures ObjectiveKey in r <==> s.objective.None?
    ensures r.Keys <= {HeightKey, WeightKey, BirthDateKey, GenderKey, ActivityLevelKey, ObjectiveKey}
    ensures HeightKey in r ==> r[HeightKey] == HeightRequired
    ensures WeightKey in r ==> r[WeightKey] == WeightRequired
    ensures BirthDateKey in r ==> r[BirthDateKey] == BirthDateRequired
    ensures GenderKey in r ==> r[GenderKey] == GenderRequired
    ensures ActivityLevelKey in r ==> r[ActivityLevelKey] == ActivityLevelRequired
    ensures ObjectiveKey in r ==> r[ObjectiveKey] == ObjectiveRequired
  {
    var e1 := if IsBlank(s.heightCm) then map[HeightKey := HeightRequired] else map[];
    var e2 := if IsBlank(s.currentWeightKg) then e1[WeightKey := WeightRequired] else e1;
    var e3 := if s.birthDate.None? then e2[BirthDateKey := BirthDateRequired] else e2;
    var e4 := if s.gender.None? then e3[GenderKey := GenderRequired] else e3;
    var e5 := if s.activityLevel.None? then e4[ActivityLevelKey := ActivityLevelRequired] else e4;
    if s.objective.None? then e5[ObjectiveKey := ObjectiveRequired] else e5
  }

  /** `errors[key]`: the entry, or null. */
  function Get(errors: map<string, string>, key: string): Option<string>
  {
    if key in errors then Some(errors[key]) else None
  }

  /** Failed validation writes every entry of the map (null where the rule
      passed) into the six error fields, and nothing else. */
  function WithErrors(s: ProfileSetupUiState, errors: map<string, string>): ProfileSetupUiState
  {
    s.(heightCmError := Get(errors, HeightKey),
       currentWeightKgError := Get(errors, WeightKey),
       birthDateError := Get(errors, BirthDateKey),
       genderError := Get(errors, GenderKey),
       activityLevelError := Get(errors, ActivityLevelKey),
       objectiveError := Get(errors, ObjectiveKey))
  }

  // ---------------------------------------------------------------------------
  // Conversion to a request
  // ---------------------------------------------------------------------------

  /** The goal weight is optional: a blank field sends none, otherwise it must
      parse. `None` means the conversion threw. */
  function GoalWeight(goal: string, parse: DoubleParser): Option<Option<real>>
  {
    if IsBlank(goal) then Some(None)
    else if parse(goal).Some? then Some(Some(parse(goal).value))
    else None
  }

  /** Build the update request, or `None` where building it throws (a missing
      choice, a height `toInt` rejects, or a weight or non-blank goal weight
      `toDouble` rejects). */
  function BuildRequest(s: ProfileSetupUiState, parse: DoubleParser): (r: Option<ProfileUpdateRequest>)
    ensures r.Some? <==>
      s.birthDate.Some? && s.gender.Some? && s.activityLevel.Some? && s.objective.Some?
      && ToIntOrNull(s.heightCm).Some? && parse(s.currentWeightKg).Some? && GoalWeight(s.goalWeightKg, parse).Some?
    ensures r.Some? ==>
      && r.value.heightCm == ToIntOrNull(s.heightCm).value
      && Some(r.value.currentWeightKg) == parse(s.currentWeightKg)
      && r.value.birthDate == s.birthDate.value && r.value.gender == s.gender.value
      && r.value.activityLevel == s.activityLevel.value && r.value.objective == s.objective.value
    ensures r.Some? ==> (IsBlank(s.goalWeightKg) <==> r.value.goalWeightKg.None?)
    ensures r.Some? && !IsBlank(s.goalWeightKg) ==> r.value.goalWeightKg == parse(s.goalWeightKg)
  {
    var height := ToIntOrNull(s.heightCm);
    var weight := parse(s.currentWeightKg);
    var goal := GoalWeight(s.goalWeightKg, parse);
    if s.birthDate.None? || height.None? || weight.None? || goal.None?
       || s.gender.None? || s.activityLevel.None? || s.objective.None? then None
    else
      Some(ProfileUpdateRequest(s.birthDate.value, height.value, weight.value, goal.value,
                                s.gender.value, s.activityLevel.value, s.objective.value))
  }

  // ---------------------------------------------------------------------------
  // The effect of each event on the state
  // ---------------------------------------------------------------------------

  /** The state once the repository has answered. */
  function Completed(loading: ProfileSetupUiState, result: Option<ProfileDataResponse>): ProfileSetupUiState
  {
    loading.(isLoading := false, updatedProfile := result,
             errorMessage := if result.None? then Some(SaveFailed) else None)
  }

  /** The snapshots a save writes: the errors when validation fails; otherwise
      the loading state, then the generic message when conversion throws or
      the repository's answer. */
  function SaveSteps(s: ProfileSetupUiState, result: Option<ProfileDataResponse>, parse: DoubleParser)
    : seq<ProfileSetupUiState>
  {
    var errors := ValidationErrors(s);
    if errors != map[] then [WithErrors(s, errors)]
    else
      var loading := s.(isLoading := true, errorMessage := None);
      if BuildRequest(loading, parse).None? then [loading, loading.(isLoading := false, errorMessage := Some(FillAllFields))]
      else [loading, Completed(loading, result)]
  }

  /** The snapshots one event writes, in order. `result` is what the
      repository answers, should the event reach it. */
  function Steps(s: ProfileSetupUiState, e: ProfileSetupEvent, result: Option<ProfileDataResponse>,
                 parse: DoubleParser): seq<ProfileSetupUiState>
  {
    match e
    case BirthDateChanged(d) => [s.(birthDate := Some(d))]
    case HeightChanged(v) => [s.(heightCm := v)]
    case WeightChanged(v) => [s.(currentWeightKg := v)]
    case GoalWeightChanged(v) => [s.(goalWeightKg := v)]
    case GenderSelected(g) => [s.(gender := Some(g))]
    case ActivityLevelSelected(l) => [s.(activityLevel := Some(l))]
    case ObjectiveSelected(o) => [s.(objective := Some(o))]
    case SaveProfile => SaveSteps(s, result, parse)
  }

  function Next(s: ProfileSetupUiState, e: ProfileSetupEvent, result: Option<ProfileDataResponse>,
                parse: DoubleParser): ProfileSetupUiState
  {
    Last(Steps(s, e, result, parse))
  }

  /** The request an event hands to the repository, if any. */
  function RequestSent(s: ProfileSetupUiState, e: ProfileSetupEvent, parse: DoubleParser): seq<ProfileUpdateRequest>
  {
    if e.SaveProfile? && ValidationErrors(s) == map[] then
      var loading := s.(isLoading := true, errorMessage := None);
      match BuildRequest(loading, parse)
      case Some(request) => [request]
      case None => []
    else []
  }

  // ---------------------------------------------------------------------------
  // Properties of the reducer
  // ---------------------------------------------------------------------------

  function BirthDateOf(e: ProfileSetupEvent): Option<Option<LocalDate>>
  { if e.BirthDateChanged? then Some(Some(e.birthDate)) else None }
  function HeightOf(e: ProfileSetupEvent): Option<string>
  { if e.HeightChanged? then Some(e.height) else None }
  function WeightOf(e: ProfileSetupEvent): Option<string>
  { if e.WeightChanged? then Some(e.weight) else None }
  function GoalWeightOf(e: ProfileSetupEvent): Option<string>
  { if e.GoalWeightChanged? then Some(e.goalWeight) else None }
  function GenderOf(e: ProfileSetupEvent): Option<Option<Gender>>
  { if e.GenderSelected? then Some(Some(e.gender)) else None }
  function ActivityLevelOf(e: ProfileSetupEvent): Option<Option<ActivityLevel>>
  { if e.ActivityLevelSelected? then Some(Some(e.level)) else None }
  function ObjectiveOf(e: ProfileSetupEvent): Option<Option<Objective>>
  { if e.ObjectiveSelected? then Some(Some(e.objective)) else None }

  /** The state after a sequence of field events, applied one by one. */
  function ApplyEdits(s: ProfileSetupUiState, es: seq<ProfileSetupEvent>, parse: DoubleParser): ProfileSetupUiState
    requires forall i :: 0 <= i < |es| ==> !es[i].SaveProfile?
    decreases |es|
  {
    if |es| == 0 then s else ApplyEdits(Next(s, es[0], None, parse), es[1..], parse)
  }

  /** After any sequence of field events each field holds the value of the
      last event for that field (its old value if there was none), and the
      errors, loading flag, message and result are untouched. */
  lemma {:induction false} EditsKeepLastValue(s: ProfileSetupUiState, es: seq<ProfileSetupEvent>, parse: DoubleParser)
    requires forall i :: 0 <= i < |es| ==> !es[i].SaveProfile?
    ensures ApplyEdits(s, es, parse) == s.(
      birthDate := LastPicked(es, BirthDateOf, s.birthDate),
      heightCm := LastPicked(es, HeightOf, s.heightCm),
      currentWeightKg := LastPicked(es, WeightOf, s.currentWeightKg),
      goalWeightKg := LastPicked(es, GoalWeightOf, s.goalWeightKg),
      gender := LastPicked(es, GenderOf, s.gender),
      activityLevel := LastPicked(es, ActivityLevelOf, s.activityLevel),
      objective := LastPicked(es, ObjectiveOf, s.objective))
    decreases |es|
  {
    if |es| != 0 {
      EditsKeepLastValue(Next(s, es[0], None, parse), es[1..], parse);
    }
  }

  /** A failed validation fills each error field exactly when its rule fails,
      leaves everything else as it was and sends nothing. */
  lemma FailedValidationSetsFieldErrors(s: ProfileSetupUiState, result: Option<ProfileDataResponse>, parse: DoubleParser)
    requires ValidationErrors(s) != map[]
    ensures var t := Next(s, SaveProfile, result, parse);
      (t.heightCmError.Some? <==> IsBlank(s.heightCm))
      && (t.currentWeightKgError.Some? <==> IsBlank(s.currentWeightKg))
      && (t.birthDateError.Some? <==> s.birthDate.None?)
      && (t.genderError.Some? <==> s.gender.None?)
      && (t.activityLevelError.Some? <==> s.activityLevel.None?)
      && (t.objectiveError.Some? <==> s.objective.None?)
      && t.isLoading == s.isLoading && t.errorMessage == s.errorMessage
      && t == WithErrors(s, ValidationErrors(s))
      && RequestSent(s, SaveProfile, parse) == []
  {
  }

  /** Once validation passes, choices are all made, so only a number that does
      not convert can make building the request throw. */
  lemma OnlyNumbersCanFailConversion(s: ProfileSetupUiState, parse: DoubleParser)
    requires ValidationErrors(s) == map[]
    ensures BuildRequest(s, parse).None? <==>
      ToIntOrNull(s.heightCm).None? || parse(s.currentWeightKg).None?
      || (!IsBlank(s.goalWeightKg) && parse(s.goalWeightKg).None?)
  {
    assert BirthDateKey !in ValidationErrors(s);
    assert GenderKey !in ValidationErrors(s);
    assert ActivityLevelKey !in ValidationErrors(s);
    assert ObjectiveKey !in ValidationErrors(s);
  }

  /** What a save does once validation passes: the error fields keep their
      old values; the screen passes through loading with no message; a failed
      conversion ends with the generic message and no request; otherwise the
      request goes out and the repository's answer decides the result. */
  lemma PassedValidationOutcomes(s: ProfileSetupUiState, result: Option<ProfileDataResponse>, parse: DoubleParser)
    requires ValidationErrors(s) == map[] && !s.isLoading
    ensures var steps := Steps(s, SaveProfile, result, parse);
      var t := Next(s, SaveProfile, result, parse);
      |steps| == 2 && steps[0].isLoading && steps[0].errorMessage.None?
      && !t.isLoading
      && t.heightCmError == s.heightCmError && t.currentWeightKgError == s.currentWeightKgError
      && t.birthDateError == s.birthDateError && t.genderError == s.genderError
      && t.activityLevelError == s.activityLevelError && t.objectiveError == s.objectiveError
      && (BuildRequest(s, parse).None? ==>
            RequestSent(s, SaveProfile, parse) == [] && t.errorMessage == Some(FillAllFields)
            && t.updatedProfile == s.updatedProfile)
      && (BuildRequest(s, parse).Some? ==>
            RequestSent(s, SaveProfile, parse) == [BuildRequest(s, parse).value]
            && t.updatedProfile == result
            && (result.Some? ==> t.errorMessage.None?)
            && (result.None? ==> t.errorMessage.Some?))
  {
    var loading := s.(isLoading := true, errorMessage := None);
    assert BuildRequest(loading, parse) == BuildRequest(s, parse);
  }

  // ---------------------------------------------------------------------------
  // The view model
  // ---------------------------------------------------------------------------

  class ProfileSetupViewModel {
    var uiState: ProfileSetupUiState
    /** Every value the state cell has held, oldest first. */
    ghost var updates: seq<ProfileSetupUiState>
    /** Every request handed to the profile repository, oldest first. */
    ghost var requests: seq<ProfileUpdateRequest>
    const toDoubleOrNull: DoubleParser

    ghost predicate Valid()
      reads this
    {
      |updates| > 0 && Last(updates) == uiState && !uiState.isLoading
    }

    constructor (toDoubleOrNull: DoubleParser)
      ensures Valid() && this.toDoubleOrNull == toDoubleOrNull
      ensures uiState == InitialUiState && updates == [InitialUiState] && requests == []
    {
      this.toDoubleOrNull := toDoubleOrNull;
      uiState := InitialUiState;
      updates := [InitialUiState];
      requests := [];
    }

    /** `_uiState.update { ... }`: replace the snapshot and publish it. */
    method Update(next: ProfileSetupUiState)
      modifies this
      ensures uiState == next && updates == old(updates) + [next] && requests == old(requests)
    {
      uiState := next;
      updates := updates + [next];
    }

    /** Handle one event; `result` is what the repository answers if the event
        reaches it. */
    method OnEvent(event: ProfileSetupEvent, result: Option<ProfileDataResponse>)
      requires Valid()
      modifies this
      ensures Valid()
      ensures updates == old(updates) + Steps(old(uiState), event, result, toDoubleOrNull)
      ensures uiState == Next(old(uiState), event, result, toDoubleOrNull)
      ensures requests == old(requests) + RequestSent(old(uiState), event, toDoubleOrNull)
    {
      match event
      case BirthDateChanged(d) => Update(uiState.(birthDate := Some(d)));
      case HeightChanged(v) => Update(uiState.(heightCm := v));
      case WeightChanged(v) => Update(uiState.(currentWeightKg := v));
      case GoalWeightChanged(v) => Update(uiState.(goalWeightKg := v));
      case GenderSelected(g) => Update(uiState.(gender := Some(g)));
      case ActivityLevelSelected(l) => Update(uiState.(activityLevel := Some(l)));
      case ObjectiveSelected(o) => Update(uiState.(objective := Some(o)));
      case SaveProfile => SaveProfileData(result);
    }

    /** Collect every field error into one map. */
    method ValidateInputs() returns (errors: map<string, string>)
      ensures errors == ValidationErrors(uiState)
    {
      var currentState := uiState;
      errors := map[];
      if IsBlank(currentState.heightCm) { errors := errors[HeightKey := HeightRequired]; }
      if IsBlank(currentState.currentWeightKg) { errors := errors[WeightKey := WeightRequired]; }
      if currentState.birthDate.None? { errors := errors[BirthDateKey := BirthDateRequired]; }
      if currentState.gender.None? { errors := errors[GenderKey := GenderRequired]; }
      if currentState.activityLevel.None? { errors := errors[ActivityLevelKey := ActivityLevelRequired]; }
      if currentState.objective.None? { errors := errors[ObjectiveKey := ObjectiveRequired]; }
    }

    /** Validate; on errors record them all in one update. Otherwise (the
        launched block, run to completion) show loading, convert the fields,
        send the request and record the answer. */
    method SaveProfileData(result: Option<ProfileDataResponse>)
      requires Valid()
      modifies this
      ensures Valid()
      ensures updates == old(updates) + SaveSteps(old(uiState), result, toDoubleOrNull)
      ensures uiState == Last(SaveSteps(old(uiState), result, toDoubleOrNull))
      ensures requests == old(requests) + RequestSent(old(uiState), SaveProfile, toDoubleOrNull)
    {
      var validationErrors := ValidateInputs();
      if validationErrors != map[] {
        Update(uiState.(
          heightCmError := Get(validationErrors, HeightKey),
          currentWeightKgError := Get(validationErrors, WeightKey),
          birthDateError := Get(validationErrors, BirthDateKey),
          genderError := Get(validationErrors, GenderKey),
          activityLevelError := Get(validationErrors, ActivityLevelKey),
          objectiveError := Get(validationErrors, ObjectiveKey)));
        return;
      }
      Update(uiState.(isLoading := true, errorMessage := None));
      var request := BuildRequest(uiState, toDoubleOrNull);
      if request.None? {
        Update(uiState.(isLoading := false, errorMessage := Some(FillAllFields)));
        return;
      }
      requests := requests + [request.value];
      Update(uiState.(isLoading := false, updatedProfile := result,
                      errorMessage := if result.None? then Some(SaveFailed) else None));
    }
  }
}
