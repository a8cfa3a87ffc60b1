/** Scenarios from the profile-setup view model's unit tests, stated as
    methods that drive the view model and lemmas about the forms they fill. */
module ProfileSetupTest {
  import opened Common
  import opened KotlinText
  import opened Model
  import opened Remote
  import opened ProfileSetup

  /** The test's form passes validation and converts. */
  lemma FilledFormConverts(s: ProfileSetupUiState, parse: DoubleParser)
    requires s.heightCm == "180" && s.currentWeightKg == "80.5" && s.goalWeightKg == ""
    requires s.birthDate.Some? && s.gender.Some? && s.activityLevel.Some? && s.objective.Some?
    requires parse("80.5").Some?
    ensures ValidationErrors(s) == map[] && BuildRequest(s, parse).Some?
  {
    assert !IsWhitespace(s.heightCm[0]) && !IsWhitespace(s.currentWeightKg[0]);
    IntToStringRoundTrip(180);
    assert IntToString(180) == "180";
  }

  /** Selecting a gender on a fresh screen sets the gender and nothing else. */
  method SelectGenderOnFreshScreen(parse: DoubleParser, g: Gender) returns (state: ProfileSetupUiState)
    ensures state.gender == Some(g)
    ensures state == InitialUiState.(gender := Some(g))
  {
    var vm := new ProfileSetupViewModel(parse);
    vm.OnEvent(GenderSelected(g), None);
    state := vm.uiState;
  }

  /** Filling the form with a height of 180, a weight of 80.5 (however the
      weight parses, so long as it does), a birth date and the three choices,
      then saving: the screen ends not loading, with the repository's answer
      as the result, and a message exactly when the answer is null. */
  method SaveFilledForm(parse: DoubleParser, result: Option<ProfileDataResponse>) returns (state: ProfileSetupUiState)
    requires parse("80.5").Some?
    ensures !state.isLoading && state.updatedProfile == result
    ensures state.errorMessage.None? <==> result.Some?
  {
    var vm := new ProfileSetupViewModel(parse);
    var s0 := InitialUiState;
    vm.OnEvent(HeightChanged("180"), None);
    var s1 := s0.(heightCm := "180");
    assert vm.uiState == s1;
    vm.OnEvent(WeightChanged("80.5"), None);
    var s2 := s1.(currentWeightKg := "80.5");
    assert vm.uiState == s2;
    vm.OnEvent(BirthDateChanged(LocalDate(1990, 1, 1)), None);
    var s3 := s2.(birthDate := Some(LocalDate(1990, 1, 1)));
    assert vm.uiState == s3;
    vm.OnEvent(GenderSelected(Male), None);
    var s4 := s3.(gender := Some(Male));
    assert vm.uiState == s4;
    vm.OnEvent(ActivityLevelSelected(Active), None);
    var s5 := s4.(activityLevel := Some(Active));
    assert vm.uiState == s5;
    vm.OnEvent(ObjectiveSelected(MaintainWeight), None);
    var filled := s5.(objective := Some(MaintainWeight));
    assert vm.uiState == filled;
    FilledFormConverts(filled, parse);
    PassedValidationOutcomes(filled, result, parse);
    vm.OnEvent(SaveProfile, result);
    state := vm.uiState;
  }
}
