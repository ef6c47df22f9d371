/**
 * The request-level guards and map builders of internal/handlers/person.go:
 * the letter check, the two request validators, the cursor-query validator
 * and the construction of the filter and update maps.
 */
module Handlers {
  import opened Wrappers
  import opened Models
  import Strconv

  // Query parameter names of the filter map (internal/handlers/handler.go).
  const NAME_QUERY := "name"
  const SURNAME_QUERY := "surname"
  const AGE_QUERY := "age"
  const GENDER_QUERY := "gender"
  const NATIONALITY_QUERY := "nationality"

  /** The columns queryToMap can put into a filter map. */
  const FILTER_COLUMNS: set<string> := {"name", "surname", "age", "gender", "nationality"}

  /** The columns toMap can put into an update map. */
  const UPDATABLE_COLUMNS: set<string> := {"name", "surname", "patronymic", "age", "gender", "nationality"}

  datatype CreatePersonReq = CreatePersonReq(name: string, surname: string, patronymic: string)

  /** A JSON update body: an absent (null) field is None. */
  datatype UpdatePersonReq = UpdatePersonReq(
    name: Option<string>,
    surname: Option<string>,
    patronymic: Option<string>,
    age: Option<Int8>,
    gender: Option<string>,
    nationality: Option<string>)

  datatype ValidationError =
    | InvalidName
    | InvalidSurname
    | InvalidPatronymic
    | InvalidAge
    | InvalidGender
    | InvalidNationality
    | InvalidPersonID
    | InvalidCreatedAt

  /** `strconv.Atoi` failing on the `age` query parameter. */
  datatype QueryError = InvalidAgeQuery(input: string)

  // ---------------------------------------------------------------- letter check

  /** The character class `[A-z]`: every code point from 'A' to 'z', '[', '_' and '`' included. */
  predicate InLetterClass(c: char) {
    'A' <= c <= 'z'
  }

  /** The pattern `[A-z]$` matches at position i: one class character, then the end of the text. */
  predicate LetterPatternAt(s: string, i: nat) {
    i < |s| && InLetterClass(s[i]) && i + 1 == |s|
  }

  /** `letterRegexp.MatchString(s)`: an unanchored search for the pattern anywhere in `s`. */
  predicate LetterMatch(s: string) {
    exists i: nat | i <= |s| :: LetterPatternAt(s, i)
  }

  /** The search succeeds exactly when the last character is in 'A'..'z'; nothing else is checked. */
  lemma LetterMatchIffLastChar(s: string)
    ensures LetterMatch(s) <==> |s| > 0 && InLetterClass(s[|s| - 1])
  {
    if |s| > 0 && InLetterClass(s[|s| - 1]) {
      assert LetterPatternAt(s, |s| - 1);
    }
  }

  /** Digits, spaces and punctuation before the last character pass the check. */
  lemma LetterMatchIsNotLettersOnly()
    ensures LetterMatch("R2-D2 x") && LetterMatch("_") && !LetterMatch("Anna1")
  {
    LetterMatchIffLastChar("R2-D2 x");
    LetterMatchIffLastChar("_");
    LetterMatchIffLastChar("Anna1");
  }

  /** What a name field must satisfy in effect: non-empty, last character in 'A'..'z'. */
  predicate EndsInLetterClass(s: string) {
    |s| > 0 && InLetterClass(s[|s| - 1])
  }

  // ---------------------------------------------------------------- createPersonReq.validate

  /** createPersonReq.validate: name, then surname, then the patronymic branch. */
  function ValidateCreate(req: CreatePersonReq): (r: Outcome<ValidationError>)
    ensures r.Pass? <==> EndsInLetterClass(req.name) && EndsInLetterClass(req.surname)
    ensures r == Fail(InvalidName) <==> !EndsInLetterClass(req.name)
    ensures r == Fail(InvalidSurname) <==> EndsInLetterClass(req.name) && !EndsInLetterClass(req.surname)
    ensures r != Fail(InvalidPatronymic)
  {
    LetterMatchIffLastChar(req.name);
    LetterMatchIffLastChar(req.surname);
    if req.name == "" || !LetterMatch(req.name) then Fail(InvalidName)
    else if req.surname == "" || !LetterMatch(req.surname) then Fail(InvalidSurname)
    // The patronymic branch tests the surname, which has already passed.
    else if req.patronymic != "" && !LetterMatch(req.surname) then Fail(InvalidPatronymic)
    else Pass
  }

  /** The patronymic never changes the verdict. */
  lemma ValidateCreateIgnoresPatronymic(req: CreatePersonReq, patronymic: string)
    ensures ValidateCreate(req.(patronymic := patronymic)) == ValidateCreate(req)
  {
  }

  /** An ASCII letter: what "it must contain only letters" asks of each character. */
  predicate IsAsciiLetter(c: char) {
    'A' <= c <= 'Z' || 'a' <= c <= 'z'
  }

  predicate LettersOnly(s: string) {
    |s| > 0 && forall i | 0 <= i < |s| :: IsAsciiLetter(s[i])
  }

  /**
   * createPersonReq.validate as its error messages describe it: letters
   * only, and the patronymic branch testing the patronymic.
   */
  function ValidateCreateIntended(req: CreatePersonReq): (r: Outcome<ValidationError>)
    ensures r.Pass? <==>
      LettersOnly(req.name) && LettersOnly(req.surname) && (req.patronymic == "" || LettersOnly(req.patronymic))
    ensures r == Fail(InvalidName) <==> !LettersOnly(req.name)
    ensures r == Fail(InvalidSurname) <==> LettersOnly(req.name) && !LettersOnly(req.surname)
    ensures r == Fail(InvalidPatronymic) <==>
      LettersOnly(req.name) && LettersOnly(req.surname) && req.patronymic != "" && !LettersOnly(req.patronymic)
  {
    if !LettersOnly(req.name) then Fail(InvalidName)
    else if !LettersOnly(req.surname) then Fail(InvalidSurname)
    else if req.patronymic != "" && !LettersOnly(req.patronymic) then Fail(InvalidPatronymic)
    else Pass
  }

  /** A letters-only name always passes the check as written. */
  lemma IntendedPassImpliesWrittenPass(req: CreatePersonReq)
    requires ValidateCreateIntended(req) == Pass
    ensures ValidateCreate(req) == Pass
  {
    assert IsAsciiLetter(req.name[|req.name| - 1]);
    assert IsAsciiLetter(req.surname[|req.surname| - 1]);
  }

  /** A digit-only patronymic is accepted as written and rejected as intended. */
  lemma PatronymicNotChecked()
    ensures ValidateCreate(CreatePersonReq("Anna", "Petrova", "123")) == Pass
    ensures ValidateCreateIntended(CreatePersonReq("Anna", "Petrova", "123")) == Fail(InvalidPatronymic)
  {
    assert !IsAsciiLetter("123"[0]);
  }

  /** Non-letters pass `[A-z]$` as long as the last character is in 'A'..'z'. */
  lemma NonLettersAccepted()
    ensures ValidateCreate(CreatePersonReq("R2-D2 x", "_", "")) == Pass
    ensures ValidateCreateIntended(CreatePersonReq("R2-D2 x", "_", "")) == Fail(InvalidName)
  {
    assert !IsAsciiLetter("R2-D2 x"[1]);
  }

  // ---------------------------------------------------------------- updatePersonRequest.validate

  /** A present string field must be non-empty and pass the letter check. */
  predicate FieldAcceptable(field: Option<string>) {
    field.None? || EndsInLetterClass(field.value)
  }

  predicate AgeAcceptable(age: Option<Int8>) {
    age.None? || 0 <= age.value <= 120
  }

  /** updatePersonRequest.validate: absent fields are skipped, present ones checked in order. */
  function ValidateUpdate(req: UpdatePersonReq): (r: Outcome<ValidationError>)
    ensures r.Pass? <==>
      && FieldAcceptable(req.name) && FieldAcceptable(req.surname) && FieldAcceptable(req.patronymic)
      && AgeAcceptable(req.age) && FieldAcceptable(req.gender) && FieldAcceptable(req.nationality)
    ensures r == Fail(InvalidName) <==> !FieldAcceptable(req.name)
    ensures r == Fail(InvalidSurname) <==> FieldAcceptable(req.name) && !FieldAcceptable(req.surname)
    ensures r == Fail(InvalidPatronymic) <==>
      FieldAcceptable(req.name) && FieldAcceptable(req.surname) && !FieldAcceptable(req.patronymic)
    ensures r == Fail(InvalidAge) <==>
      && FieldAcceptable(req.name) && FieldAcceptable(req.surname) && FieldAcceptable(req.patronymic)
      && !AgeAcceptable(req.age)
    ensures r == Fail(InvalidGender) <==>
      && FieldAcceptable(req.name) && FieldAcceptable(req.surname) && FieldAcceptable(req.patronymic)
      && AgeAcceptable(req.age) && !FieldAcceptable(req.gender)
    ensures r == Fail(InvalidNationality) <==>
      && FieldAcceptable(req.name) && FieldAcceptable(req.surname) && FieldAcceptable(req.patronymic)
      && AgeAcceptable(req.age) && FieldAcceptable(req.gender) && !FieldAcceptable(req.nationality)
  {
    if req.name.Some? && (LetterMatchIffLastChar(req.name.value); !LetterMatch(req.name.value) || req.name.value == "") then
      Fail(InvalidName)
    else if req.surname.Some?
      && (LetterMatchIffLastChar(req.surname.value); !LetterMatch(req.surname.value) || req.surname.value == "") then
      Fail(InvalidSurname)
    else if req.patronymic.Some?
      && (LetterMatchIffLastChar(req.patronymic.value); !LetterMatch(req.patronymic.value) || req.patronymic.value == "") then
      Fail(InvalidPatronymic)
    else if req.age.Some? && (req.age.value < 0 || req.age.value > 120) then
      Fail(InvalidAge)
    else if req.gender.Some?
      && (LetterMatchIffLastChar(req.gender.value); !LetterMatch(req.gender.value) || req.gender.value == "") then
      Fail(InvalidGender)
    else if req.nationality.Some?
      && (LetterMatchIffLastChar(req.nationality.value); !LetterMatch(req.nationality.value) || req.nationality.value == "") then
      Fail(InvalidNationality)
    else
      Pass
  }

  /** A body with every field absent validates. */
  lemma EmptyUpdateValidates()
    ensures ValidateUpdate(UpdatePersonReq(None, None, None, None, None, None)) == Pass
  {
  }

  /** On its own, a present age is accepted exactly in 0..120. */
  lemma UpdateAgeRange(age: Int8)
    ensures ValidateUpdate(UpdatePersonReq(None, None, None, Some(age), None, None)).Pass?
            <==> 0 <= age <= 120
  {
  }

  // ---------------------------------------------------------------- updatePersonRequest.toMap

  /** The request field that the update column `column` names, as a driver value. */
  function RequestField(req: UpdatePersonReq, column: string): Option<Value> {
    if column == "name" then (if req.name.Some? then Some(StrVal(req.name.value)) else None)
    else if column == "surname" then (if req.surname.Some? then Some(StrVal(req.surname.value)) else None)
    else if column == "patronymic" then (if req.patronymic.Some? then Some(StrVal(req.patronymic.value)) else None)
    else if column == "age" then (if req.age.Some? then Some(Int8Val(req.age.value)) else None)
    else if column == "gender" then (if req.gender.Some? then Some(StrVal(req.gender.value)) else None)
    else if column == "nationality" then (if req.nationality.Some? then Some(StrVal(req.nationality.value)) else None)
    else None
  }

  function StringField(m: map<string, Value>, column: string): Option<string> {
    if column in m && m[column].StrVal? then Some(m[column].s) else None
  }

  /** Reading an update map back into a request: absent or ill-typed keys give None. */
  function RequestFromMap(m: map<string, Value>): UpdatePersonReq {
    UpdatePersonReq(
      StringField(m, "name"),
      StringField(m, "surname"),
      StringField(m, "patronymic"),
      if "age" in m && m["age"].Int8Val? then Some(m["age"].b) else None,
      StringField(m, "gender"),
      StringField(m, "nationality"))
  }

  /** `m` holds exactly the present fields of `req` among `columns`. */
  predicate MapsPresentFields(req: UpdatePersonReq, m: map<string, Value>, columns: set<string>) {
    && m.Keys <= columns
    && forall c | c in columns :: (c in m <==> RequestField(req, c).Some?) && (c in m ==> RequestField(req, c) == Some(m[c]))
  }

  /** A map holding exactly the present fields reads back as the request. */
  lemma RequestFromPresentFields(req: UpdatePersonReq, m: map<string, Value>)
    requires MapsPresentFields(req, m, UPDATABLE_COLUMNS)
    ensures RequestFromMap(m) == req
  {
    assert "name" in UPDATABLE_COLUMNS && "surname" in UPDATABLE_COLUMNS && "patronymic" in UPDATABLE_COLUMNS;
    assert "age" in UPDATABLE_COLUMNS && "gender" in UPDATABLE_COLUMNS && "nationality" in UPDATABLE_COLUMNS;
  }

  /** Adding or skipping one column keeps MapsPresentFields. */
  lemma MapsPresentFieldsStep(req: UpdatePersonReq, m: map<string, Value>, columns: set<string>, c: string, m': map<string, Value>)
    requires MapsPresentFields(req, m, columns)
    requires RequestField(req, c).None? ==> m' == m
    requires RequestField(req, c).Some? ==> m' == m[c := RequestField(req, c).value]
    ensures MapsPresentFields(req, m', columns + {c})
  {
  }

  /**
   * updatePersonRequest.toMap: one key per non-nil field, mapped to the
   * pointed-to value, and the request can be read back from the map.
   */
  method ToMap(req: UpdatePersonReq) returns (m: map<string, Value>)
    ensures m.Keys <= UPDATABLE_COLUMNS
    ensures forall c | c in UPDATABLE_COLUMNS :: c in m <==> RequestField(req, c).Some?
    ensures forall c | c in m :: RequestField(req, c) == Some(m[c])
    ensures RequestFromMap(m) == req
  {
    m := map[];
    var m0 := m;
    ghost var columns: set<string> := {};
    if req.name.Some? {
      m := m["name" := StrVal(req.name.value)];
    }
    MapsPresentFieldsStep(req, m0, columns, "name", m);
    m0, columns := m, columns + {"name"};
    if req.surname.Some? {
      m := m["surname" := StrVal(req.surname.value)];
    }
    MapsPresentFieldsStep(req, m0, columns, "surname", m);
    m0, columns := m, columns + {"surname"};
    if req.patronymic.Some? {
      m := m["patronymic" := StrVal(req.patronymic.value)];
    }
    MapsPresentFieldsStep(req, m0, columns, "patronymic", m);
    m0, columns := m, columns + {"patronymic"};
    if req.age.Some? {
      m := m["age" := Int8Val(req.age.value)];
    }
    MapsPresentFieldsStep(req, m0, columns, "age", m);
    m0, columns := m, columns + {"age"};
    if req.gender.Some? {
      m := m["gender" := StrVal(req.gender.value)];
    }
    MapsPresentFieldsStep(req, m0, columns, "gender", m);
    m0, columns := m, columns + {"gender"};
    if req.nationality.Some? {
      m := m["nationality" := StrVal(req.nationality.value)];
    }
    MapsPresentFieldsStep(req, m0, columns, "nationality", m);
    columns := columns + {"nationality"};
    assert columns == UPDATABLE_COLUMNS;
    RequestFromPresentFields(req, m);
  }

  // ---------------------------------------------------------------- queryToMap

  /** url.Values: each parameter name with the values given for it. */
  type UrlValues = map<string, seq<string>>

  /** url.Values.Get: the first value, or "" when there is none. */
  function QueryGet(vals: UrlValues, key: string): string {
    if key in vals && |vals[key]| > 0 then vals[key][0] else ""
  }

  /**
   * queryToMap: one filter per recognised parameter that is present (even
   * with an empty value); `age` must parse as an integer, or the whole call
   * fails with no map.
   */
  method QueryToMap(vals: UrlValues) returns (r: Result<map<string, Value>, QueryError>)
    ensures r.Failure? <==> AGE_QUERY in vals && Strconv.Atoi(QueryGet(vals, AGE_QUERY)).None?
    ensures r.Failure? ==> r.error == InvalidAgeQuery(QueryGet(vals, AGE_QUERY))
    ensures r.Success? ==> r.value.Keys == FILTER_COLUMNS * vals.Keys
    ensures r.Success? ==> forall c | c in r.value && c != AGE_QUERY :: r.value[c] == StrVal(QueryGet(vals, c))
    ensures r.Success? && AGE_QUERY in vals ==>
              r.value[AGE_QUERY] == IntVal(Strconv.Atoi(QueryGet(vals, AGE_QUERY)).value)
  {
    var m: map<string, Value> := map[];
    if NAME_QUERY in vals {
      m := m[NAME_QUERY := StrVal(QueryGet(vals, NAME_QUERY))];
    }
    if SURNAME_QUERY in vals {
      m := m[SURNAME_QUERY := StrVal(QueryGet(vals, SURNAME_QUERY))];
    }
    if AGE_QUERY in vals {
      var age := Strconv.Atoi(QueryGet(vals, AGE_QUERY));
      if age.None? {
        return Failure(InvalidAgeQuery(QueryGet(vals, AGE_QUERY)));
      }
      m := m[AGE_QUERY := IntVal(age.value)];
    }
    if GENDER_QUERY in vals {
      m := m[GENDER_QUERY := StrVal(QueryGet(vals, GENDER_QUERY))];
    }
    if NATIONALITY_QUERY in vals {
      m := m[NATIONALITY_QUERY := StrVal(QueryGet(vals, NATIONALITY_QUERY))];
    }
    r := Success(m);
  }

  // ---------------------------------------------------------------- validatePersonIDAndCreatedAtQuery

  /**
   * validatePersonIDAndCreatedAtQuery: each cursor part, when given, must
   * parse (uuid.Parse, and time.Parse with layout "2006-01-02 15:04:05.000000");
   * the two parsers are parameters.
   */
  function ValidateCursorQuery(id: string, createdAt: string,
                               isUuid: string -> bool, isTimestamp: string -> bool): (r: Outcome<ValidationError>)
    ensures r == Fail(InvalidPersonID) <==> id != "" && !isUuid(id)
    ensures r == Fail(InvalidCreatedAt) <==> (id == "" || isUuid(id)) && createdAt != "" && !isTimestamp(createdAt)
    ensures r == Pass <==> (id == "" || isUuid(id)) && (createdAt == "" || isTimestamp(createdAt))
  {
    if id != "" && !isUuid(id) then Fail(InvalidPersonID)
    else if createdAt != "" && !isTimestamp(createdAt) then Fail(InvalidCreatedAt)
    else Pass
  }

  /** Empty parts are accepted whatever the parsers say. */
  lemma EmptyCursorQueryValidates(isUuid: string -> bool, isTimestamp: string -> bool)
    ensures ValidateCursorQuery("", "", isUuid, isTimestamp) == Pass
  {
  }

  /** Both-or-neither is not enforced: a lone part that parses is accepted. */
  lemma LoneCursorPartValidates(part: string, isUuid: string -> bool, isTimestamp: string -> bool)
    requires part != ""
    ensures isUuid(part) ==> ValidateCursorQuery(part, "", isUuid, isTimestamp) == Pass
    ensures isTimestamp(part) ==> ValidateCursorQuery("", part, isUuid, isTimestamp) == Pass
  {
  }
}
