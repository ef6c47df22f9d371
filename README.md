# effective_mobile persons service: a Dafny model

This project models the core of a small Go REST service that keeps a table of
persons. A person carries a name, surname and patronymic from the client, plus
an age, gender and nationality looked up by name from external data providers.
The model covers the three layers that hold the logic:

- **Storage query builders** (`internal/storage/person.go`):
  - `Get` builds a filtered, keyset-paginated `SELECT` from an optional cursor `(id, created_at)` and a filter map.
  - `Update` builds a partial `UPDATE ... SET` from a field map.
  - `Save` binds the eight columns of an `INSERT`.

  A query is a sequence of tokens, either literal text or a placeholder `$k`, so placeholders can be counted and numbered. `Sql.Render` spells a query out as the string the driver receives. The two builders are methods that keep the source's `argID` counter and slices. Go visits a map in an unspecified order, so the loop takes any remaining key (`:|`). A ghost out-parameter records the order taken, and every property holds for every order.
- **Request guards and map builders** (`internal/handlers/person.go`):
  - the two request validators and the cursor-query validator;
  - the `[A-z]$` letter check;
  - `toMap`, which builds the update map, and `queryToMap`, which builds the filter map.

  `strconv.Atoi` is modelled concretely: an optional sign, decimal digits, and the int64 range.
- **Service orchestration** (`internal/services/person.go`):
  - `Create` enriches the person with the age, gender and nationality lookups, where the first failure aborts, then assigns the id and timestamp and saves.
  - `Get` delegates to storage.
  - `Delete` and `Update` check that the person exists before they mutate.

  The storage and provider interfaces are records of functions. Each call is answered from the history of earlier calls, so a collaborator may hold any state. `PersonService` keeps that call log. `Create` updates a `PersonCell`, which stands for the caller's `*models.Person`, in place. Every method keeps a log invariant:
  - every storage `Delete`/`Update` directly follows a successful `GetByID` of the same id;
  - every `Save` directly follows the three lookups for that name and carries their answers.

Some behaviours of the code are easy to miss when reading it, and the model states them as they are:

- **A lone cursor part is accepted.** `validatePersonIDAndCreatedAtQuery` (`internal/handlers/person.go:154-168`) checks each cursor part on its own. Storage builds the cursor predicate only when both parts are given (`internal/storage/person.go:68-72`), so a lone `person_id` or a lone `created_at` passes validation and is then silently dropped (`Composition.LoneCursorPartIgnored`).
- **An empty update map is not refused.** `Update` (`internal/storage/person.go:117-130`) has no emptiness guard, and `updatePersonRequest.validate` accepts a body with every field absent. The statement built is then `UPDATE persons SET  WHERE id=$1` (`Storage.UpdateWithoutFields`, `Handlers.EmptyUpdateValidates`), which SQL does not accept, so an empty body ends in a storage error rather than a validation error.
- **"Only letters" is not what the code checks.** The error messages at `internal/handlers/person.go:140`, `:144` and `:148` say a name "must contain only letters". The regexp `[A-z]$` only tests that the last character lies in `'A'..'z'`, and that range includes `[`, `\`, `]`, `^`, `_` and `` ` ``.
- **The patronymic is not validated.** The patronymic branch of `createPersonReq.validate` tests the surname instead.
- **Filters are joined with a comma.** Get joins the filter predicates inside `WHERE` with ", " (`internal/storage/person.go:96-98`), so two filters give `WHERE name=$1, age=$2`.
- **A failed lookup leaves a partly updated person.** `Create` writes each lookup result into the caller's person as soon as it arrives. A later failure leaves those writes in place but never reaches `Save` (`Services.CreatePartialUpdate`).

The letter check, the patronymic branch, the comma join and the empty update are listed under Findings.

## Model

| member | source | states |
|---|---|---|
| Models.ColumnValue | internal/models/person.go:5-14 | a column name selects a field of the person exactly when it is one of the eight `db` tags |
| Strconv.Atoi | internal/handlers/person.go:182 | a successful parse lies inside the int64 range, and "", "+" and "-" never parse; the three lemmas below pin it against `%d` output and non-digit input |
| Strconv.AtoiOfFormat | internal/handlers/person.go:182 | parsing the decimal spelling of any n up to the int64 maximum gives back n |
| Strconv.AtoiOfNegativeFormat | internal/handlers/person.go:182 | parsing "-" followed by the spelling of n gives back -n, whenever -n fits in int64 |
| Strconv.AtoiRejectsNonDigit | internal/handlers/person.go:182 | a string with a non-digit anywhere after its first character does not parse |
| Storage.CollectFragments | internal/storage/person.go:74-79 | the `range` loop visits every key of the map exactly once, in some order; each key gets one `column=$k` fragment, with k counting up from the first free number; one argument per key is appended, and the counter ends past the last number used, len(m) numbers on |
| Storage.EnumerationSize | internal/storage/person.go:74-79 | an enumeration of a map has one entry per key |
| Storage.BuildGet | internal/storage/person.go:61-101 | for the order in which the filter map was visited, the query and arguments Get builds are SelectQuery and SelectArgs; there are (cursor pair) + len(filters) + 1 arguments, `limit` last, and the placeholders run $1..$len(args) |
| Storage.WriteSelect | internal/storage/person.go:81-101 | the builder holds the head, then "WHERE " when there is a cursor part or a fragment, the cursor part, " AND " when there are both, the fragments joined by ", ", and the ORDER BY/LIMIT tail with the final counter |
| Storage.SelectAssembled | internal/storage/person.go:81-101 | the text written into the builder (head, WHERE, cursor, AND, joined filters, ORDER BY/LIMIT) is SelectQuery |
| Storage.SelectPlaceholders | internal/storage/person.go:64-101 | the arguments are the cursor pair, one per filter, then the limit; the placeholders run $1..$len(args) in order, so every `$k` is between 1 and len(args) |
| Storage.SelectLimitLast | internal/storage/person.go:100-101 | the query ends with `LIMIT $len(args)` and `limit` is the last argument |
| Storage.SelectWhereIff | internal/storage/person.go:84-86 | "WHERE " appears exactly when there is a cursor or at least one filter |
| Storage.SelectAndIff | internal/storage/person.go:92-94 | " AND " appears exactly when there are both a cursor and at least one filter |
| Storage.SelectCursorIff | internal/storage/person.go:67-72 | the cursor predicate appears exactly when id and createdAt are both non-empty; it then uses $1 and $2, and the arguments begin with id, createdAt |
| Storage.SelectBindsFilter | internal/storage/person.go:74-79 | the i-th entry gets the fragment `column=$k` with k = i + 3 after a cursor and i + 1 without, and argument k is that entry's value |
| Storage.SelectTextIgnoresValues | internal/storage/person.go:61-101 | the query text depends only on the columns and on whether there is a cursor, never on the values |
| Storage.JoinedFragmentsParams | internal/storage/person.go:96-98 | the joined filter fragments carry the placeholders start, start + 1, ... in order, whatever the separator |
| Storage.JoinedFragmentsAt | internal/storage/person.go:96-98 | the joined list has 3n - 1 tokens; fragment i sits at token 3i with its placeholder after it, and the separator (", " as Get and Update write it) sits at token 3i + 2 between fragments i and i + 1 |
| Storage.FragmentListTexts | internal/storage/person.go:96-98 | apart from the ", " separators, the only text in the list is `column=` for a visited column |
| Storage.TwoFiltersCommaJoined | internal/storage/person.go:96-98 | as written, two filters and no cursor give exactly `SELECT * FROM persons WHERE c0=$1, c1=$2 ORDER BY ... LIMIT $3`: the predicates are joined by ", " |
| Storage.SelectIntendedConjoinsFilters | internal/storage/person.go:96-98 | corrected SELECT: filter i sits at its own position bound to its placeholder, and " AND " joins it to filter i + 1 |
| Storage.ConjunctionHasNoComma | internal/storage/person.go:96-98 | corrected SELECT: the filter predicates joined by " AND " hold no ", " token |
| Storage.SelectIntendedPlaceholders | internal/storage/person.go:64-101 | corrected SELECT: the placeholders still run $1..$len(args) over the same arguments Get binds |
| Storage.TwoFiltersIntended | internal/storage/person.go:96-98 | corrected SELECT: two filters and no cursor give `WHERE c0=$1 AND c1=$2` |
| Storage.BuildUpdate | internal/storage/person.go:117-130 | for the order in which the field map was visited, the query and arguments Update builds are UpdateQuery and UpdateArgs; there are len(fields) + 1 arguments, `id` last, and the placeholders run $1..$len(args) |
| Storage.UpdatePlaceholders | internal/storage/person.go:118-130 | n fields give n + 1 arguments with id last; the placeholders run $1..$n+1 and the query ends `WHERE id=$n+1` |
| Storage.UpdateBindsField | internal/storage/person.go:119-124 | the i-th field gets `column=$i+1`, and argument i + 1 is its value |
| Storage.UpdateWithoutFields | internal/storage/person.go:119-129 | an empty field map still yields `UPDATE persons SET  WHERE id=$1` with the single argument id |
| Storage.UpdateStatementIntended | internal/storage/person.go:117-130 | corrected Update: no statement is built exactly when the field map is empty |
| Storage.UpdateIntendedAssigns | internal/storage/person.go:117-130 | corrected Update: a statement it builds is the one Update writes for that map; it starts `SET c0=$1`, and `WHERE id=$n+1` follows the last assignment's placeholder $n, so the SET list is never empty; the arguments are the values, then id |
| Storage.UpdateTextIgnoresValues | internal/storage/person.go:117-130 | the UPDATE text depends only on the columns visited |
| Storage.SaveArgs | internal/storage/person.go:30-40 | exactly eight arguments, the i-th being the person's field for the i-th column of the table |
| Storage.SaveRoundTrip | internal/storage/person.go:30-40 | reading the eight INSERT arguments back as a row recovers the person |
| Storage.InsertPlaceholders | internal/storage/person.go:30-32 | the INSERT uses the placeholders $1..$8, one per bound argument |
| Handlers.LetterMatchIffLastChar | internal/handlers/person.go:20 | an unanchored search for `[A-z]$` succeeds exactly when the string is non-empty and its last character lies in 'A'..'z' |
| Handlers.LetterMatchIsNotLettersOnly | internal/handlers/person.go:20 | "R2-D2 x" and "_" pass the letter check, and "Anna1" fails it |
| Handlers.ValidateCreate | internal/handlers/person.go:138-152 | accepts exactly when both name and surname end in 'A'..'z'; an unacceptable name comes first, then surname; the patronymic error is never returned |
| Handlers.ValidateCreateIgnoresPatronymic | internal/handlers/person.go:147-151 | changing the patronymic never changes the verdict |
| Handlers.ValidateUpdate | internal/handlers/person.go:201-227 | accepts exactly when every present field is acceptable (strings non-empty and ending in 'A'..'z', age in 0..120); reports the first failing field in declaration order |
| Handlers.EmptyUpdateValidates | internal/handlers/person.go:201-227 | a request with every field absent validates |
| Handlers.UpdateAgeRange | internal/handlers/person.go:214-216 | a present age on its own is accepted exactly when 0 <= age <= 120 |
| Handlers.ToMap | internal/handlers/person.go:229-257 | the keys are exactly the present fields, all among the six editable columns; each key maps to its field's value, and the request can be read back from the map |
| Handlers.QueryToMap | internal/handlers/person.go:170-199 | fails exactly when `age` is present and does not parse, and then no map is returned; otherwise the keys are the recognised parameters present in the query, each mapped to its first value, and age to the parsed integer |
| Handlers.ValidateCursorQuery | internal/handlers/person.go:154-168 | the id error is returned exactly when id is non-empty and not a uuid; the created_at error exactly when the id is fine and created_at is non-empty and not a timestamp; otherwise, and only then, the query passes |
| Handlers.EmptyCursorQueryValidates | internal/handlers/person.go:154-168 | two empty cursor parts are accepted whatever the parsers say |
| Handlers.LoneCursorPartValidates | internal/handlers/person.go:154-168 | a lone cursor part that parses is accepted: both-or-neither is not enforced |
| Handlers.ValidateCreateIntended | internal/handlers/person.go:138-152 | corrected validator: accepts exactly letters-only name and surname, and a patronymic that is empty or letters only |
| Handlers.IntendedPassImpliesWrittenPass | internal/handlers/person.go:138-152 | everything the corrected validator accepts, the code as written accepts too |
| Handlers.PatronymicNotChecked | internal/handlers/person.go:147-151 | ("Anna", "Petrova", "123") passes as written and fails the corrected patronymic check |
| Handlers.NonLettersAccepted | internal/handlers/person.go:139-145 | ("R2-D2 x", "_", "") passes as written and fails the corrected name check |
| Services.CreateCallOrder | internal/services/person.go:37-60 | Create's calls are a non-empty prefix of: age, gender and nationality lookups for the person's name, then Save of the final person |
| Services.CreateSavesIffLookupsSucceed | internal/services/person.go:38-59 | Save is called exactly when all three lookups succeed, and a run without Save returns an error |
| Services.CreateFirstFailureAborts | internal/services/person.go:38-53 | the first failing lookup ends Create with that lookup's error, and no later call is made |
| Services.CreateSuccessFields | internal/services/person.go:42-59 | when Save is reached, the person holds the three lookup answers, the generated id and timestamp, and Create returns Save's result |
| Services.CreateKeepsNames | internal/services/person.go:37-60 | name, surname and patronymic are never changed |
| Services.CreatePartialUpdate | internal/services/person.go:42-47 | a failing gender lookup after a successful age lookup leaves the new age in the caller's person |
| Services.CreateAlice | internal/services/person.go:37-60 | with a provider answering 30, "female", "US" and a store that returns the saved id, creating Alice stores those answers with the generated id and timestamp and returns the id |
| Services.DeleteChecksExistence | internal/services/person.go:66-72 | GetByID comes first; storage Delete is called, with the same id, exactly when the lookup succeeds; otherwise the lookup's error is returned |
| Services.UpdateChecksExistence | internal/services/person.go:74-80 | GetByID comes first; storage Update is called, with the same id and the fields unchanged, exactly when the lookup succeeds; otherwise the lookup's error is returned |
| Services.AppendAllowed | internal/services/person.go:37-80 | appending a call that meets its ordering condition keeps the log invariant |
| Services.CreateKeepsLogInvariant | internal/services/person.go:37-60 | a Create run keeps the log invariant |
| Services.DeleteKeepsLogInvariant | internal/services/person.go:66-72 | a Delete run keeps the log invariant |
| Services.UpdateKeepsLogInvariant | internal/services/person.go:74-80 | an Update run keeps the log invariant |
| Services.GetKeepsLogInvariant | internal/services/person.go:62-64 | a Get call keeps the log invariant |
| Services.PersonService.constructor | internal/services/person.go:30-35 | the service holds the given collaborators, with an empty log that satisfies the invariant |
| Services.PersonService.GetAge | internal/services/person.go:38 | one call of the provider's GetAge (interface at lines 19-23) on the log so far: the log grows by that age lookup and the result is the provider's answer |
| Services.PersonService.GetGender | internal/services/person.go:44 | one call of the provider's GetGender on the log so far: the log grows by that gender lookup and the result is the provider's answer |
| Services.PersonService.GetNationality | internal/services/person.go:50 | one call of the provider's GetNationality on the log so far: the log grows by that nationality lookup and the result is the provider's answer |
| Services.PersonService.Save | internal/services/person.go:59 | one call of storage's Save (interface at lines 11-17) on the log so far: the log grows by that Save of the given person and the result is storage's answer |
| Services.PersonService.GetByID | internal/services/person.go:67 | one call of storage's GetByID, as Delete makes at line 67 and Update at line 75: the log grows by that lookup and the result is storage's answer |
| Services.PersonService.Create | internal/services/person.go:37-60 | the log grows by CreateSpec's calls, the person becomes CreateSpec's person and the result is its result; the invariant is kept |
| Services.PersonService.Get | internal/services/person.go:62-64 | one storage Get with the arguments unchanged, returning storage's answer |
| Services.PersonService.Delete | internal/services/person.go:66-72 | the log grows by DeleteSpec's calls and the result is its outcome; the invariant is kept |
| Services.PersonService.Update | internal/services/person.go:74-80 | the log grows by UpdateSpec's calls and the result is its outcome; the invariant is kept |
| Composition.LoneCursorPartIgnored | internal/storage/person.go:67-72 | a lone cursor part passes validation and then yields exactly the query and arguments of no cursor |
| Composition.FilterColumnsAllowListed | internal/handlers/person.go:170-199 | with a filter map whose keys come from queryToMap, every `column=` in the SELECT names one of name, surname, age, gender, nationality |
| Composition.AbsentColumnNotAssigned | internal/storage/person.go:119-124 | a column the map does not hold never appears as `column=` |
| Composition.UpdateNeverTouchesIdentity | internal/handlers/person.go:229-257 | with a field map whose keys come from toMap, the UPDATE never assigns `id=` or `created_at=` |

## Findings

| source | as written | input that shows it | evidently intended | confidence | as-written member | corrected member |
|---|---|---|---|---|---|---|
| internal/handlers/person.go:147 | the patronymic branch passes `req.Surname` to the letter check | name "Anna", surname "Petrova", patronymic "123" is accepted | test `req.Patronymic`, as the error message says | high, not executed | Handlers.PatronymicNotChecked | Handlers.ValidateCreateIntended |
| internal/handlers/person.go:20 | `[A-z]$` only tests the last character, against the range 'A'..'z' | name "R2-D2 x", surname "_" is accepted | letters only, as the error messages say ("must contain only letters") | medium, not executed | Handlers.NonLettersAccepted | Handlers.ValidateCreateIntended |
| internal/storage/person.go:96-98 | the filter predicates inside `WHERE` are joined with `strings.Join(getValues, ", ")` | filters name and age with no cursor give `SELECT * FROM persons WHERE name=$1, age=$2 ORDER BY ...`, which SQL's WHERE grammar does not accept | join the predicates with " AND ", as the cursor predicate is joined to them | high, not executed | Storage.TwoFiltersCommaJoined | Storage.SelectIntendedConjoinsFilters |
| internal/storage/person.go:117-130 | Update has no emptiness guard, and `updatePersonRequest.validate` passes a body with every field absent | a PUT with body `{}` builds `UPDATE persons SET  WHERE id=$1`, which SQL does not accept, so the request fails in storage instead of validation | refuse an empty field map before building the statement | high, not executed | Storage.UpdateWithoutFields | Storage.UpdateStatementIntended |

Nothing else in the model depends on the create validator, so both halves sit side by side. `Handlers.ValidateCreate` is the code as written. `Handlers.ValidateCreateIntended` is the corrected validator, and `Handlers.IntendedPassImpliesWrittenPass` relates the two. For the SELECT, `Storage.BuildGet` keeps the code as written, since the two differ only in the separator text. `Storage.SelectQueryIntended` is the corrected query. The corrected query numbers its placeholders the same way and binds the same arguments (`Storage.SelectIntendedPlaceholders`), and `Storage.SelectIntendedConjoinsFilters`, `Storage.ConjunctionHasNoComma` and `Storage.TwoFiltersIntended` give its filter list. The other `Select*` lemmas are proved about the query as written only; `Storage.SelectArgs`, the argument list, is shared by both. For the UPDATE, `Storage.BuildUpdate` keeps the code as written, and `Storage.UpdateStatementIntended` is the corrected statement: it is the written one whenever the map is non-empty, and none otherwise.

## Left out

- SQL execution: `ExecContext`, `SelectContext` and `GetContext`, the rows they return, and their errors. The builders stop at the query and the arguments. Row ordering and "rows below the cursor" are database semantics.
- `PersonStorage.GetByID` and `PersonStorage.Delete`: these are one fixed statement each. In the service they are abstract storage calls.
- Save returning `person.ID`: the value of a storage Save is left to the abstract store. `Services.CreateAlice` uses a store that returns the id.
- The whitespace inside Save's INSERT literal: the model writes it as one line. Whitespace inside the statement is not significant to SQL.
- Debug logging and timing (`time.Since`) in storage.
- `uuid.Parse` and `time.Parse` (layout `2006-01-02 15:04:05.000000`): these are the parameters `isUuid` and `isTimestamp`.
- `uuid.NewString` and `time.Now`: these are Create's parameters `id` and `now`. `time.Time` is an integer instant.
- `context.Context` cancellation: it is not modelled.
- Go's `return "", err`: the model keeps only the error (a `Failure`) and drops the empty string beside it.
- The HTTP handler bodies, JSON decoding, routing, middleware and response envelopes. The `limit` parsing happens in the handler, so it is out of scope too.
- The external API clients, including the "NONE" nationality fallback: the provider is abstract and may answer anything.
- Configuration, process start-up and shutdown, and the database connection setup.
- Concurrency: calls are sequential in the model. The race between the existence check and the mutation is not modelled.
