/**
 * The service layer of internal/services/person.go. The storage and the
 * external data provider are collaborators the service cannot see into:
 * each is a record of functions that answer a call given the history of
 * calls made before it, so a collaborator may keep any state it likes.
 * The service keeps the log of the calls it has made.
 */
module Services {
  import opened Wrappers
  import opened Models

  datatype Error = Error(message: string)

  type Fields = map<string, Value>

  /** A call the service makes on one of its collaborators. */
  datatype Call =
    | AgeLookup(name: string)
    | GenderLookup(name: string)
    | NationalityLookup(name: string)
    | StorageSave(person: Person)
    | StorageGetByID(id: string)
    | StorageGet(filters: Fields, id: string, createdAt: string, limit: int)
    | StorageDelete(id: string)
    | StorageUpdate(id: string, fields: Fields)

  /** The PersonDataProvider interface (lines 19-23). */
  datatype DataProvider = DataProvider(
    age: (seq<Call>, string) -> Result<Int8, Error>,
    gender: (seq<Call>, string) -> Result<string, Error>,
    nationality: (seq<Call>, string) -> Result<string, Error>)

  /** The PersonStorage interface (lines 11-17). */
  datatype PersonStore = PersonStore(
    save: (seq<Call>, Person) -> Result<string, Error>,
    getByID: (seq<Call>, string) -> Result<Person, Error>,
    get: (seq<Call>, Fields, string, string, int) -> Result<seq<Person>, Error>,
    delete: (seq<Call>, string) -> Outcome<Error>,
    update: (seq<Call>, string, Fields) -> Outcome<Error>)

  // ---------------------------------------------------------------- Create

  /** What one Create does: the calls it makes, the person it leaves behind and its result. */
  datatype CreateRun = CreateRun(calls: seq<Call>, person: Person, result: Result<string, Error>)

  /**
   * Create, call by call: three lookups by name, each stored into the person
   * as soon as it succeeds, then the generated id and timestamp, then Save.
   */
  function CreateSpec(provider: DataProvider, store: PersonStore, history: seq<Call>,
                      p: Person, id: string, now: Instant): CreateRun
  {
    var age := provider.age(history, p.name);
    if age.Failure? then CreateRun([AgeLookup(p.name)], p, Failure(age.error))
    else
      var p1 := p.(age := age.value);
      var h1 := history + [AgeLookup(p.name)];
      var gender := provider.gender(h1, p.name);
      if gender.Failure? then CreateRun([AgeLookup(p.name), GenderLookup(p.name)], p1, Failure(gender.error))
      else
        var p2 := p1.(gender := gender.value);
        var h2 := h1 + [GenderLookup(p.name)];
        var nationality := provider.nationality(h2, p.name);
        if nationality.Failure? then
          CreateRun([AgeLookup(p.name), GenderLookup(p.name), NationalityLookup(p.name)], p2, Failure(nationality.error))
        else
          var p3 := p2.(nationality := nationality.value, id := id, createdAt := now);
          var h3 := h2 + [NationalityLookup(p.name)];
          CreateRun([AgeLookup(p.name), GenderLookup(p.name), NationalityLookup(p.name), StorageSave(p3)],
                    p3, store.save(h3, p3))
  }

  /** The calls are always a non-empty prefix of: age, gender, nationality by name, then Save. */
  lemma CreateCallOrder(provider: DataProvider, store: PersonStore, history: seq<Call>,
                        p: Person, id: string, now: Instant)
    ensures var run := CreateSpec(provider, store, history, p, id, now);
      && 1 <= |run.calls|
      && run.calls <= [AgeLookup(p.name), GenderLookup(p.name), NationalityLookup(p.name), StorageSave(run.person)]
  {
  }

  /** Save is reached exactly when all three lookups succeed, and a run without Save fails. */
  lemma CreateSavesIffLookupsSucceed(provider: DataProvider, store: PersonStore, history: seq<Call>,
                                     p: Person, id: string, now: Instant)
    ensures var run := CreateSpec(provider, store, history, p, id, now);
      var h1 := history + [AgeLookup(p.name)];
      var h2 := h1 + [GenderLookup(p.name)];
      && ((exists c :: c in run.calls && c.StorageSave?) <==>
            && provider.age(history, p.name).Success?
            && provider.gender(h1, p.name).Success?
            && provider.nationality(h2, p.name).Success?)
      && ((forall c :: c in run.calls ==> !c.StorageSave?) ==> run.result.Failure?)
  {
    var run := CreateSpec(provider, store, history, p, id, now);
    if |run.calls| == 4 {
      assert run.calls[3] in run.calls;
    }
  }

  /** The first failing lookup ends the run with its own error; nothing later is called. */
  lemma CreateFirstFailureAborts(provider: DataProvider, store: PersonStore, history: seq<Call>,
                                 p: Person, id: string, now: Instant)
    ensures var run := CreateSpec(provider, store, history, p, id, now);
      var h1 := history + [AgeLookup(p.name)];
      var h2 := h1 + [GenderLookup(p.name)];
      && (provider.age(history, p.name).Failure? ==>
            run.calls == [AgeLookup(p.name)] && run.result == Failure(provider.age(history, p.name).error))
      && (provider.age(history, p.name).Success? && provider.gender(h1, p.name).Failure? ==>
            |run.calls| == 2 && run.result == Failure(provider.gender(h1, p.name).error))
      && (provider.age(history, p.name).Success? && provider.gender(h1, p.name).Success?
          && provider.nationality(h2, p.name).Failure? ==>
            |run.calls| == 3 && run.result == Failure(provider.nationality(h2, p.name).error))
  {
  }

  /**
   * On the path that reaches Save, the person carries the provider's three
   * answers, the generated id and timestamp, and Create returns Save's result.
   */
  lemma CreateSuccessFields(provider: DataProvider, store: PersonStore, history: seq<Call>,
                            p: Person, id: string, now: Instant)
    requires StorageSave(CreateSpec(provider, store, history, p, id, now).person)
             in CreateSpec(provider, store, history, p, id, now).calls
    ensures var run := CreateSpec(provider, store, history, p, id, now);
      var h1 := history + [AgeLookup(p.name)];
      var h2 := h1 + [GenderLookup(p.name)];
      var h3 := h2 + [NationalityLookup(p.name)];
      && provider.age(history, p.name) == Success(run.person.age)
      && provider.gender(h1, p.name) == Success(run.person.gender)
      && provider.nationality(h2, p.name) == Success(run.person.nationality)
      && run.person.id == id && run.person.createdAt == now
      && run.result == store.save(h3, run.person)
  {
  }

  /** Whatever happens, the caller's name, surname and patronymic are untouched. */
  lemma CreateKeepsNames(provider: DataProvider, store: PersonStore, history: seq<Call>,
                         p: Person, id: string, now: Instant)
    ensures var run := CreateSpec(provider, store, history, p, id, now);
      run.person.name == p.name && run.person.surname == p.surname && run.person.patronymic == p.patronymic
  {
  }

  /**
   * The person is updated as the lookups succeed: a failing gender lookup
   * leaves the new age in place while id and created_at stay as they were.
   */
  lemma CreatePartialUpdate(provider: DataProvider, store: PersonStore, history: seq<Call>,
                            p: Person, id: string, now: Instant)
    ensures var run := CreateSpec(provider, store, history, p, id, now);
      var h1 := history + [AgeLookup(p.name)];
      provider.age(history, p.name).Success? && provider.gender(h1, p.name).Failure? ==>
        run.person == p.(age := provider.age(history, p.name).value)
  {
  }

  /** A provider that knows one answer for every name. */
  const FIXED_PROVIDER := DataProvider(
    (h: seq<Call>, name: string) => Success(30 as Int8),
    (h: seq<Call>, name: string) => Success("female"),
    (h: seq<Call>, name: string) => Success("US"))

  /** A store whose Save succeeds with the saved person's id, as PersonStorage.Save does. */
  const ACCEPTING_STORE := PersonStore(
    (h: seq<Call>, p: Person) => Success(p.id),
    (h: seq<Call>, id: string) => Failure(Error("not found")),
    (h: seq<Call>, f: Fields, id: string, createdAt: string, limit: int) => Success([]),
    (h: seq<Call>, id: string) => Pass,
    (h: seq<Call>, id: string, f: Fields) => Pass)

  /** Creating "Alice" stores the three answers and returns the generated id. */
  lemma CreateAlice(history: seq<Call>, surname: string, id: string, now: Instant)
    ensures var p := Person("", "Alice", surname, "", 0, "", "", 0);
      var run := CreateSpec(FIXED_PROVIDER, ACCEPTING_STORE, history, p, id, now);
      && run.person == Person(id, "Alice", surname, "", 30, "female", "US", now)
      && run.result == Success(id)
      && |run.calls| == 4
  {
  }

  // ---------------------------------------------------------------- Delete and Update

  /** What one Delete or Update does. */
  datatype GuardedRun = GuardedRun(calls: seq<Call>, outcome: Outcome<Error>)

  /** Delete: an existence check, then the storage Delete. */
  function DeleteSpec(store: PersonStore, history: seq<Call>, id: string): GuardedRun {
    var found := store.getByID(history, id);
    if found.Failure? then GuardedRun([StorageGetByID(id)], Fail(found.error))
    else GuardedRun([StorageGetByID(id), StorageDelete(id)], store.delete(history + [StorageGetByID(id)], id))
  }

  /** Update: an existence check, then the storage Update with the fields as given. */
  function UpdateSpec(store: PersonStore, history: seq<Call>, id: string, fields: Fields): GuardedRun {
    var found := store.getByID(history, id);
    if found.Failure? then GuardedRun([StorageGetByID(id)], Fail(found.error))
    else GuardedRun([StorageGetByID(id), StorageUpdate(id, fields)],
                    store.update(history + [StorageGetByID(id)], id, fields))
  }

  /**
   * Delete reaches storage only for a person that was found, only for the
   * same id, and passes a lookup error through unchanged.
   */
  lemma DeleteChecksExistence(store: PersonStore, history: seq<Call>, id: string)
    ensures var run := DeleteSpec(store, history, id);
      && run.calls[0] == StorageGetByID(id)
      && (StorageDelete(id) in run.calls <==> store.getByID(history, id).Success?)
      && (forall c | c in run.calls :: !c.StorageUpdate? && (c.StorageDelete? ==> c.id == id))
      && (store.getByID(history, id).Failure? ==> run.outcome == Fail(store.getByID(history, id).error))
      && (store.getByID(history, id).Success? ==> run.outcome == store.delete(history + [run.calls[0]], id))
  {
  }

  /** The same for Update, and the field map reaches storage unchanged. */
  lemma UpdateChecksExistence(store: PersonStore, history: seq<Call>, id: string, fields: Fields)
    ensures var run := UpdateSpec(store, history, id, fields);
      && run.calls[0] == StorageGetByID(id)
      && ((exists c :: c in run.calls && c.StorageUpdate?) <==> store.getByID(history, id).Success?)
      && (forall c | c in run.calls :: !c.StorageDelete? && (c.StorageUpdate? ==> c == StorageUpdate(id, fields)))
      && (store.getByID(history, id).Failure? ==> run.outcome == Fail(store.getByID(history, id).error))
      && (store.getByID(history, id).Success? ==> run.outcome == store.update(history + [run.calls[0]], id, fields))
  {
    var run := UpdateSpec(store, history, id, fields);
    if store.getByID(history, id).Success? {
      assert run.calls[1] in run.calls;
    }
  }

  // ---------------------------------------------------------------- the log invariant

  /** Every storage Delete or Update directly follows a successful GetByID of the same id. */
  ghost predicate MutationsChecked(store: PersonStore, log: seq<Call>) {
    forall i | 0 <= i < |log| && (log[i].StorageDelete? || log[i].StorageUpdate?) ::
      && 0 < i
      && log[i - 1] == StorageGetByID(log[i].id)
      && store.getByID(log[..i - 1], log[i].id).Success?
  }

  /** Every Save directly follows the three lookups for its name and carries their answers. */
  ghost predicate SavesEnriched(provider: DataProvider, log: seq<Call>) {
    forall i | 0 <= i < |log| && log[i].StorageSave? ::
      && 3 <= i
      && log[i - 3] == AgeLookup(log[i].person.name)
      && log[i - 2] == GenderLookup(log[i].person.name)
      && log[i - 1] == NationalityLookup(log[i].person.name)
      && provider.age(log[..i - 3], log[i].person.name) == Success(log[i].person.age)
      && provider.gender(log[..i - 2], log[i].person.name) == Success(log[i].person.gender)
      && provider.nationality(log[..i - 1], log[i].person.name) == Success(log[i].person.nationality)
  }

  ghost predicate LogInvariant(provider: DataProvider, store: PersonStore, log: seq<Call>) {
    MutationsChecked(store, log) && SavesEnriched(provider, log)
  }

  /** What a new call needs of the log before it for LogInvariant to survive it. */
  ghost predicate CallAllowed(provider: DataProvider, store: PersonStore, h: seq<Call>, c: Call) {
    && ((c.StorageDelete? || c.StorageUpdate?) ==>
          && 0 < |h|
          && h[|h| - 1] == StorageGetByID(c.id)
          && store.getByID(h[..|h| - 1], c.id).Success?)
    && (c.StorageSave? ==>
          && 3 <= |h|
          && h[|h| - 3] == AgeLookup(c.person.name)
          && h[|h| - 2] == GenderLookup(c.person.name)
          && h[|h| - 1] == NationalityLookup(c.person.name)
          && provider.age(h[..|h| - 3], c.person.name) == Success(c.person.age)
          && provider.gender(h[..|h| - 2], c.person.name) == Success(c.person.gender)
          && provider.nationality(h[..|h| - 1], c.person.name) == Success(c.person.nationality))
  }

  /** Extending a log leaves its old prefixes as they were. */
  lemma PrefixOfExtended(h: seq<Call>, c: Call, j: nat)
    requires j <= |h|
    ensures (h + [c])[..j] == h[..j]
  {
  }

  /** Appending an allowed call keeps the invariant. */
  lemma AppendAllowed(provider: DataProvider, store: PersonStore, h: seq<Call>, c: Call)
    requires LogInvariant(provider, store, h)
    requires CallAllowed(provider, store, h, c)
    ensures LogInvariant(provider, store, h + [c])
  {
    AppendKeepsMutationsChecked(provider, store, h, c);
    AppendKeepsSavesEnriched(provider, store, h, c);
  }

  lemma AppendKeepsMutationsChecked(provider: DataProvider, store: PersonStore, h: seq<Call>, c: Call)
    requires MutationsChecked(store, h)
    requires CallAllowed(provider, store, h, c)
    ensures MutationsChecked(store, h + [c])
  {
    var l := h + [c];
    forall i | 0 <= i < |l| && (l[i].StorageDelete? || l[i].StorageUpdate?)
      ensures 0 < i && l[i - 1] == StorageGetByID(l[i].id) && store.getByID(l[..i - 1], l[i].id).Success?
    {
      if i < |h| {
        assert l[i] == h[i];
      }
      PrefixOfExtended(h, c, i - 1);
    }
  }

  lemma AppendKeepsSavesEnriched(provider: DataProvider, store: PersonStore, h: seq<Call>, c: Call)
    requires SavesEnriched(provider, h)
    requires CallAllowed(provider, store, h, c)
    ensures SavesEnriched(provider, h + [c])
  {
    var l := h + [c];
    forall i | 0 <= i < |l| && l[i].StorageSave?
      ensures && 3 <= i
        && l[i - 3] == AgeLookup(l[i].person.name)
        && l[i - 2] == GenderLookup(l[i].person.name)
        && l[i - 1] == NationalityLookup(l[i].person.name)
        && provider.age(l[..i - 3], l[i].person.name) == Success(l[i].person.age)
        && provider.gender(l[..i - 2], l[i].person.name) == Success(l[i].person.gender)
        && provider.nationality(l[..i - 1], l[i].person.name) == Success(l[i].person.nationality)
    {
      if i < |h| {
        assert l[i] == h[i];
      }
      PrefixOfExtended(h, c, i - 1);
      PrefixOfExtended(h, c, i - 2);
      PrefixOfExtended(h, c, i - 3);
    }
  }

  /** When Create reaches Save, the log before it allows that Save. */
  lemma CreateSaveAllowed(provider: DataProvider, store: PersonStore, history: seq<Call>,
                          p: Person, id: string, now: Instant)
    requires |CreateSpec(provider, store, history, p, id, now).calls| == 4
    ensures var h3 := history + [AgeLookup(p.name), GenderLookup(p.name), NationalityLookup(p.name)];
      CallAllowed(provider, store, h3, StorageSave(CreateSpec(provider, store, history, p, id, now).person))
  {
    var h3 := history + [AgeLookup(p.name), GenderLookup(p.name), NationalityLookup(p.name)];
    var n := |history|;
    assert h3[..n] == history;
    assert h3[..n + 1] == history + [AgeLookup(p.name)];
    assert h3[..n + 2] == history + [AgeLookup(p.name)] + [GenderLookup(p.name)];
  }

  /** Calls that neither save nor mutate keep the invariant. */
  lemma {:induction false} ExtendInert(provider: DataProvider, store: PersonStore, h: seq<Call>, c: seq<Call>)
    requires LogInvariant(provider, store, h)
    requires forall k | 0 <= k < |c| :: !c[k].StorageDelete? && !c[k].StorageUpdate? && !c[k].StorageSave?
    ensures LogInvariant(provider, store, h + c)
    decreases |c|
  {
    if c == [] {
      assert h + c == h;
    } else {
      AppendAllowed(provider, store, h, c[0]);
      assert forall k | 0 <= k < |c[1..]| :: c[1..][k] == c[k + 1];
      ExtendInert(provider, store, h + [c[0]], c[1..]);
      assert h + [c[0]] + c[1..] == h + c;
    }
  }

  /** Create keeps the log invariant: its Save, when reached, follows the lookups it used. */
  lemma CreateKeepsLogInvariant(provider: DataProvider, store: PersonStore, history: seq<Call>,
                                p: Person, id: string, now: Instant)
    requires LogInvariant(provider, store, history)
    ensures LogInvariant(provider, store, history + CreateSpec(provider, store, history, p, id, now).calls)
  {
    var run := CreateSpec(provider, store, history, p, id, now);
    var lookups := [AgeLookup(p.name), GenderLookup(p.name), NationalityLookup(p.name)];
    if |run.calls| < 4 {
      ExtendInert(provider, store, history, run.calls);
    } else {
      ExtendInert(provider, store, history, lookups);
      CreateSaveAllowed(provider, store, history, p, id, now);
      AppendAllowed(provider, store, history + lookups, StorageSave(run.person));
      assert history + run.calls == (history + lookups) + [StorageSave(run.person)];
    }
  }

  lemma DeleteKeepsLogInvariant(provider: DataProvider, store: PersonStore, history: seq<Call>, id: string)
    requires LogInvariant(provider, store, history)
    ensures LogInvariant(provider, store, history + DeleteSpec(store, history, id).calls)
  {
    var h1 := history + [StorageGetByID(id)];
    AppendAllowed(provider, store, history, StorageGetByID(id));
    if store.getByID(history, id).Success? {
      assert h1[..|history|] == history;
      AppendAllowed(provider, store, h1, StorageDelete(id));
      assert history + DeleteSpec(store, history, id).calls == h1 + [StorageDelete(id)];
    } else {
      assert history + DeleteSpec(store, history, id).calls == h1;
    }
  }

  lemma UpdateKeepsLogInvariant(provider: DataProvider, store: PersonStore, history: seq<Call>,
                                id: string, fields: Fields)
    requires LogInvariant(provider, store, history)
    ensures LogInvariant(provider, store, history + UpdateSpec(store, history, id, fields).calls)
  {
    var h1 := history + [StorageGetByID(id)];
    AppendAllowed(provider, store, history, StorageGetByID(id));
    if store.getByID(history, id).Success? {
      assert h1[..|history|] == history;
      AppendAllowed(provider, store, h1, StorageUpdate(id, fields));
      assert history + UpdateSpec(store, history, id, fields).calls == h1 + [StorageUpdate(id, fields)];
    } else {
      assert history + UpdateSpec(store, history, id, fields).calls == h1;
    }
  }

  /** A read-only storage query keeps the invariant. */
  lemma GetKeepsLogInvariant(provider: DataProvider, store: PersonStore, history: seq<Call>,
                             filters: Fields, id: string, createdAt: string, limit: int)
    requires LogInvariant(provider, store, history)
    ensures LogInvariant(provider, store, history + [StorageGet(filters, id, createdAt, limit)])
  {
    AppendAllowed(provider, store, history, StorageGet(filters, id, createdAt, limit));
  }

  // ---------------------------------------------------------------- the service

  /** PersonService, with the log of the calls it has made on its collaborators. */
  class PersonService {
    const store: PersonStore
    const provider: DataProvider
    var log: seq<Call>

    /** Every mutation in the log was checked, and every saved person was enriched. */
    ghost predicate Valid()
      reads this
    {
      LogInvariant(provider, store, log)
    }

    constructor (store: PersonStore, provider: DataProvider)
      ensures this.store == store && this.provider == provider && log == []
      ensures Valid()
    {
      this.store := store;
      this.provider := provider;
      log := [];
    }

    // The five methods below are not service operations: each stands for one
    // call on a collaborator (s.provider.GetAge, s.storage.Save, ...) and
    // records it in the log. They are used only inside Create, Delete and
    // Update, which re-establish Valid() around them.

    method GetAge(name: string) returns (r: Result<Int8, Error>)
      modifies this
      ensures log == old(log) + [AgeLookup(name)] && r == provider.age(old(log), name)
    {
      r := provider.age(log, name);
      log := log + [AgeLookup(name)];
    }

    method GetGender(name: string) returns (r: Result<string, Error>)
      modifies this
      ensures log == old(log) + [GenderLookup(name)] && r == provider.gender(old(log), name)
    {
      r := provider.gender(log, name);
      log := log + [GenderLookup(name)];
    }

    method GetNationality(name: string) returns (r: Result<string, Error>)
      modifies this
      ensures log == old(log) + [NationalityLookup(name)] && r == provider.nationality(old(log), name)
    {
      r := provider.nationality(log, name);
      log := log + [NationalityLookup(name)];
    }

    method Save(p: Person) returns (r: Result<string, Error>)
      modifies this
      ensures log == old(log) + [StorageSave(p)] && r == store.save(old(log), p)
    {
      r := store.save(log, p);
      log := log + [StorageSave(p)];
    }

    method GetByID(id: string) returns (r: Result<Person, Error>)
      modifies this
      ensures log == old(log) + [StorageGetByID(id)] && r == store.getByID(old(log), id)
    {
      r := store.getByID(log, id);
      log := log + [StorageGetByID(id)];
    }

    /**
     * Create enriches `person` in place, assigns the generated id and
     * timestamp, and saves it; the first failing lookup returns its error.
     */
    method Create(person: PersonCell, id: string, now: Instant) returns (r: Result<string, Error>)
      requires Valid()
      modifies this, person
      ensures Valid()
      ensures var run := CreateSpec(provider, store, old(log), old(person.value), id, now);
        log == old(log) + run.calls && person.value == run.person && r == run.result
    {
      ghost var history := log;
      ghost var p := person.value;
      ghost var run := CreateSpec(provider, store, history, p, id, now);
      CreateKeepsLogInvariant(provider, store, history, p, id, now);
      var age := GetAge(person.value.name);
      if age.Failure? {
        assert run.calls == [AgeLookup(p.name)];
        return Failure(age.error);
      }
      person.value := person.value.(age := age.value);

      var gender := GetGender(person.value.name);
      if gender.Failure? {
        assert run.calls == [AgeLookup(p.name), GenderLookup(p.name)];
        assert log == history + run.calls;
        return Failure(gender.error);
      }
      person.value := person.value.(gender := gender.value);

      var nationality := GetNationality(person.value.name);
      if nationality.Failure? {
        assert run.calls == [AgeLookup(p.name), GenderLookup(p.name), NationalityLookup(p.name)];
        assert log == history + run.calls;
        return Failure(nationality.error);
      }
      person.value := person.value.(nationality := nationality.value);

      person.value := person.value.(id := id);
      person.value := person.value.(createdAt := now);
      assert person.value == run.person;

      r := Save(person.value);
      assert log == history + run.calls;
    }

    /** Get hands its arguments to storage unchanged and returns its answer. */
    method Get(filters: Fields, id: string, createdAt: string, limit: int) returns (r: Result<seq<Person>, Error>)
      requires Valid()
      modifies this
      ensures Valid()
      ensures log == old(log) + [StorageGet(filters, id, createdAt, limit)]
      ensures r == store.get(old(log), filters, id, createdAt, limit)
    {
      GetKeepsLogInvariant(provider, store, log, filters, id, createdAt, limit);
      r := store.get(log, filters, id, createdAt, limit);
      log := log + [StorageGet(filters, id, createdAt, limit)];
    }

    method Delete(id: string) returns (r: Outcome<Error>)
      requires Valid()
      modifies this
      ensures Valid()
      ensures var run := DeleteSpec(store, old(log), id);
        log == old(log) + run.calls && r == run.outcome
    {
      ghost var history := log;
      DeleteKeepsLogInvariant(provider, store, history, id);
      var found := GetByID(id);
      if found.Failure? {
        assert log == history + DeleteSpec(store, history, id).calls;
        return Fail(found.error);
      }
      r := store.delete(log, id);
      log := log + [StorageDelete(id)];
      assert log == history + DeleteSpec(store, history, id).calls;
    }

    method Update(id: string, fields: Fields) returns (r: Outcome<Error>)
      requires Valid()
      modifies this
      ensures Valid()
      ensures var run := UpdateSpec(store, old(log), id, fields);
        log == old(log) + run.calls && r == run.outcome
    {
      ghost var history := log;
      UpdateKeepsLogInvariant(provider, store, history, id, fields);
      var found := GetByID(id);
      if found.Failure? {
        assert log == history + UpdateSpec(store, history, id, fields).calls;
        return Fail(found.error);
      }
      r := store.update(log, id, fields);
      log := log + [StorageUpdate(id, fields)];
      assert log == history + UpdateSpec(store, history, id, fields).calls;
    }
  }
}
