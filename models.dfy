/** The person record (internal/models/person.go) and the values bound to SQL parameters. */
module Models {
  import opened Wrappers

  /** Go's int8, the type of Person.Age. */
  newtype Int8 = x: int | -128 <= x < 128

  /** time.Time, abstracted to an instant on a discrete clock. */
  type Instant = int

  /** A value of Go's `any` as it reaches the database driver. */
  datatype Value =
    | StrVal(s: string)
    | IntVal(i: int)
    | Int8Val(b: Int8)
    | TimeVal(t: Instant)

  datatype Person = Person(
    id: string,
    name: string,
    surname: string,
    patronymic: string,
    age: Int8,
    gender: string,
    nationality: string,
    createdAt: Instant)

  /** A `*models.Person`: the service mutates the record the handler allocated. */
  class PersonCell {
    var value: Person

    constructor (p: Person)
      ensures value == p
    {
      value := p;
    }
  }

  /** The `db` tags of Person, in declaration order: the columns of table persons. */
  const PERSON_COLUMNS: seq<string> :=
    ["id", "name", "surname", "patronymic", "age", "gender", "nationality", "created_at"]

  /** The field of `p` that the `db` tag `column` names, as a driver value. */
  function ColumnValue(p: Person, column: string): (r: Option<Value>)
    ensures r.Some? <==> column in PERSON_COLUMNS
  {
    if column == "id" then Some(StrVal(p.id))
    else if column == "name" then Some(StrVal(p.name))
    else if column == "surname" then Some(StrVal(p.surname))
    else if column == "patronymic" then Some(StrVal(p.patronymic))
    else if column == "age" then Some(Int8Val(p.age))
    else if column == "gender" then Some(StrVal(p.gender))
    else if column == "nationality" then Some(StrVal(p.nationality))
    else if column == "created_at" then Some(TimeVal(p.createdAt))
    else None
  }
}
