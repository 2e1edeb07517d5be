/**
 * The records of internal/model/person.go: the stored `Person` and the
 * `PersonRequest` body that create and update decode.
 */
module Model {

  import opened Wrappers

  newtype Byte = b: int | 0 <= b < 256

  /** `uuid.UUID`: sixteen bytes. */
  type Uuid = s: seq<Byte> | |s| == 16 witness [0, 0, 0, 0, 0, 0, 0, 0, 0, 0, 0, 0, 0, 0, 0, 0]

  /** The zero `uuid.UUID`, the id of a `Person` nobody has assigned one to yet. */
  const NilUuid: Uuid := [0, 0, 0, 0, 0, 0, 0, 0, 0, 0, 0, 0, 0, 0, 0, 0]

  /** An instant as the database reports it; only equality of instants matters here. */
  type Time = int

  /** The zero `time.Time`, the timestamps of a `Person` not yet stored. */
  const ZeroTime: Time := 0

  /** The value of a `Person` at one moment: what a response carries and a row holds. */
  datatype PersonRecord = PersonRecord(
    id: Uuid,
    name: string,
    surname: string,
    patronymic: Option<string>,
    age: Option<int>,
    gender: Option<string>,
    nationality: Option<string>,
    createdAt: Time,
    updatedAt: Time)

  /**
   * `model.Person`: handlers and the data layer hold it by pointer and assign
   * its fields in place (the data layer sets the id and the timestamps, the
   * update handler the request's fields).
   */
  class Person {
    var id: Uuid
    var name: string
    var surname: string
    var patronymic: Option<string>
    var age: Option<int>
    var gender: Option<string>
    var nationality: Option<string>
    var createdAt: Time
    var updatedAt: Time

    function Snapshot(): (p: PersonRecord)
      reads this
    {
      PersonRecord(id, name, surname, patronymic, age, gender, nationality, createdAt, updatedAt)
    }

    constructor FromRecord(p: PersonRecord)
      ensures Snapshot() == p
    {
      id, name, surname := p.id, p.name, p.surname;
      patronymic, age, gender, nationality := p.patronymic, p.age, p.gender, p.nationality;
      createdAt, updatedAt := p.createdAt, p.updatedAt;
    }
  }

  /**
   * `model.PersonRequest`, which has the same fields as the handlers' package-level
   * decode target: plain strings for name and surname, nil-able pointers for the rest.
   */
  datatype PersonRequest = PersonRequest(
    name: string,
    surname: string,
    patronymic: Option<string>,
    age: Option<int>,
    gender: Option<string>,
    nationality: Option<string>)

  /** The zero value of the request struct, before any body was decoded into it. */
  const EmptyRequest := PersonRequest("", "", None, None, None, None)
}
