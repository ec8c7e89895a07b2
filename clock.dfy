/** The instants `datetime.now(timezone.utc)` hands out. The clock itself is
    outside the model: every operation that reads it takes the instant as a
    parameter. */
module Clock {

  datatype DateTime = DateTime(
    year: int, month: int, day: int,
    hour: int, minute: int, second: int, microsecond: int)
  {
    /** The field ranges `datetime` enforces (the day is not checked against the month). */
    predicate Valid() {
      && 1 <= year <= 9999
      && 1 <= month <= 12
      && 1 <= day <= 31
      && 0 <= hour < 24
      && 0 <= minute < 60
      && 0 <= second < 60
      && 0 <= microsecond < 1000000
    }
  }

  type Timestamp = t: DateTime | t.Valid() witness DateTime(1970, 1, 1, 0, 0, 0, 0)
}
