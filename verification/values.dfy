/** Small value types shared by every module: optional values, results, and JSON
    members as JavaScript sees them after destructuring a parsed request body. */
module Values {

  datatype Option<+T> = None | Some(value: T)

  datatype Result<+T, +E> = Ok(value: T) | Err(error: E)

  /** A member of a parsed JSON object: missing from the object (`undefined`
      after destructuring), present as `null`, or present with a value. */
  datatype Field<+T> = Absent | Null | Value(v: T)

  /** JavaScript truthiness of a string member: `undefined`, `null` and `""`
      are falsy, every other string is truthy. */
  predicate TruthyText(f: Field<string>) {
    f.Value? && f.v != ""
  }

  /** The column rule every upsert follows, stated independently of how it is
      computed: a value overwrites the column, `null` clears it, and an absent
      member leaves what was there before (`None` when the row is new). */
  predicate Written<T(==)>(after: Option<T>, before: Option<T>, f: Field<T>) {
    && (f.Value? ==> after == Some(f.v))
    && (f.Null? ==> after.None?)
    && (f.Absent? ==> after == before)
  }

  /** The column value after a Prisma `update` whose data names this member:
      `undefined` leaves the column as it was, `null` clears it. */
  function Assign<T>(current: Option<T>, f: Field<T>): (r: Option<T>)
    ensures r.Some? <==> f.Value? || (f.Absent? && current.Some?)
    ensures r.Some? ==> r.value == (if f.Value? then f.v else current.value)
  {
    match f
    case Absent => current
    case Null => None
    case Value(v) => Some(v)
  }

  /** The column value after a Prisma `create` whose data names this member:
      `undefined` and `null` both leave the nullable column empty. */
  function Initial<T>(f: Field<T>): (r: Option<T>)
    ensures r.Some? <==> f.Value?
    ensures r.Some? ==> r.value == f.v
  {
    match f
    case Value(v) => Some(v)
    case _ => None
  }

  /** Writing the same member twice has the effect of writing it once, and a
      created column is what an update of an empty column would give. */
  lemma AssignIdempotent<T>(current: Option<T>, f: Field<T>)
    ensures Assign(Assign(current, f), f) == Assign(current, f)
    ensures Assign(None, f) == Initial(f)
  {
  }
}
