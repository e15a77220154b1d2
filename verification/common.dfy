// Small vocabulary shared by the component models.
module Common {

  datatype Option<+T> = None | Some(value: T)

  // Instants and durations are whole nanoseconds.
  type Time = int

  const MILLISECOND: int := 1_000_000
  const SECOND: int := 1_000 * MILLISECOND
  const MINUTE: int := 60 * SECOND
}
