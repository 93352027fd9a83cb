/** Values shared by every component: Go's error convention, identifiers and
    timestamps. */
module Common {
  import opened Strings

  /** A Go result that may be nil (a reference or an error): None is nil. An error is carried as
      its exact text, because the HTTP layer classifies errors by text. */
  datatype Option<+T> = None | Some(value: T)

  /** fmt.Errorf("<context>: %w", inner) (or %v): the text of the wrapped error. */
  function Wrap(context: string, inner: string): string {
    context + ": " + inner
  }

  const UuidLimit: int := 0x1_0000_0000_0000_0000_0000_0000_0000_0000

  /** A 128-bit UUID. uuid.New is a fresh-value oracle: callers pass the value. */
  newtype Uuid = x: int | 0 <= x < UuidLimit

  /** uuid.Nil, the all-zero UUID. */
  const NilUuid: Uuid := 0

  /** uuid.UUID.String: 32 lower-case hex digits grouped 8-4-4-4-12. */
  function UuidString(u: Uuid): (s: string)
    ensures |s| == 36
  {
    var h := Hex(u as nat, 32);
    h[..8] + "-" + h[8..12] + "-" + h[12..16] + "-" + h[16..20] + "-" + h[20..]
  }

  /** A point in time; time.Now is an oracle whose value callers pass. */
  type Time = int
}
