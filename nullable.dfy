/**
 * Conversions between optional values (Go pointers, here `Option`) and the
 * `database/sql` nullable records (`sql.NullString`, `sql.NullInt64`,
 * `sql.NullInt32`), which carry a payload and a `Valid` flag.
 */
module Nullable {
  import opened Wrappers
  import opened Ints

  datatype NullString = NullString(str: string, valid: bool)
  datatype NullInt64 = NullInt64(int64: int64, valid: bool)
  datatype NullInt32 = NullInt32(int32: int32, valid: bool)

  /** The zero records `sql.NullString{}`, `sql.NullInt64{}`, `sql.NullInt32{}`. */
  const ZeroString := NullString("", false)
  const ZeroInt64 := NullInt64(0, false)
  const ZeroInt32 := NullInt32(0, false)

  function MakeNullString(s: Option<string>): (n: NullString)
    ensures n.valid <==> s.Some?
    ensures s.Some? ==> n.str == s.value
    ensures s.None? ==> n == ZeroString
  {
    if s.Some? then NullString(s.value, true) else ZeroString
  }

  function MakeNullInt64(i: Option<int64>): (n: NullInt64)
    ensures n.valid <==> i.Some?
    ensures i.Some? ==> n.int64 == i.value
    ensures i.None? ==> n == ZeroInt64
  {
    if i.Some? then NullInt64(i.value, true) else ZeroInt64
  }

  function MakeNullInt32(i: Option<int32>): (n: NullInt32)
    ensures n.valid <==> i.Some?
    ensures i.Some? ==> n.int32 == i.value
    ensures i.None? ==> n == ZeroInt32
  {
    if i.Some? then NullInt32(i.value, true) else ZeroInt32
  }

  function NullInt64ToPtr(n: NullInt64): (p: Option<int64>)
    ensures p.Some? <==> n.valid
    ensures p.Some? ==> p.value == n.int64
  {
    if n.valid then Some(n.int64) else None
  }

  function NullStringToPtr(n: NullString): (p: Option<string>)
    ensures p.Some? <==> n.valid
    ensures p.Some? ==> p.value == n.str
  {
    if n.valid then Some(n.str) else None
  }

  function NullInt32ToPtr(n: NullInt32): (p: Option<int32>)
    ensures p.Some? <==> n.valid
    ensures p.Some? ==> p.value == n.int32
  {
    if n.valid then Some(n.int32) else None
  }

  /** Going through the nullable record and back returns the optional value unchanged. */
  lemma StringRoundTrip(s: Option<string>)
    ensures NullStringToPtr(MakeNullString(s)) == s
  {
  }

  lemma Int64RoundTrip(i: Option<int64>)
    ensures NullInt64ToPtr(MakeNullInt64(i)) == i
  {
  }

  lemma Int32RoundTrip(i: Option<int32>)
    ensures NullInt32ToPtr(MakeNullInt32(i)) == i
  {
  }

  /**
   * The other direction is an identity exactly on the valid records and the
   * zero record: an invalid record with a leftover payload comes back zeroed.
   */
  lemma StringReverseRoundTrip(n: NullString)
    ensures MakeNullString(NullStringToPtr(n)) == n <==> n.valid || n == ZeroString
    ensures !n.valid ==> MakeNullString(NullStringToPtr(n)) == ZeroString
  {
  }

  lemma Int64ReverseRoundTrip(n: NullInt64)
    ensures MakeNullInt64(NullInt64ToPtr(n)) == n <==> n.valid || n == ZeroInt64
    ensures !n.valid ==> MakeNullInt64(NullInt64ToPtr(n)) == ZeroInt64
  {
  }

  lemma Int32ReverseRoundTrip(n: NullInt32)
    ensures MakeNullInt32(NullInt32ToPtr(n)) == n <==> n.valid || n == ZeroInt32
    ensures !n.valid ==> MakeNullInt32(NullInt32ToPtr(n)) == ZeroInt32
  {
  }
}
