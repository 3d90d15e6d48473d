/** Small types and facts shared by every part of the model. */
module Basics {
  datatype Option<+T> = None | Some(value: T)

  /** Identifiers (users, connections, calls, jobs, channels). The empty string means "none". */
  type Id = string

  const NONE: Id := ""

  /** Whole seconds between a clock reading in milliseconds and a timestamp in seconds,
      rounded half away from zero as `math.Round` does (server/utils.go:128-130). */
  function SecondsSince(now: int, ts: int): int {
    var d := now - 1000 * ts;
    if d >= 0 then (d + 500) / 1000 else -((-d + 500) / 1000)
  }

  /** The order of the database's `ORDER BY ID`: character by character, a prefix first. */
  predicate IdLess(a: Id, b: Id) {
    if b == "" then false
    else if a == "" then true
    else if a[0] != b[0] then a[0] < b[0]
    else IdLess(a[1..], b[1..])
  }

  lemma {:induction false} IdLessTotal(a: Id, b: Id)
    ensures a == b || IdLess(a, b) || IdLess(b, a)
    ensures !(IdLess(a, b) && IdLess(b, a))
    ensures a == b ==> !IdLess(a, b)
  {
    if a != "" && b != "" && a[0] == b[0] {
      IdLessTotal(a[1..], b[1..]);
      assert a == [a[0]] + a[1..] && b == [b[0]] + b[1..];
    }
  }

  lemma {:induction false} IdLessTransitive(a: Id, b: Id, c: Id)
    requires IdLess(a, b) && IdLess(b, c)
    ensures IdLess(a, c)
  {
    if a != "" && a[0] == b[0] && b[0] == c[0] {
      IdLessTransitive(a[1..], b[1..], c[1..]);
    }
  }
}
