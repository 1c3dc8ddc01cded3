/** Small value types shared by every module. */
module Prelude {

  datatype Option<+T> = None | Some(value: T)

  type SessionId = nat
  type EventId = nat
  type RunId = int

  // Nanoseconds of the server clock.
  type Time = int

  // unicode.IsSpace
  predicate IsSpace(c: char) {
    || '\t' <= c <= '\r' || c == ' ' || c == '\U{0085}' || c == '\U{00A0}' || c == '\U{1680}'
    || '\U{2000}' <= c <= '\U{200A}' || c == '\U{2028}' || c == '\U{2029}' || c == '\U{202F}'
    || c == '\U{205F}' || c == '\U{3000}'
  }

  predicate Blank(s: string) {
    forall c | c in s :: IsSpace(c)
  }
}
