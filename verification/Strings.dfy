/** The order of strings and the forms of names and paths that several checks share. */
module Strings {

  /** Strings compare by their characters. */
  predicate Less(a: string, b: string) {
    if b == "" then false
    else if a == "" then true
    else a[0] < b[0] || (a[0] == b[0] && Less(a[1..], b[1..]))
  }

  lemma {:induction false} LessOrdered(a: string, b: string, c: string)
    ensures !Less(a, a)
    ensures a == b || Less(a, b) || Less(b, a)
    ensures Less(a, b) && Less(b, c) ==> Less(a, c)
  {
    if a != "" {
      LessOrdered(a[1..], if b == "" then "" else b[1..], if c == "" then "" else c[1..]);
      if b != "" {
        assert a == [a[0]] + a[1..] && b == [b[0]] + b[1..];
      }
    }
  }

  predicate Alphanumeric(c: char) {
    'A' <= c <= 'Z' || 'a' <= c <= 'z' || '0' <= c <= '9'
  }

  predicate PathCharacter(c: char) {
    Alphanumeric(c) || c == '.' || c == '_' || c == '/' || c == '-'
  }

  predicate HexDigits(s: string) {
    forall c :: c in s ==> '0' <= c <= '9' || 'a' <= c <= 'f'
  }

  /** Whether some part of the path between slashes, or before the first or after the last, is `..`. */
  predicate ClimbsUp(path: string) {
    exists i :: 0 <= i < |path| - 1 && PartIsUp(path, i)
  }

  predicate PartIsUp(path: string, i: nat)
    requires i < |path| - 1
  {
    path[i] == '.' && path[i + 1] == '.' && (i == 0 || path[i - 1] == '/') && (i + 2 == |path| || path[i + 2] == '/')
  }
}
