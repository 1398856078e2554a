/** The privilege tier shared by the session provider and the route guard. */
module Levels {

  /** `'none' | 'user' | 'admin'`; `NoAuth` is the tier called `'none'`. */
  datatype AuthLevel = NoAuth | User | Admin

  /** The string the tier is written as, in JSON responses and in client storage. */
  function Name(level: AuthLevel): string
  {
    match level
    case NoAuth => "none"
    case User => "user"
    case Admin => "admin"
  }

  /** Distinct tiers are written as distinct strings. */
  lemma NameInjective(a: AuthLevel, b: AuthLevel)
    ensures Name(a) == Name(b) <==> a == b
  {
  }

}
