/**
 * The collaborators the account service calls but does not implement: the
 * bcrypt hashing pair, the JSON Web Token pair, the request-validation
 * library's e-mail and ISO 8601 checks, the ORM's e-mail pattern, and
 * JavaScript's `new Date(string)`. Each is a total function supplied by the
 * caller, so the model holds for every implementation of them.
 */
module External {
  import opened Wrappers

  /** A user's document id, as the store and the session token carry it. */
  type UserId = string

  datatype Lib = Lib(
    isEmail: string -> bool,            // express-validator `isEmail`
    normalizeEmail: string -> string,   // express-validator `normalizeEmail`
    emailPatternOk: string -> bool,     // the schema's e-mail pattern on `email`
    isIso8601: string -> bool,          // express-validator `isISO8601`
    parseDate: string -> Option<int>,   // `new Date(s)` in milliseconds; None for an invalid date
    hash: string -> string,             // `bcrypt.hash` with a fresh salt
    compare: (string, string) -> bool,  // `bcrypt.compare(candidate, storedHash)`
    sign: UserId -> string,             // `jwt.sign({ userId }, secret)`
    verify: string -> Option<UserId>    // `jwt.verify(token).userId`; None when it throws
  )

  /**
   * What the account service relies on from its collaborators: a password
   * always matches its own hash, and a token it signed verifies to the id it
   * was signed for.
   */
  ghost predicate Sound(lib: Lib) {
    && (forall p :: lib.compare(p, lib.hash(p)))
    && (forall id :: lib.verify(lib.sign(id)) == Some(id))
  }
}
