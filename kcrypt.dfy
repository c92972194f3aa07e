/** pkg/kcrypt: bcrypt used as a black box. The random salt bcrypt draws is a
    parameter: `None` stands for a failing random source (or any other
    refusal of GenerateFromPassword), which the source reports as an error.

    The model takes bcrypt to be injective on whole passwords. Real bcrypt
    reads only the first 72 bytes, so two passwords that agree on those
    bytes check against the same hash; the model does not capture that. */
module Kcrypt {
  import opened Errors
  import opened Wrappers

  type Salt = nat

  /** A bcrypt hash: symbolic, it checks against exactly one password (the
      72-byte truncation is not modelled). */
  datatype Digest = Digest(salt: Salt, fingerprint: string)

  /** HashString / HashBytes. */
  function Hash(password: string, salt: Option<Salt>): (r: Result<Digest>)
    ensures r.Ok? <==> salt.Some?
    ensures r.Err? ==> r.error == HashFailure
  {
    match salt
    case None => Err(HashFailure)
    case Some(s) => Ok(Digest(s, password))
  }

  /** CheckString / CheckBytes. */
  predicate Check(password: string, d: Digest) {
    d.fingerprint == password
  }

  /** A hash checks against the password it was made from and, under the
      injectivity assumption above, no other. */
  lemma CheckHash(password: string, other: string, salt: Salt)
    ensures Hash(password, Some(salt)).Ok?
    ensures Check(other, Hash(password, Some(salt)).value) <==> other == password
  {
  }
}
