/** The reference credential port: a "hash" is the plaintext with the
    suffix `mocked`, and validation compares a stored hash with the hash of
    the supplied plaintext by strict equality. Both operations stringify
    their argument the way a template literal does. */
module MockPassword {
  import opened Wrappers
  import opened Values

  const Suffix: string := "mocked"

  /** `generate(plain)`: the hash stored for a plaintext. It never fails. */
  function Generate(plain: Option<Value>): (h: string)
    ensures |h| == |ToText(plain)| + |Suffix|
    ensures h[..|ToText(plain)|] == ToText(plain) && h[|ToText(plain)|..] == Suffix
  {
    ToText(plain) + Suffix
  }

  /** `validate(hash, plain)`: only a string hash can match, and it must be
      exactly the hash of `plain`. */
  predicate Validate(hash: Option<Value>, plain: Option<Value>) {
    StrictEquals(hash, Some(VStr(ToText(plain) + Suffix)))
  }

  /** A stored value is accepted exactly when it is the string `generate`
      produced for the same plaintext. */
  lemma ValidateMeansGenerated(hash: Option<Value>, plain: Option<Value>)
    ensures Validate(hash, plain) <==> hash == Some(VStr(Generate(plain)))
  {
  }

  /** Round trip: the hash of a plaintext validates that plaintext. */
  lemma GenerateThenValidate(plain: Option<Value>)
    ensures Validate(Some(VStr(Generate(plain))), plain)
  {
  }

  /** A hash validates another plaintext exactly when the two plaintexts
      print alike; in particular a different password string is rejected. */
  lemma ValidateRejectsOthers(p: Option<Value>, q: Option<Value>)
    ensures Validate(Some(VStr(Generate(p))), q) <==> ToText(p) == ToText(q)
  {
    var a, b := ToText(p), ToText(q);
    if a + Suffix == b + Suffix {
      assert a == (a + Suffix)[..|a|];
      assert b == (b + Suffix)[..|b|];
    }
  }

  /** The case the sign-in tests use: two distinct password strings. */
  lemma DifferentPasswordRejected(p: string, q: string)
    requires p != q
    ensures !Validate(Some(VStr(Generate(Some(VStr(p))))), Some(VStr(q)))
  {
    ValidateRejectsOthers(Some(VStr(p)), Some(VStr(q)));
  }
}
