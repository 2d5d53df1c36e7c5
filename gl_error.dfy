/**
 * The error codes of the rendering surface: a two-constant enumeration whose
 * constants carry a numeric code and a human-readable message.
 */
module GLErrors {

  import opened Wrappers

  datatype GLError = OK | ConfigErr

  /** The numeric code of an error; 0 is reserved for success. */
  function Value(e: GLError): (code: nat)
    ensures code == 0 <==> e == OK
  {
    match e
    case OK => 0
    case ConfigErr => 101
  }

  /** The message of an error, as toString() returns it. */
  function ToString(e: GLError): (msg: string)
    ensures |msg| > 0
  {
    match e
    case OK => "ok"
    case ConfigErr => "config not support"
  }

  /**
   * Looks a code up among the constants. The enumeration itself has no such
   * lookup; it is added here as the inverse of Value.
   */
  function FromValue(code: int): (e: Option<GLError>)
    ensures e.Some? ==> Value(e.value) == code
  {
    if code == 0 then Some(OK)
    else if code == 101 then Some(ConfigErr)
    else None
  }

  lemma Constants()
    ensures Value(OK) == 0 && Value(ConfigErr) == 101
    ensures ToString(OK) == "ok" && ToString(ConfigErr) == "config not support"
  {
  }

  /** Every constant is found again from its code, so no two constants share a code. */
  lemma ValueRoundTrip(e: GLError)
    ensures FromValue(Value(e)) == Some(e)
  {
  }

  lemma ValueInjective(a: GLError, b: GLError)
    ensures Value(a) == Value(b) ==> a == b
  {
    ValueRoundTrip(a);
    ValueRoundTrip(b);
  }

  lemma ToStringInjective(a: GLError, b: GLError)
    ensures ToString(a) == ToString(b) ==> a == b
  {
    if a != b {
      assert ToString(a)[0] != ToString(b)[0];
    }
  }
}
