/**
 * AuthEvent.java: the three sign-in states, their names and the parse from a name.
 */
module AuthEvents {
  import opened JavaLang

  datatype AuthEvent = SignedOut | SigningIn | SignedIn {

    /** The `state` string each constant is built with. */
    function State(): string {
      match this
      case SignedOut => "SignedOut"
      case SigningIn => "SigningIn"
      case SignedIn => "SignedIn"
    }

    /** `toString`: the state name wrapped in "AuthEvent(" and ")". */
    function ToString(): (s: string)
      ensures |s| == |State()| + 11
      ensures s[..10] == "AuthEvent(" && s[|s| - 1] == ')' && s[10..|s| - 1] == State()
    {
      "AuthEvent(" + State() + ")"
    }
  }

  /** `fromString`: the constant whose state string equals the argument, or null. */
  function FromString(state: Option<string>): (r: Option<AuthEvent>)
    ensures r.Some? ==> state == Some(r.value.State())
    ensures r.None? <==> (forall e: AuthEvent :: state != Some(e.State()))
  {
    if state == Some("SignedOut") then Some(SignedOut)
    else if state == Some("SigningIn") then Some(SigningIn)
    else if state == Some("SignedIn") then Some(SignedIn)
    else None
  }

  /** Parsing a constant's own state string gives that constant back. */
  lemma FromStringRoundTrip(e: AuthEvent)
    ensures FromString(Some(e.State())) == Some(e)
  {
  }

  /** Distinct constants print distinctly, so `toString` loses nothing. */
  lemma ToStringInjective(e1: AuthEvent, e2: AuthEvent)
    requires e1.ToString() == e2.ToString()
    ensures e1 == e2
  {
    assert e1.ToString()[10..|e1.ToString()| - 1] == e1.State();
    FromStringRoundTrip(e1);
    FromStringRoundTrip(e2);
  }
}
