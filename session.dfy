/** The authentication context: a session provider whose three operations
    set or clear the stored session, the context's default value, and the
    hook that reads the context. Storing the session is taken to set the
    field directly. */
module Session {
  import opened Wrappers

  /** The placeholder session both sign-in paths store. */
  const Token := "xxx"

  datatype Operation = SignIn | SignOut | SignUp

  /** The session an operation leaves, whatever the session was before. */
  function After(op: Operation): (session: Option<string>)
    ensures session.Some? <==> !op.SignOut?
    ensures session.Some? ==> session.value == Token
  {
    match op
    case SignIn => Some(Token)
    case SignOut => None
    case SignUp => Some(Token)
  }

  /** The session after a series of operations. */
  function Run(session: Option<string>, ops: seq<Operation>): Option<string>
    decreases ops
  {
    if ops == [] then session else Run(After(ops[0]), ops[1..])
  }

  /** Only the last operation matters. */
  lemma {:induction false} RunIsLast(session: Option<string>, ops: seq<Operation>)
    requires ops != []
    ensures Run(session, ops) == After(ops[|ops| - 1])
    decreases ops
  {
    if |ops| > 1 {
      RunIsLast(After(ops[0]), ops[1..]);
    }
  }

  /** Signing up has exactly the effect of signing in, and each operation
      done twice is done once. */
  lemma OperationLaws(session: Option<string>, ops: seq<Operation>, op: Operation)
    ensures After(SignUp) == After(SignIn)
    ensures Run(session, ops + [op, op]) == Run(session, ops + [op])
  {
    RunIsLast(session, ops + [op, op]);
    RunIsLast(session, ops + [op]);
  }

  /** The provider's state. */
  class SessionProvider {
    var session: Option<string>
    var isLoading: bool

    constructor(stored: Option<string>, loading: bool)
      ensures session == stored && isLoading == loading
    {
      session := stored;
      isLoading := loading;
    }

    method SignIn()
      modifies this
      ensures session == After(Operation.SignIn) && isLoading == old(isLoading)
    {
      session := Some(Token);
    }

    method SignOut()
      modifies this
      ensures session == After(Operation.SignOut) && isLoading == old(isLoading)
    {
      session := None;
    }

    method SignUp()
      modifies this
      ensures session == After(Operation.SignUp) && isLoading == old(isLoading)
    {
      session := Some(Token);
    }
  }

  /** What the context holds: the session, the loading flag, and whether the
      three operations act (the provider's) or do nothing (the default's). */
  datatype AuthValue = AuthValue(session: Option<string>, isLoading: bool, operationsAct: bool)

  /** The value a component sees without a provider above it. */
  const DefaultValue := AuthValue(None, false, false)

  /** `useSession`: the provider's value, or the default one. The default is
      an object, so the "must be wrapped" error is never thrown. */
  function UseSession(provided: Option<AuthValue>): (r: Result<AuthValue, string>)
    ensures r.Success?
    ensures provided.None? ==> r.value == DefaultValue
    ensures provided.Some? ==> r.value == provided.value
  {
    var value := provided.GetOr(DefaultValue);
    Success(value)
  }

  /** The provider's value mirrors its state. */
  function ProvidedValue(p: SessionProvider): (v: AuthValue)
    reads p
    ensures v.session == p.session && v.isLoading == p.isLoading && v.operationsAct
  {
    AuthValue(p.session, p.isLoading, true)
  }

  /** Signing in then out through the provider leaves no session, and
      signing in twice leaves the same session as once. */
  method SignInOutSequence() returns (afterIn: Option<string>, afterTwice: Option<string>, afterOut: Option<string>)
    ensures afterIn == Some(Token) && afterTwice == afterIn && afterOut == None
  {
    var p := new SessionProvider(None, false);
    p.SignIn();
    afterIn := p.session;
    p.SignIn();
    afterTwice := p.session;
    p.SignOut();
    afterOut := p.session;
  }
}
