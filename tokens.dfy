/** The one-time tokens of the two auth apps: the password-reset tokens
    (backend/auth/models.py, backend/user_auth/models.py) and the e-mail
    verification token (backend/auth/models.py). All three share the same code and
    differ only in lifetime. Time is an integer count of seconds. */
module Tokens {
  import opened Wrappers

  const ResetTokenLifetime: int := 3600
  const VerificationTokenLifetime: int := 86400

  /** The columns of a token that its methods read and write. */
  datatype TokenState = TokenState(isUsed: bool, expiresAt: Option<int>)

  /** `is_valid`: unused and not yet expired. An unused token without an expiry makes
      the comparison with the clock raise; a used one short-circuits to false first. */
  function Validity(s: TokenState, now: int): (r: Result<bool, string>)
    ensures r.Err? <==> !s.isUsed && s.expiresAt.None?
    ensures r == Ok(true) <==> !s.isUsed && s.expiresAt.Some? && now < s.expiresAt.value
  {
    if s.isUsed then Ok(false)
    else if s.expiresAt.None? then Err("TypeError: '<' not supported between instances of 'datetime' and 'NoneType'")
    else Ok(now < s.expiresAt.value)
  }

  /** `save`: an unset expiry becomes `now + lifetime`; a set one is kept. */
  function Saved(s: TokenState, now: int, lifetime: int): (r: TokenState)
    ensures r.isUsed == s.isUsed && r.expiresAt.Some?
    ensures s.expiresAt.Some? ==> r.expiresAt == s.expiresAt
    ensures s.expiresAt.None? ==> r.expiresAt == Some(now + lifetime)
  {
    if s.expiresAt.None? then s.(expiresAt := Some(now + lifetime)) else s
  }

  /** `mark_as_used`: set the flag, then save. */
  function MarkedUsed(s: TokenState, now: int, lifetime: int): (r: TokenState)
    ensures r.isUsed && r.expiresAt.Some?
  {
    Saved(s.(isUsed := true), now, lifetime)
  }

  /** An operation on a stored token. */
  datatype TokenOp = SaveAt(now: int) | MarkUsedAt(now: int)

  /** The token after a series of operations. */
  function Run(s: TokenState, ops: seq<TokenOp>, lifetime: int): TokenState
    decreases |ops|
  {
    if ops == [] then s
    else
      var next := match ops[0]
        case SaveAt(now) => Saved(s, now, lifetime)
        case MarkUsedAt(now) => MarkedUsed(s, now, lifetime);
      Run(next, ops[1..], lifetime)
  }

  /** Once used, a token stays used whatever happens to it, and is never valid again. */
  lemma {:induction false} UsedStaysInvalid(s: TokenState, ops: seq<TokenOp>, lifetime: int, now: int)
    requires s.isUsed
    ensures Run(s, ops, lifetime).isUsed
    ensures Validity(Run(s, ops, lifetime), now) == Ok(false)
    decreases |ops|
  {
    if ops != [] {
      var next := match ops[0]
        case SaveAt(t) => Saved(s, t, lifetime)
        case MarkUsedAt(t) => MarkedUsed(s, t, lifetime);
      UsedStaysInvalid(next, ops[1..], lifetime, now);
    }
  }

  /** Once set, the expiry never changes. */
  lemma {:induction false} ExpiryFixedOnceSet(s: TokenState, ops: seq<TokenOp>, lifetime: int)
    requires s.expiresAt.Some?
    ensures Run(s, ops, lifetime).expiresAt == s.expiresAt
    decreases |ops|
  {
    if ops != [] {
      var next := match ops[0]
        case SaveAt(t) => Saved(s, t, lifetime)
        case MarkUsedAt(t) => MarkedUsed(s, t, lifetime);
      ExpiryFixedOnceSet(next, ops[1..], lifetime);
    }
  }

  /** Marking a token used twice is marking it once. */
  lemma MarkUsedIdempotent(s: TokenState, now: int, later: int, lifetime: int)
    ensures MarkedUsed(MarkedUsed(s, now, lifetime), later, lifetime) == MarkedUsed(s, now, lifetime)
  {
  }

  /** A freshly saved token is valid exactly until its lifetime has passed. */
  lemma FreshTokenValidForLifetime(created: int, now: int, lifetime: int)
    ensures Validity(Saved(TokenState(false, None), created, lifetime), now) == Ok(now < created + lifetime)
  {
  }

  /** A token row: `PasswordResetToken` or `EmailVerificationToken`, told apart by
      its lifetime. */
  class Token {
    const lifetime: int
    var isUsed: bool
    var expiresAt: Option<int>

    /** A new token: unused, expiry not yet set. */
    constructor (lifetime: int)
      ensures this.lifetime == lifetime && !isUsed && expiresAt == None
    {
      this.lifetime := lifetime;
      isUsed := false;
      expiresAt := None;
    }

    function State(): TokenState
      reads this
    {
      TokenState(isUsed, expiresAt)
    }

    /** `is_valid()` at clock `now`. */
    function IsValid(now: int): (r: Result<bool, string>)
      reads this
      ensures r == Validity(State(), now)
      ensures r == Ok(true) <==> !isUsed && expiresAt.Some? && now < expiresAt.value
    {
      if isUsed then Ok(false)
      else if expiresAt.None? then Err("TypeError: '<' not supported between instances of 'datetime' and 'NoneType'")
      else Ok(now < expiresAt.value)
    }

    /** `save()` at clock `now`. */
    method Save(now: int)
      modifies this`expiresAt
      ensures State() == Saved(old(State()), now, lifetime)
    {
      if expiresAt.None? {
        expiresAt := Some(now + lifetime);
      }
    }

    /** `mark_as_used()` at clock `now`. */
    method MarkAsUsed(now: int)
      modifies this`isUsed, this`expiresAt
      ensures State() == MarkedUsed(old(State()), now, lifetime)
      ensures isUsed && IsValid(now) == Ok(false)
    {
      isUsed := true;
      Save(now);
    }
  }
}
