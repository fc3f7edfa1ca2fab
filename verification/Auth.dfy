/**
 Sign-in and credential changes as clients of the throttle and of the verification slots.  Storage, hashing and
 randomness answer through parameters; what a call does to the throttle is recorded in order.
 */
module Auth {
  import opened Options

  datatype Resolution = Fail | Succeed | Cancel

  datatype Call = Reserve(granted: bool) | Resolve(as_: Resolution)

  datatype Failure = Throttled | InvalidCredentials | InvalidInput | Unavailable

  datatype Answer = Session(token: nat) | Refused(failure: Failure)

  datatype Lookup = Found(username: string) | NotConfigured | Broken

  /** Whether the password matched, when it could be verified. */
  datatype Verdict = Matched | Mismatched | CannotVerify

  class Auth {
    var slots: nat
    ghost var calls: seq<Call>

    constructor ()
      ensures slots == 0 && calls == []
    {
      slots, calls := 0, [];
    }

    method ReserveAttempt(granted: bool)
      modifies this`calls
      ensures calls == old(calls) + [Reserve(granted)]
    {
      calls := calls + [Reserve(granted)];
    }

    method ResolveAttempt(resolution: Resolution)
      modifies this`calls
      ensures calls == old(calls) + [Resolve(resolution)]
    {
      calls := calls + [Resolve(resolution)];
    }

    /** Times out, or the request is cancelled, when no slot comes free. */
    method AcquireSlot(free: bool) returns (ok: bool)
      modifies this`slots
      ensures ok == free && slots == old(slots) + if ok then 1 else 0
    {
      if free {
        slots := slots + 1;
      }
      ok := free;
    }

    method ReleaseSlot()
      requires slots > 0
      modifies this`slots
      ensures slots == old(slots) - 1
    {
      slots := slots - 1;
    }

    method Login(
      username: string, granted: bool, account: Lookup, slot: bool, verdict: Verdict, token: Option<nat>, stored: bool)
      returns (answer: Answer)
      modifies this
      ensures slots == old(slots)
      ensures calls == old(calls) + [Reserve(granted)] + if granted then [Resolve(ResolutionOf(answer))] else []
      ensures answer.Session? <==>
              granted && account == Found(username) && slot && verdict.Matched? && token.Some? && stored
      ensures answer == Refused(InvalidCredentials) <==>
              granted && !account.Broken? && slot && !verdict.CannotVerify? && !(account == Found(username) && verdict.Matched?)
      ensures !granted ==> answer == Refused(Throttled)
    {
      ReserveAttempt(granted);
      if !granted {
        return Refused(Throttled);
      }
      if account.Broken? {
        ResolveAttempt(Cancel);
        return Refused(Unavailable);
      }
      var acquired := AcquireSlot(slot);
      if !acquired {
        ResolveAttempt(Cancel);
        return Refused(Throttled);
      }
      // The password is verified whatever the account is, against a dummy hash when there is none.
      ReleaseSlot();
      if verdict.CannotVerify? {
        ResolveAttempt(Cancel);
        return Refused(Unavailable);
      }
      if account.NotConfigured? || account.username != username || verdict.Mismatched? {
        ResolveAttempt(Fail);
        return Refused(InvalidCredentials);
      }
      if token.None? || !stored {
        ResolveAttempt(Cancel);
        return Refused(Unavailable);
      }
      ResolveAttempt(Succeed);
      return Session(token.value);
    }

    /** Invalid new values are refused before anything is reserved. */
    method ChangeCredentials(
      valid: bool, granted: bool, account: Lookup, slot: bool, verdict: Verdict, hashed: bool, token: Option<nat>, stored: bool)
      returns (answer: Answer)
      modifies this
      ensures slots == old(slots)
      ensures calls == old(calls) + (if valid then [Reserve(granted)] else []) +
                       (if valid && granted then [Resolve(ResolutionOf(answer))] else [])
      ensures answer.Session? <==>
              valid && granted && account.Found? && slot && verdict.Matched? && hashed && token.Some? && stored
      ensures answer == Refused(InvalidCredentials) <==>
              valid && granted && account.Found? && slot && verdict.Mismatched?
      ensures !valid ==> answer == Refused(InvalidInput)
    {
      if !valid {
        return Refused(InvalidInput);
      }
      ReserveAttempt(granted);
      if !granted {
        return Refused(Throttled);
      }
      var counted;
      answer, counted := ReplaceCredentials(account, slot, verdict, hashed, token, stored);
      if answer.Session? {
        ResolveAttempt(Succeed);
      } else if counted {
        ResolveAttempt(Fail);
      } else {
        ResolveAttempt(Cancel);
      }
    }

    method ReplaceCredentials(account: Lookup, slot: bool, verdict: Verdict, hashed: bool, token: Option<nat>, stored: bool)
      returns (answer: Answer, counted: bool)
      modifies this`slots
      ensures slots == old(slots)
      ensures answer.Session? <==> account.Found? && slot && verdict.Matched? && hashed && token.Some? && stored
      ensures counted <==> answer == Refused(InvalidCredentials)
      ensures counted <==> account.Found? && slot && verdict.Mismatched?
      ensures answer.Refused? ==> !answer.failure.InvalidInput?
    {
      if !account.Found? {
        return Refused(Unavailable), false;
      }
      var acquired := AcquireSlot(slot);
      if !acquired {
        return Refused(Throttled), false;
      }
      ReleaseSlot();
      if verdict.Mismatched? {
        return Refused(InvalidCredentials), true;
      }
      if verdict.CannotVerify? || !hashed || token.None? || !stored {
        return Refused(Unavailable), false;
      }
      return Session(token.value), false;
    }
  }

  /** Only wrong credentials count as a failure, and only a session clears the source. */
  function ResolutionOf(answer: Answer): Resolution {
    if answer.Session? then Succeed
    else if answer.failure.InvalidCredentials? then Fail
    else Cancel
  }
}
