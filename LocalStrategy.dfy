/**
 * The local (email and password) passport strategy
 * (apps/open-press-backend/src/app/auth/strategies/local.strategy.ts).
 */
module Strategies {
  import opened Wrappers
  import opened AuthEvents

  /** The `error` text of the exception raised when the credentials do not match. */
  const MismatchError: string := "Email or password do not match"

  /** The options the strategy hands to passport-local. */
  datatype StrategyOptions = StrategyOptions(usernameField: string, session: bool)

  /** The events one call of `validate` emits, in order. */
  function ValidateEvents(service: AuthService, email: string, password: string): (events: seq<Event>)
    ensures |events| >= 1 && events[0] == StrategyBeforeValidation(email, password)
    ensures Occurrences(events, StrategyBeforeValidationKind) == 1
    ensures |events| == 2 <==> service.validate(email, password).Fulfilled?
    ensures |events| <= 2
    ensures Occurrences(events, StrategyValidationFailedKind) + Occurrences(events, StrategyValidationSuccessKind)
            == |events| - 1
    ensures Occurrences(events, StrategyValidationFailedKind) == 1
            <==> service.validate(email, password) == Fulfilled(None)
    ensures Occurrences(events, StrategyValidationSuccessKind) == 1
            <==> service.validate(email, password).Fulfilled? && service.validate(email, password).value.Some?
  {
    [StrategyBeforeValidation(email, password)]
    + match service.validate(email, password)
      case Rejected(_) => []
      case Fulfilled(None) => [StrategyValidationFailed(email, password)]
      case Fulfilled(Some(user)) => [StrategyValidationSuccess(user)]
  }

  /** What one call of `validate` resolves or rejects with. */
  function ValidateResult(service: AuthService, email: string, password: string): (r: Outcome<UserDocument, Error>)
    ensures r.Fulfilled? ==> service.validate(email, password) == Fulfilled(Some(r.value))
    ensures service.validate(email, password).Fulfilled? && service.validate(email, password).value.Some?
            ==> r.Fulfilled?
    ensures r == Rejected(Unauthorized(MismatchError)) <==> service.validate(email, password) == Fulfilled(None)
    ensures service.validate(email, password).Rejected?
            ==> r == Rejected(Thrown(service.validate(email, password).reason))
  {
    match service.validate(email, password)
    case Rejected(reason) => Rejected(Thrown(reason))
    case Fulfilled(None) => Rejected(Unauthorized(MismatchError))
    case Fulfilled(Some(user)) => Fulfilled(user)
  }

  /** The user the strategy returns is the very user carried by its `validation_success`
      event, and the failure event carries the same email and password as the first. */
  lemma OutcomeMatchesEvents(service: AuthService, email: string, password: string)
    ensures var events, r := ValidateEvents(service, email, password), ValidateResult(service, email, password);
      && (r.Fulfilled? ==> events == [StrategyBeforeValidation(email, password), StrategyValidationSuccess(r.value)])
      && (|events| == 2 && events[1].StrategyValidationSuccess? ==> r == Fulfilled(events[1].user))
      && (r == Rejected(Unauthorized(MismatchError))
          <==> events == [StrategyBeforeValidation(email, password), StrategyValidationFailed(email, password)])
  {
  }

  /** The failure is uniform: any two credential pairs the service finds no user for
      (an unknown email or a wrong password alike) are rejected with the same error. */
  lemma FailureIsUniform(service: AuthService, email1: string, password1: string, email2: string, password2: string)
    requires service.validate(email1, password1) == Fulfilled(None)
    requires service.validate(email2, password2) == Fulfilled(None)
    ensures ValidateResult(service, email1, password1) == ValidateResult(service, email2, password2)
  {
  }

  class LocalStrategy {
    const authService: AuthService
    const emitter: EventEmitter
    const options: StrategyOptions

    /** The identifier is read from the `email` field and no session is kept. */
    constructor (authService: AuthService, emitter: EventEmitter)
      ensures this.authService == authService && this.emitter == emitter
      ensures options.usernameField == "email" && !options.session
    {
      this.authService := authService;
      this.emitter := emitter;
      options := StrategyOptions("email", false);
    }

    /** `validate(email, password)`: announces the attempt, delegates to the service,
        then announces failure and raises, or announces success and returns the user. */
    method Validate(email: string, password: string) returns (r: Outcome<UserDocument, Error>)
      modifies emitter
      ensures emitter.trace == old(emitter.trace) + ValidateEvents(authService, email, password)
      ensures r == ValidateResult(authService, email, password)
    {
      emitter.Emit(StrategyBeforeValidation(email, password));
      var user := authService.validate(email, password);
      if user.Rejected? {
        r := Rejected(Thrown(user.reason));
        return;
      }
      if user.value.None? {
        emitter.Emit(StrategyValidationFailed(email, password));
        r := Rejected(Unauthorized(MismatchError));
        return;
      }
      emitter.Emit(StrategyValidationSuccess(user.value.value));
      r := Fulfilled(user.value.value);
    }
  }
}
