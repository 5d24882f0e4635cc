/**
 * The authentication controller's `login` and `profile` handlers
 * (apps/open-press-backend/src/app/auth/auth.controller.ts).
 */
module Controllers {
  import opened Wrappers
  import opened AuthEvents

  /** The events one call of `login` emits, in order. */
  function LoginEvents(
    service: AuthService, checkBody: LoginRequestDto -> Outcome<ValidLoginRequest, string>,
    request: Request, body: LoginRequestDto): (events: seq<Event>)
    ensures |events| <= 2
    ensures events == [] <==> checkBody(body).Rejected?
    ensures events != [] ==> events[0] == ControllerBeforeValidation(request)
    ensures Occurrences(events, ControllerBeforeValidationKind) == (if events == [] then 0 else 1)
    ensures Occurrences(events, AfterLoginKind) == 1
            <==> checkBody(body).Fulfilled? && service.login(request.user, checkBody(body).value.remember_me).Fulfilled?
    ensures Occurrences(events, AfterLoginKind) <= 1
    ensures |events| == 2 ==>
              && events[1].AfterLogin? && checkBody(body).Fulfilled?
              && service.login(request.user, checkBody(body).value.remember_me) == Fulfilled(events[1].jwt)
  {
    match checkBody(body)
    case Rejected(_) => []
    case Fulfilled(loginRequest) =>
      [ControllerBeforeValidation(request)]
      + match service.login(request.user, loginRequest.remember_me)
        case Rejected(_) => []
        case Fulfilled(jwt) => [AfterLogin(jwt)]
  }

  /** What one call of `login` resolves or rejects with. */
  function LoginResult(
    service: AuthService, checkBody: LoginRequestDto -> Outcome<ValidLoginRequest, string>,
    request: Request, body: LoginRequestDto): (r: Outcome<Jwt, Error>)
    ensures r.Fulfilled? ==> checkBody(body).Fulfilled?
                             && service.login(request.user, checkBody(body).value.remember_me) == Fulfilled(r.value)
    ensures checkBody(body).Fulfilled? && service.login(request.user, checkBody(body).value.remember_me).Fulfilled?
            ==> r.Fulfilled?
    ensures checkBody(body).Rejected? ==> r == Rejected(Thrown(checkBody(body).reason))
    ensures checkBody(body).Fulfilled? && service.login(request.user, checkBody(body).value.remember_me).Rejected?
            ==> r == Rejected(Thrown(service.login(request.user, checkBody(body).value.remember_me).reason))
  {
    match checkBody(body)
    case Rejected(reason) => Rejected(Thrown(reason))
    case Fulfilled(loginRequest) =>
      match service.login(request.user, loginRequest.remember_me)
      case Rejected(reason) => Rejected(Thrown(reason))
      case Fulfilled(jwt) => Fulfilled(jwt)
  }

  /** `login` returns a token exactly when it emits `after_login`, and that event carries
      the very token returned; when the service fails only `before_validation` is emitted. */
  lemma LoginReturnsEmittedToken(
    service: AuthService, checkBody: LoginRequestDto -> Outcome<ValidLoginRequest, string>,
    request: Request, body: LoginRequestDto)
    ensures var events, r := LoginEvents(service, checkBody, request, body), LoginResult(service, checkBody, request, body);
      && (r.Fulfilled? ==> events == [ControllerBeforeValidation(request), AfterLogin(r.value)])
      && (|events| == 2 ==> r == Fulfilled(events[1].jwt))
      && (r.Rejected? && checkBody(body).Fulfilled? <==> events == [ControllerBeforeValidation(request)])
  {
  }

  /** The events one call of `profile` emits, in order, given the entity it builds. */
  function ProfileEvents(user: UserDocument, entity: UserEntity): (events: seq<Event>)
    ensures |events| == 2 && events[0].Kind() == BeforeProfileKind && events[1].Kind() == AfterProfileKind
    ensures Occurrences(events, BeforeProfileKind) == 1 && Occurrences(events, AfterProfileKind) == 1
  {
    [BeforeProfile(user), AfterProfile(entity)]
  }

  class AuthController {
    const authService: AuthService
    const emitter: EventEmitter
    /** `validate(·, LoginRequestValidationSchema)` from the shared utility library. */
    const checkBody: LoginRequestDto -> Outcome<ValidLoginRequest, string>

    constructor (authService: AuthService, emitter: EventEmitter,
                 checkBody: LoginRequestDto -> Outcome<ValidLoginRequest, string>)
      ensures this.authService == authService && this.emitter == emitter && this.checkBody == checkBody
    {
      this.authService := authService;
      this.emitter := emitter;
      this.checkBody := checkBody;
    }

    /** `login(request, login_request)`: validates the body before emitting anything,
        announces the request, asks the service for a token for `request.user` with the
        validated `remember_me`, announces that token and returns it unchanged. */
    method Login(request: Request, loginRequest: LoginRequestDto) returns (r: Outcome<Jwt, Error>)
      modifies emitter
      ensures emitter.trace == old(emitter.trace) + LoginEvents(authService, checkBody, request, loginRequest)
      ensures r == LoginResult(authService, checkBody, request, loginRequest)
    {
      var validated := checkBody(loginRequest);
      if validated.Rejected? {
        r := Rejected(Thrown(validated.reason));
        return;
      }
      emitter.Emit(ControllerBeforeValidation(request));
      var issued := authService.login(request.user, validated.value.remember_me);
      if issued.Rejected? {
        r := Rejected(Thrown(issued.reason));
        return;
      }
      var jwt := issued.value;
      emitter.Emit(AfterLogin(jwt));
      r := Fulfilled(jwt);
    }

    /** `profile(user)`: announces the user, builds the entity from `user.toObject()`,
        announces that entity and returns it. */
    method Profile(user: UserDocument) returns (entity: UserEntity)
      modifies emitter
      ensures entity == UserEntity(user.ToObject())
      ensures emitter.trace == old(emitter.trace) + ProfileEvents(user, entity)
      ensures emitter.trace[|old(emitter.trace)|] == BeforeProfile(user)
      ensures emitter.trace[|old(emitter.trace)| + 1] == AfterProfile(entity)
    {
      emitter.Emit(BeforeProfile(user));
      entity := UserEntity(user.ToObject());
      emitter.Emit(AfterProfile(entity));
    }
  }
}
