/**
 * What the authentication steps share: the user records and tokens they pass
 * around, the authentication service they delegate to (its internals are not
 * modelled, so it is given as two functions), the lifecycle events they emit,
 * and the event emitter, seen only as the trace of events emitted so far.
 */
module AuthEvents {
  import opened Wrappers

  /** A plain JavaScript object, as `toObject()` returns it. */
  type PlainObject = map<string, string>

  /** A persisted user document; `record` is what `toObject()` returns for it. */
  datatype UserDocument = UserDocument(id: string, record: PlainObject) {
    function ToObject(): PlainObject { record }
  }

  /** `new UserEntity(object)`: the profile view built from a plain user object. */
  datatype UserEntity = UserEntity(source: PlainObject)

  /** What `AuthService.login` resolves with: `{ access_token }`. */
  datatype Jwt = Jwt(access_token: string)

  /** The parts of an HTTP request the controller uses: `request.user` is set by the
      local authentication guard before the handler runs. */
  datatype Request = Request(id: nat, user: Option<UserDocument>)

  /** The raw login request body, before schema validation. */
  datatype LoginRequestDto = LoginRequestDto(body: PlainObject)

  /** The login request body once it has passed schema validation. */
  datatype ValidLoginRequest = ValidLoginRequest(remember_me: bool)

  /** What a step raises: an `UnauthorizedException` with its response body's `error`
      text, or whatever a delegated call throws or rejects with. */
  datatype Error = Unauthorized(error: string) | Thrown(reason: string)

  /** `AuthService`, through the two methods the core calls. `validate` resolves with
      the user or with nothing, and `login` resolves with the issued token; either
      may also reject. */
  datatype AuthService = AuthService(
    validate: (string, string) -> Outcome<Option<UserDocument>, string>,
    login: (Option<UserDocument>, bool) -> Outcome<Jwt, string>)

  /** The lifecycle events of the local strategy and of the auth controller, with their payloads. */
  datatype Event =
    | StrategyBeforeValidation(email: string, password: string)
    | StrategyValidationFailed(email: string, password: string)
    | StrategyValidationSuccess(user: UserDocument)
    | ControllerBeforeValidation(request: Request)
    | AfterLogin(jwt: Jwt)
    | BeforeProfile(user: UserDocument)
    | AfterProfile(entity: UserEntity)
  {
    function Kind(): EventKind
    {
      match this
      case StrategyBeforeValidation(_, _) => StrategyBeforeValidationKind
      case StrategyValidationFailed(_, _) => StrategyValidationFailedKind
      case StrategyValidationSuccess(_) => StrategyValidationSuccessKind
      case ControllerBeforeValidation(_) => ControllerBeforeValidationKind
      case AfterLogin(_) => AfterLoginKind
      case BeforeProfile(_) => BeforeProfileKind
      case AfterProfile(_) => AfterProfileKind
    }
  }

  /** The event names, without payloads. */
  datatype EventKind =
    | StrategyBeforeValidationKind
    | StrategyValidationFailedKind
    | StrategyValidationSuccessKind
    | ControllerBeforeValidationKind
    | AfterLoginKind
    | BeforeProfileKind
    | AfterProfileKind

  /** How many events of the given kind a trace holds. */
  function Occurrences(trace: seq<Event>, kind: EventKind): (n: nat)
    ensures n <= |trace|
    ensures n == 0 <==> forall k :: 0 <= k < |trace| ==> trace[k].Kind() != kind
  {
    if trace == [] then 0
    else (if trace[0].Kind() == kind then 1 else 0) + Occurrences(trace[1..], kind)
  }

  /** The injected `EventEmitter2`, seen only through what is emitted on it: `emit`
      appends to the trace, and listener dispatch is not modelled. */
  class EventEmitter {
    var trace: seq<Event>

    constructor ()
      ensures trace == []
    {
      trace := [];
    }

    method Emit(event: Event)
      modifies this
      ensures trace == old(trace) + [event]
    {
      trace := trace + [event];
    }
  }
}
