# Open Press: plugin registration and instrumented authentication, in Dafny

This project models two pieces of the Open Press backend and proves what they promise.

**Plugin registration** (`Bootstrap`, from `apps/open-press-backend/src/bootstrap.ts`).
`makeRootModule` starts an `imports` array with the application's root module.
`registerPlugins` maps every configured plugin name to a promise: `require.resolve` the name, then `import` the path.
A name that fails to resolve logs `Failed to load plugin <name>: <message>` and becomes `null`.
`Promise.all` fulfils with every value once all promises fulfil, and rejects as soon as one of them rejects.
The `null` entries are dropped, each module is replaced by its `default` export, and falsy defaults are dropped.
The survivors are pushed onto `imports` in place.
`require.resolve` and `import` are oracles: the `Runtime` datatype holds one function for each.
The `ImportList` and `Console` classes hold the state that registration changes.
`Survivors` is a reference definition that takes one name at a time; the proofs relate the `filter`/`map`/`filter` chain to it.

**Authentication lifecycle events** (`AuthEvents`, `Strategies`, `Controllers`).
`LocalStrategy.validate`, `AuthController.login` and `AuthController.profile` each emit a short, fixed sequence of events around one delegated call.
The injected `EventEmitter2` is an `EventEmitter` class whose `trace` field only grows.
`AuthService` is a datatype of two functions, `validate` and `login`.
Each may resolve or reject (`Outcome`).
The schema check `validate(login_request, LoginRequestValidationSchema)` is the controller's `checkBody` function.
Each handler is a method whose new trace and result are given by a specification function, and lemmas and `ensures` clauses state the trace properties.

Points where the code behaves differently than a reader might expect, followed by the model:
- The `try` around the callback catches only a synchronous throw, which here can come only from `require.resolve`. `import(path)` is returned without `await`, so its rejection happens later and is not caught. It rejects the `Promise.all`, so nothing is appended and `makeRootModule` rejects. The warnings for names that failed to resolve have already been logged by then, because the `map` callback runs for every name first.
- `AuthController.login` emits only `before_validation` and `after_login`. The `validation_failed` and `validation_success` events belong to `LocalStrategy.validate`, which runs inside the local authentication guard before the handler.

## Model

| member | source | states |
|---|---|---|
| `Bootstrap.Attempt` | apps/open-press-backend/src/bootstrap.ts:45-54 | the callback settles to `null` iff `require.resolve` throws. It rejects iff the name resolves and its `import` rejects, with that rejection's reason. Otherwise it fulfils with the namespace of the loaded module |
| `Bootstrap.WarningFor` | apps/open-press-backend/src/bootstrap.ts:45-54 | a name produces a warning iff its resolution throws, and then exactly one, `Failed to load plugin <name>: <message>` |
| `Bootstrap.Warnings` | apps/open-press-backend/src/bootstrap.ts:44-54 | the `console.warn` calls over all names: at most one per name |
| `Bootstrap.NoWarningsIffAllResolve` | apps/open-press-backend/src/bootstrap.ts:45-54 | no warning is logged iff every configured name resolves |
| `Bootstrap.SettleAll` | apps/open-press-backend/src/bootstrap.ts:44-55 | the `map` yields one promise per configured name |
| `Bootstrap.AwaitAll` | apps/open-press-backend/src/bootstrap.ts:43-56 | `Promise.all` fulfils iff every promise fulfils, and then with every value in order; otherwise it rejects with the reason of one of the rejected promises |
| `Bootstrap.DropNull` | apps/open-press-backend/src/bootstrap.ts:59 | `filter(Boolean)` keeps exactly the loaded module namespaces of the input, drops every `null`, and never lengthens the list |
| `Bootstrap.Defaults` | apps/open-press-backend/src/bootstrap.ts:60-62 | `map((plugin) => plugin.default)`: one entry per namespace, holding that namespace's `default` export, position for position |
| `Bootstrap.DropFalsy` | apps/open-press-backend/src/bootstrap.ts:63 | the second `filter(Boolean)` keeps exactly the truthy default exports of the input and never lengthens the list |
| `Bootstrap.PluginModules` | apps/open-press-backend/src/bootstrap.ts:58-63 | the whole chain yields no more modules than settled entries |
| `Bootstrap.SurvivorsAppend` | apps/open-press-backend/src/bootstrap.ts:43-63 | names are processed independently: the modules for a concatenation of name lists are the concatenation of their modules |
| `Bootstrap.WarningsAppend` | apps/open-press-backend/src/bootstrap.ts:44-54 | the warnings for a concatenation of name lists are the concatenation of their warnings, in name order |
| `Bootstrap.PipelineMatchesSurvivors` | apps/open-press-backend/src/bootstrap.ts:43-63 | when every import fulfils, the `filter`/`map`/`filter` chain over the `Promise.all` values equals the name-by-name reference list of surviving default exports |
| `Bootstrap.SurvivorsInOrder` | apps/open-press-backend/src/bootstrap.ts:43-64 | the survivors are the default exports of exactly those names that resolve and load with a truthy default. They keep the relative order of those names and number at most the configured names |
| `Bootstrap.FailedResolutionContributesNothing` | apps/open-press-backend/src/bootstrap.ts:45-54 | a name whose resolution throws adds no module and exactly one warning; the result for the other names is as if it were not listed |
| `Bootstrap.FalsyDefaultDroppedSilently` | apps/open-press-backend/src/bootstrap.ts:60-63 | a name that loads with a falsy `default` adds neither a module nor a warning |
| `Bootstrap.ImportList.constructor` | apps/open-press-backend/src/bootstrap.ts:19 | `imports` starts as `[root_module]` |
| `Bootstrap.ImportList.Push` | apps/open-press-backend/src/bootstrap.ts:64 | `push` only appends; earlier entries are unchanged and keep their positions |
| `Bootstrap.Console.Warn` | apps/open-press-backend/src/bootstrap.ts:52 | a warning is appended to the console's log |
| `Bootstrap.RegisterPlugins` | apps/open-press-backend/src/bootstrap.ts:39-65 | all resolution warnings are logged in name order. The call fulfils iff no import rejects. It then appends exactly the survivors in name order; on rejection `imports` is unchanged |
| `Bootstrap.MakeRootModule` | apps/open-press-backend/src/bootstrap.ts:18-23 | on success the plugin loader receives `[root_module]` followed by the survivors; the root module is first and the list has at most one more entry than there are names. A rejected import rejects the call with the reason of a rejected import |
| `Strategies.ValidateEvents` | apps/open-press-backend/src/app/auth/strategies/local.strategy.ts:30-53 | `before_validation(email, password)` comes first and exactly once. There is at most one outcome event, and exactly one when the service answers. `validation_failed` occurs iff the service finds no user; `validation_success` occurs iff it finds one |
| `Strategies.ValidateResult` | apps/open-press-backend/src/app/auth/strategies/local.strategy.ts:36-52 | returns the user iff the service found that user; rejects with `Unauthorized("Email or password do not match")` iff the service found none; a service rejection propagates unchanged |
| `Strategies.OutcomeMatchesEvents` | apps/open-press-backend/src/app/auth/strategies/local.strategy.ts:31-52 | on success the trace is `[before_validation, validation_success(u)]` and `u` is the returned user. The unauthorized rejection occurs iff the trace is `[before_validation, validation_failed]` with the same email and password |
| `Strategies.FailureIsUniform` | apps/open-press-backend/src/app/auth/strategies/local.strategy.ts:37-45 | any two credential pairs the service finds no user for are rejected with the same error |
| `Strategies.LocalStrategy.constructor` | apps/open-press-backend/src/app/auth/strategies/local.strategy.ts:16-21 | the identifier is read from the `email` field and sessions are disabled |
| `Strategies.LocalStrategy.Validate` | apps/open-press-backend/src/app/auth/strategies/local.strategy.ts:30-53 | appends exactly the `ValidateEvents` sequence to the trace and returns `ValidateResult` |
| `Controllers.LoginEvents` | apps/open-press-backend/src/app/auth/auth.controller.ts:35-45 | nothing is emitted iff body validation fails. Otherwise `before_validation(request)` comes first and once. `after_login` occurs at most once, and exactly once iff the service issues a token for `request.user` and the validated `remember_me`; it carries that token |
| `Controllers.LoginResult` | apps/open-press-backend/src/app/auth/auth.controller.ts:36-44 | returns a token iff the body validates and the service issues that token for `request.user` with the validated `remember_me`. A body validation error, or a rejection of `auth_service.login`, propagates unchanged |
| `Controllers.LoginReturnsEmittedToken` | apps/open-press-backend/src/app/auth/auth.controller.ts:42-44 | on success the trace is `[before_validation, after_login(t)]` and `t` is the returned token. When the body validates but the service fails, the trace is `[before_validation]` only |
| `AuthEvents.EventEmitter.Emit` | apps/open-press-backend/src/app/auth/auth.controller.ts:38-40 | `emit` appends exactly the given event, with its payload, to the trace; earlier events are unchanged |
| `Controllers.ProfileEvents` | apps/open-press-backend/src/app/auth/auth.controller.ts:56-62 | exactly one `before_profile` then exactly one `after_profile`, in that order |
| `Controllers.AuthController.constructor` | apps/open-press-backend/src/app/auth/auth.controller.ts:25 | the controller keeps the injected service and emitter |
| `Controllers.AuthController.Login` | apps/open-press-backend/src/app/auth/auth.controller.ts:35-45 | appends exactly the `LoginEvents` sequence to the trace and returns `LoginResult` |
| `Controllers.AuthController.Profile` | apps/open-press-backend/src/app/auth/auth.controller.ts:55-63 | returns `UserEntity(user.toObject())` and appends `before_profile(user)` then `after_profile(entity)`, carrying the returned entity |

## Left out

- Reading and JSON-parsing `open-press.json` (`readConfig`): the configured names are an input, and a failure to read the file is not modelled.
- `bootstrap` itself (Nest and command factories, CORS, shutdown hooks, port, listening, logging): framework and I/O plumbing.
- `PluginLoaderModule.forModule` is not part of this model; the `PluginLoaderModule` value only records the final `imports` list it receives.
- Real module resolution and dynamic `import` are oracles (`Runtime`). A thrown value without a `message` is not modelled.
- `Promise.all` concurrency: promises are processed sequentially in name order, which preserves the observable order of values and warnings.
- Bootstrap.AwaitAll: its body picks the reason of the first rejected promise in list order, whereas in JavaScript the rejection that happens first in time wins. Its contract (`exists k`) only says the reason is that of some rejected promise and leaves the choice open, as do the contracts of `RegisterPlugins` and `MakeRootModule`.
- `EventEmitter2` listener dispatch, wildcard and async options, and subscriber errors: `emit` only appends to the trace.
- `AuthService` internals (password comparison, token signing, remember-me lifetime), the `validate` utility with `LoginRequestValidationSchema`, and `UserEntity`/`toObject`: they are collaborators given as functions or datatype fields.
- Nest decorators and guards (`@UseGuards`, `@PublicEndpoint`, `@RestUser`) and Passport plumbing: framework metadata. `request.user` is an input that may be absent, and it is passed on unchecked, as in the code.
- Controllers.AuthController.Profile: building the entity after `before_profile` fires is captured only by statement order. `toObject` and `new UserEntity` have no observable effect in the model.
- The event name strings (`PASSPORT_LOCAL_STRATEGY_EVENTS`, `AUTH_CONTROLLER_EVENTS`) are not part of this model; events are distinguished by constructor.
