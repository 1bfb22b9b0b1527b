# dropserver_app: routes, migrations and `createApp`, modelled in Dafny

This SDK lets a Dropserver application declare its HTTP routes and its data
migrations and hand them to the Dropserver host, an object the host places in the
global `DROPSERVER` slot before application code runs. The model covers the three
pieces of the SDK that have logic of their own:

- `RoutesBuilder` (approutes.ts), module `AppRoutes`. `add` normalises a bare
  path string to `{path, end: true}`. If the handler is a marker that this builder
  minted with `staticFileHandler`, `add` appends a `static` route carrying the
  marker's options. Otherwise it appends a `function` route that wraps the handler
  and records its name. The wrapper hands the handler a reduced five-field context.
- `MigrationsBuilder` (migrations.ts), module `Migrations`. `upTo` and `downFrom`
  append `{direction, schema: Math.round(schema), func}`. They never validate
  anything.
- `createApp` (mod.ts), module `App`, with the host lookup of getlibsupport.ts
  in module `LibSupport`. It normalises `routes` (function or array) and then
  `migrations` (function, array or `undefined`) into callbacks, and registers
  them on the host in that order. It also has the facade's path accessors.

Builders are immutable records. Each builder call is a pure function from the old
record to the new one. JavaScript function objects are `FnRef(id, name)`. The `id`
is the object's identity. The builder's private `Map` is keyed on that id, as a
JavaScript `Map` compares functions by identity only. New
function objects come from an allocator `Heap` (module `Functions`). The marker
created by `const h = function() {}` gets the inferred JavaScript name `"h"`.
That name is what a function route records when one builder's marker is passed
to a different builder. A builder session is a sequence of `staticFileHandler`
and `add` calls on one builder. Function objects created elsewhere, such as other
builders' markers or application handlers, advance the same allocator.

`createApp` receives the config object by reference, modelled by its identity
`self`. An array-valued field is wrapped in a thunk that reads the field again
each time the host calls it (mod.ts:109, mod.ts:117). A function value is
captured once (mod.ts:108, mod.ts:116).

The host is a `Host` record. It holds its three base paths and the log of
`setCallback` calls made on it. A callback slot holds the argument of the last
call for that slot. This follows the registration API; the host's own code is
not part of this model. The global slot is an `Option<Host>` parameter.

Three facts about the code:
- A failed `createApp` can leave a partial registration. A `migrations` value
  of the wrong type throws after the routes callback has been registered
  (mod.ts:112, mod.ts:118).
- When `migrations` is `undefined`, `migrations.setCallback(undefined)` is still
  called (mod.ts:115-119).
- The builders never read the global host slot. Only `createApp` and the
  facade's methods do.

## Model

| member | source | states |
|---|---|---|
| `AppRoutes.Add` | approutes.ts:146-167 | appends exactly one route and leaves earlier routes and the marker map unchanged; a bare string `p` becomes `{path: p, end: true}` and a Path object is kept as given; method and auth are copied; the route is static exactly when the handler is one of this builder's markers, and then carries that marker's options; otherwise it wraps the handler and records `handler.name`; every static route still carries options bound to some marker |
| `AppRoutes.Invoke` | approutes.ts:182-194 | the wrapper calls the original handler with a context whose request and respondWith come from `ctx.req`, whose params, url and proxyId come from `ctx`, and which has no other field |
| `AppRoutes.StaticFileHandler` | approutes.ts:175-179 | returns a function object that did not exist before, binds it to `opts`, adds exactly one key to the marker map without changing the other entries, leaves `routes` unchanged, and keeps every static route bound to a marker |
| `AppRoutes.AddAllInCallOrder` | approutes.ts:136-167 | after any sequence of `add` calls, the i-th new route describes the i-th call, earlier routes are untouched, and the marker map is unchanged: route order is call order |
| `AppRoutes.OwnMarkerGivesStaticRoute` | approutes.ts:148-155 | a handler minted by this builder's `staticFileHandler(opts)` and then passed to `add` produces a static route whose options are exactly `opts` |
| `AppRoutes.ForeignMarkerGivesFunctionRoute` | approutes.ts:157-165 | a marker minted by a different builder is an ordinary function to this one: `add` produces a function route wrapping it, named `"h"` |
| `AppRoutes.NewBuilderValid` | approutes.ts:136-137 | a new builder's marker map is empty, so the builder is valid under every allocator state |
| `AppRoutes.RunGrows` | approutes.ts:146-179 | across any stretch of a session, the allocator only advances and routes are only appended; for a valid builder, validity is kept, no marker binding is lost or changed, and every new marker is younger than everything allocated before |
| `AppRoutes.SessionInCallOrder` | approutes.ts:135-179 | in any session mixing `staticFileHandler`, `add` and function creation elsewhere, routes are only appended and the builder stays valid. Each `add` appends the route that describes it against the marker map at that moment |
| `AppRoutes.SessionOwnMarkerGivesStaticRoute` | approutes.ts:148-155 | in a session, adding a marker this builder minted at any earlier step gives a static route carrying that step's options, whatever calls came in between |
| `AppRoutes.SessionForeignFunctionGivesFunctionRoute` | approutes.ts:157-165 | in a session, adding a function object created elsewhere at an earlier step, such as another builder's marker, gives a function route |
| `Functions.Alloc` | approutes.ts:176 | evaluating a function expression yields an object distinct from every object created before it |
| `Migrations.Round` | migrations.ts:48 | `Math.round` yields the nearest integer, with halves rounded up |
| `Migrations.RoundKeepsIntegers` | migrations.ts:48 | an integer schema is stored unchanged |
| `Migrations.UpTo` | migrations.ts:47-54 | appends exactly one record with direction "up", the rounded schema and the given function; earlier records are untouched; it never fails |
| `Migrations.DownFrom` | migrations.ts:61-68 | appends exactly one record with direction "down", the rounded schema and the given function; earlier records are untouched; it never fails |
| `Migrations.ApplyAllInCallOrder` | migrations.ts:38-69 | after any sequence of `upTo`/`downFrom` calls, there is one record per call, in call order, with the call's direction, rounded schema and function; earlier records are untouched |
| `Migrations.RoundExamples` | migrations.ts:48 | 3.7 is stored as 4, 2.5 as 3, -2.5 as -2 and 3 as 3 |
| `Migrations.DuplicateUpToAccepted` | migrations.ts:47-54 | `upTo(3)` twice is accepted and stores two identical records |
| `LibSupport.MustGetLibSupport` | getlibsupport.ts:4-7 | returns the host exactly when the global slot holds one, and otherwise throws "Dropserver instance not present." |
| `LibSupport.RoutesSlot` | mod.ts:112 | the routes slot is unset exactly when `appRoutes.setCallback` was never called, and otherwise holds the argument of the last such call |
| `LibSupport.MigrationsSlot` | mod.ts:119 | the migrations slot is unset exactly when `migrations.setCallback` was never called, and otherwise holds the argument of the last such call, `undefined` included |
| `App.NormalizeRoutes` | mod.ts:107-111 | a function is kept as the callback, an array becomes a thunk over the config object's `routes` field, and anything else (including `undefined`) is rejected |
| `App.NormalizeMigrations` | mod.ts:115-118 | a function is kept, an array becomes a thunk over the config object's `migrations` field, `undefined` stays `undefined`, and anything else is rejected with "Wrong type for migrations" |
| `App.CreateApp` | mod.ts:103-122 | with no host it throws and changes nothing; with unrecognised routes it throws with no registration; with wrong-typed migrations it throws after registering exactly the routes callback; it succeeds exactly when the host is present, routes is a function or array and migrations is not of the wrong type, and then it makes exactly two registrations, routes before migrations |
| `App.RegisteredRoutesReadConfig` | mod.ts:107-112 | once `createApp` has registered routes, whether or not it threw afterwards, the routes slot is set. Calling it gives the configured function's result, the function being captured once. Otherwise it gives whatever the config object's `routes` field holds at that moment, unchecked, which is the configured array while the field is unchanged |
| `App.RegisteredMigrationsReadConfig` | mod.ts:115-119 | after a successful `createApp` the migrations slot is set, to `undefined` exactly when no migrations were configured. Otherwise calling it gives the configured function's result, captured once, or whatever the config object's `migrations` field holds at that moment, which is the configured array while the field is unchanged |
| `App.WrongMigrationsLeavesMigrationsSlot` | mod.ts:112-118 | a wrong-typed `migrations` throws with the routes slot already set and the migrations slot as it was before the call |
| `App.ResolvePath` | mod.ts:20-43 | `appPath`, `appspacePath` and `avatarsPath` read the host again on each call and join the current base for their namespace with the segment; with no host they throw |
| `App.CreateAppKeepsPaths` | mod.ts:103-122 | `createApp` does not change any base path, so every path resolves the same before and after it. This is a frame property. It rests on the model's reading of `setCallback` as only recording the registration |

## Left out

- `App.ResolvePath`: the join is the symbolic `Join(base, segment)`. The path
  library's normalisation rules are not part of this model, so a result such as
  `"/apps/demo/frontend/index.html"` is not computed.
- `getUsers` and `getUser` (mod.ts:49-61) are left out. They only forward to the
  host's `users.getAll` and `users.get` and have no logic of their own.
- users.ts is left out. It declares a type and has no behaviour.
- Running handlers, migration functions and the host's router is left out.
  Promises, `Request` and `Response` objects are opaque values. A function's
  behaviour is a parameter `run` mapping each function to its result. For an
  async migrations factory, that result is the list the promise resolves to.
- `AppRoutes.StaticFileHandler`: `StaticOpts` is a value here. The code stores
  a reference to the caller's `opts` object in the marker map
  (approutes.ts:177). A later change to that object shows in the source's
  stored routes but not in the model's. Several static routes from one marker
  share that one object in the source.
- `AppRoutes.Add`: `Path`, `Auth` and `StaticOpts` are values here. The code
  stores references to the caller's `path` and `auth` objects and to the
  marker's `opts` object (approutes.ts:147-154). A later change to one of those
  objects shows in the source's stored route but not in the model's.
- `AppRoutes.Add`: the identity and `name` of the wrapper are not modelled. The
  code creates a new closure `getHandler` on every call (approutes.ts:183),
  with name `""`. The model represents it by the handler it wraps, so two
  function routes for the same handler have equal `handler` fields. The host
  only calls the wrapper, so its identity carries no behaviour here.
- `Migrations.Round`: the schema is a real number. NaN, the infinities, negative
  zero and floating-point rounding error are not modelled.
- The allocator assumes one shared heap. `ForeignMarkerGivesFunctionRoute` holds
  for builders whose markers all came from that heap (`Valid`).
- The host's handling of a registered callback is left out. The host code is not
  part of this model. A slot is taken to hold the last registered value.
