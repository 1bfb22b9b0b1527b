/**
 Model of mod.ts: `createApp`, which normalises the app's `routes` and
 `migrations` configuration into callbacks and registers them on the host, and
 the path accessors of the DropserverApp facade it returns.
 */
module App {
  import opened Wrappers
  import opened Functions
  import opened AppRoutes
  import opened Migrations
  import opened LibSupport

  /**
   The `AppConfig` object passed to `createApp`: its identity, and the values of
   its two fields when `createApp` runs. The application may change the fields,
   or the arrays they hold, afterwards.
   */
  datatype AppConfig = AppConfig(self: ObjRef, routes: JsValue<AppRoute>, migrations: JsValue<Migration>)

  /** The facade `createApp` returns; it holds no state and re-reads the host on every call. */
  datatype DropserverApp = DropserverApp

  /** The global slot after a `createApp` call, and what the call returned or threw. */
  datatype CreateAppOutcome = CreateAppOutcome(global: Option<Host>, result: Result<DropserverApp, Error>)

  /** A `routes` value `createApp` accepts: a function or an array. */
  predicate RoutesAccepted(v: JsValue<AppRoute>)
  {
    v.Fn? || v.Arr?
  }

  /** A `migrations` value `createApp` accepts: a function, an array, or `undefined`. */
  predicate MigrationsAccepted(v: JsValue<Migration>)
  {
    !v.Other?
  }

  /**
   `cb` is the routes callback `createApp` must register for `config`: the
   function itself, or a thunk over the config object's `routes` field.
   */
  ghost predicate RoutesCallbackFor(config: AppConfig, cb: RoutesCallback)
  {
    || (config.routes.Fn? && cb == RoutesFn(config.routes.f))
    || (config.routes.Arr? && cb == RoutesOfConfig(config.self))
  }

  /**
   `cb` is the migrations callback `createApp` must register for `config`: the
   function itself, a thunk over the config object's `migrations` field, or
   `undefined` passed on as is.
   */
  ghost predicate MigrationsCallbackFor(config: AppConfig, cb: Option<MigrationsCallback>)
  {
    || (config.migrations.Fn? && cb == Some(MigrationsFn(config.migrations.f)))
    || (config.migrations.Arr? && cb == Some(MigrationsOfConfig(config.self)))
    || (config.migrations.Absent? && cb == None)
  }

  /** `h'` is `h` with `added` appended to its registration log and nothing else changed. */
  ghost predicate Registered(h: Host, h': Host, added: seq<HostCall>)
  {
    h' == h.(calls := h.calls + added)
  }

  /** Routes normalisation: `None` is the `routes === undefined` case that makes `createApp` throw. */
  function NormalizeRoutes(config: AppConfig): (r: Option<RoutesCallback>)
    ensures r.Some? <==> RoutesAccepted(config.routes)
    ensures r.Some? ==> RoutesCallbackFor(config, r.value)
  {
    match config.routes
    case Fn(f) => Some(RoutesFn(f))
    case Arr(_) => Some(RoutesOfConfig(config.self))
    case _ => None
  }

  /** Migrations normalisation: `Ok(None)` is `undefined`, passed on to the host unchanged. */
  function NormalizeMigrations(config: AppConfig): (r: Result<Option<MigrationsCallback>, Error>)
    ensures r.Ok? <==> MigrationsAccepted(config.migrations)
    ensures r.Ok? ==> MigrationsCallbackFor(config, r.value)
    ensures r.Err? ==> r.error == WrongMigrationsType
  {
    match config.migrations
    case Fn(f) => Ok(Some(MigrationsFn(f)))
    case Arr(_) => Ok(Some(MigrationsOfConfig(config.self)))
    case Absent => Ok(None)
    case Other => Err(WrongMigrationsType)
  }

  /**
   `createApp`, step by step as the code does it: fetch the host, normalise
   `routes` (throw if unrecognised), register it, normalise `migrations` (throw if
   of the wrong type, with the routes callback already registered), register it.
   */
  function CreateApp(global: Option<Host>, config: AppConfig): (r: CreateAppOutcome)
    // no host: fail before anything is touched
    ensures global.None? ==> r == CreateAppOutcome(global, Err(DropserverNotPresent))
    // unrecognised routes: fail with no registration at all
    ensures global.Some? && !RoutesAccepted(config.routes) ==> r == CreateAppOutcome(global, Err(RoutesNotRecognized))
    // wrong migrations: fail with exactly the routes registration made
    ensures global.Some? && RoutesAccepted(config.routes) && !MigrationsAccepted(config.migrations) ==>
              && r.result == Err(WrongMigrationsType)
              && r.global.Some?
              && |r.global.value.calls| == |global.value.calls| + 1
              && var last := r.global.value.calls[|global.value.calls|];
                 && last.SetRoutesCallback?
                 && RoutesCallbackFor(config, last.routesCb)
                 && Registered(global.value, r.global.value, [last])
    // success: exactly two registrations, routes before migrations
    ensures r.result.Ok? <==> global.Some? && RoutesAccepted(config.routes) && MigrationsAccepted(config.migrations)
    ensures r.result.Ok? ==>
              && r.global.Some?
              && |r.global.value.calls| == |global.value.calls| + 2
              && var first := r.global.value.calls[|global.value.calls|];
                 var second := r.global.value.calls[|global.value.calls| + 1];
                 && first.SetRoutesCallback?
                 && RoutesCallbackFor(config, first.routesCb)
                 && second.SetMigrationsCallback?
                 && MigrationsCallbackFor(config, second.migrationsCb)
                 && Registered(global.value, r.global.value, [first, second])
  {
    match MustGetLibSupport(global)
    case Err(e) => CreateAppOutcome(global, Err(e))
    case Ok(host) =>
      match NormalizeRoutes(config)
      case None => CreateAppOutcome(global, Err(RoutesNotRecognized))
      case Some(routes) =>
        var host1 := SetRoutes(host, routes);
        match NormalizeMigrations(config)
        case Err(e) => CreateAppOutcome(Some(host1), Err(e))
        case Ok(migrations) =>
          var host2 := SetMigrations(host1, migrations);
          CreateAppOutcome(Some(host2), Ok(DropserverApp))
  }

  /**
   After `createApp` has registered the routes callback (whether or not it then
   threw), the host's routes slot holds it. Whenever the host calls it, it gets
   the configured function's result if `routes` was a function (captured once),
   and otherwise whatever the config object's `routes` field holds at that
   moment, unchecked; while that field is unchanged, that is the configured
   array.
   */
  lemma RegisteredRoutesReadConfig(global: Option<Host>, config: AppConfig,
                                   routesField: ObjRef -> JsValue<AppRoute>, run: FnRef -> JsValue<AppRoute>)
    requires global.Some? && RoutesAccepted(config.routes)
    ensures var r := CreateApp(global, config);
            && r.global.Some?
            && RoutesSlot(r.global.value.calls).Set?
            && var got := CallRoutes(RoutesSlot(r.global.value.calls).value, routesField, run);
               && (config.routes.Fn? ==> got == run(config.routes.f))
               && (config.routes.Arr? ==> got == routesField(config.self))
               && (config.routes.Arr? && routesField(config.self) == config.routes ==> got == config.routes)
  {
  }

  /**
   After a successful `createApp` the migrations slot is set: to `undefined`
   exactly when no migrations were configured; otherwise to a callback that
   yields the configured function's result (captured once) or whatever the
   config object's `migrations` field holds when the host calls it.
   */
  lemma RegisteredMigrationsReadConfig(global: Option<Host>, config: AppConfig,
                                       migrationsField: ObjRef -> JsValue<Migration>, run: FnRef -> JsValue<Migration>)
    requires CreateApp(global, config).result.Ok?
    ensures var r := CreateApp(global, config);
            var slot := MigrationsSlot(r.global.value.calls);
            && slot.Set?
            && (slot.value.None? <==> config.migrations.Absent?)
            && (slot.value.Some? ==>
                  var got := CallMigrations(slot.value.value, migrationsField, run);
                  && (config.migrations.Fn? ==> got == run(config.migrations.f))
                  && (config.migrations.Arr? ==> got == migrationsField(config.self))
                  && (config.migrations.Arr? && migrationsField(config.self) == config.migrations ==> got == config.migrations))
  {
  }

  /**
   A `migrations` value of the wrong type throws only after the routes callback
   is registered, and leaves the migrations slot as it was.
   */
  lemma WrongMigrationsLeavesMigrationsSlot(global: Option<Host>, config: AppConfig)
    requires global.Some? && RoutesAccepted(config.routes) && config.migrations.Other?
    ensures var r := CreateApp(global, config);
            && r.result == Err(WrongMigrationsType)
            && RoutesSlot(r.global.value.calls).Set?
            && MigrationsSlot(r.global.value.calls) == MigrationsSlot(global.value.calls)
  {
  }

  /** The three path namespaces of the facade. */
  datatype Namespace = AppFiles | AppspaceFiles | Avatars

  /** `path.join(base, segment)`, left symbolic: the joining rules belong to a library outside this model. */
  datatype JoinedPath = Join(base: string, segment: string)

  /** The host's base path for a namespace. */
  function Base(host: Host, ns: Namespace): string
  {
    match ns
    case AppFiles => host.appPath
    case AppspaceFiles => host.appspacePath
    case Avatars => host.avatarsPath
  }

  /**
   `appPath`, `appspacePath` and `avatarsPath`: fetch the host anew and join its
   current base for the namespace with `p`; throw when the host is absent.
   */
  function ResolvePath(global: Option<Host>, ns: Namespace, p: string): (r: Result<JoinedPath, Error>)
    ensures r.Err? <==> global.None?
    ensures r.Err? ==> r.error == DropserverNotPresent
    ensures r.Ok? ==> r.value.segment == p
    ensures r.Ok? && ns == AppFiles ==> r.value.base == global.value.appPath
    ensures r.Ok? && ns == AppspaceFiles ==> r.value.base == global.value.appspacePath
    ensures r.Ok? && ns == Avatars ==> r.value.base == global.value.avatarsPath
  {
    match MustGetLibSupport(global)
    case Err(e) => Err(e)
    case Ok(host) => Ok(Join(Base(host, ns), p))
  }

  /** Registering callbacks does not move any base path: `createApp` leaves every resolved path as it was. */
  lemma CreateAppKeepsPaths(global: Option<Host>, config: AppConfig, ns: Namespace, p: string)
    ensures ResolvePath(CreateApp(global, config).global, ns, p) == ResolvePath(global, ns, p)
  {
  }
}
