/**
 The host object ("Dropserver") as the SDK sees it, and getlibsupport.ts, which
 fetches it from the global slot. The host's own behaviour is not part of this
 model: it is represented by its path bases and by the log of `setCallback`
 calls made on it, a slot holding the argument of the last such call.
 */
module LibSupport {
  import opened Wrappers
  import opened Functions
  import opened AppRoutes
  import opened Migrations

  /**
   The callback handed to `appRoutes.setCallback`: the application's own
   function, captured once, or a thunk that reads the `routes` field of the
   config object `config` each time it is called.
   */
  datatype RoutesCallback = RoutesFn(f: FnRef) | RoutesOfConfig(config: ObjRef)

  /**
   The callback handed to `migrations.setCallback`: the application's own
   function, captured once, or a thunk that reads the `migrations` field of the
   config object `config` each time it is called.
   */
  datatype MigrationsCallback = MigrationsFn(f: FnRef) | MigrationsOfConfig(config: ObjRef)

  /** One registration call on the host; `None` is a call with `undefined`. */
  datatype HostCall =
    | SetRoutesCallback(routesCb: RoutesCallback)
    | SetMigrationsCallback(migrationsCb: Option<MigrationsCallback>)

  /** The host object: its three path bases and the registration calls made on it so far. */
  datatype Host = Host(appPath: string, appspacePath: string, avatarsPath: string, calls: seq<HostCall>)

  /** A host callback slot: never set, or set to a value. */
  datatype Slot<T> = Unset | Set(value: T)

  /** Everything the SDK throws. */
  datatype Error =
    | DropserverNotPresent  // "Dropserver instance not present."
    | RoutesNotRecognized   // "routes is missing or not recognized type"
    | WrongMigrationsType   // "Wrong type for migrations"

  /**
   `mustGetLibSupport`: the host in the global slot, or an error when the slot is
   `undefined`. The code tests `=== undefined` only; a slot holding any other
   value is returned as the host, which this model does not represent.
   */
  function MustGetLibSupport(global: Option<Host>): (r: Result<Host, Error>)
    ensures r.Ok? <==> global.Some?
    ensures r.Ok? ==> r.value == global.value
    ensures r.Err? ==> r.error == DropserverNotPresent
  {
    match global
    case None => Err(DropserverNotPresent)
    case Some(h) => Ok(h)
  }

  /** `appRoutes.setCallback(cb)`: one more call in the log, nothing else changes. */
  function SetRoutes(host: Host, cb: RoutesCallback): Host
  {
    host.(calls := host.calls + [SetRoutesCallback(cb)])
  }

  /** `migrations.setCallback(cb)`: one more call in the log, nothing else changes. */
  function SetMigrations(host: Host, cb: Option<MigrationsCallback>): Host
  {
    host.(calls := host.calls + [SetMigrationsCallback(cb)])
  }

  /** The routes slot: the argument of the last `appRoutes.setCallback` call, if any. */
  function RoutesSlot(calls: seq<HostCall>): (s: Slot<RoutesCallback>)
    ensures s.Unset? <==> forall i :: 0 <= i < |calls| ==> !calls[i].SetRoutesCallback?
    ensures s.Set? ==> exists i :: 0 <= i < |calls| && calls[i] == SetRoutesCallback(s.value) && LastRoutesCall(calls, i)
    decreases |calls|
  {
    if |calls| == 0 then Unset
    else if calls[|calls| - 1].SetRoutesCallback? then
      assert LastRoutesCall(calls, |calls| - 1);
      Set(calls[|calls| - 1].routesCb)
    else
      var s := RoutesSlot(calls[..|calls| - 1]);
      assert s.Set? ==> exists i :: 0 <= i < |calls| && calls[i] == SetRoutesCallback(s.value) && LastRoutesCall(calls, i) by {
        if s.Set? {
          var i :| 0 <= i < |calls| - 1 && calls[..|calls| - 1][i] == SetRoutesCallback(s.value)
                   && LastRoutesCall(calls[..|calls| - 1], i);
          assert calls[i] == SetRoutesCallback(s.value);
          assert LastRoutesCall(calls, i);
        }
      }
      s
  }

  /** No routes registration follows position `i`. */
  predicate LastRoutesCall(calls: seq<HostCall>, i: nat)
  {
    forall j :: i < j < |calls| ==> !calls[j].SetRoutesCallback?
  }

  /** The migrations slot: the argument of the last `migrations.setCallback` call, if any. */
  function MigrationsSlot(calls: seq<HostCall>): (s: Slot<Option<MigrationsCallback>>)
    ensures s.Unset? <==> forall i :: 0 <= i < |calls| ==> !calls[i].SetMigrationsCallback?
    ensures s.Set? ==> exists i :: 0 <= i < |calls| && calls[i] == SetMigrationsCallback(s.value) && LastMigrationsCall(calls, i)
    decreases |calls|
  {
    if |calls| == 0 then Unset
    else if calls[|calls| - 1].SetMigrationsCallback? then
      assert LastMigrationsCall(calls, |calls| - 1);
      Set(calls[|calls| - 1].migrationsCb)
    else
      var s := MigrationsSlot(calls[..|calls| - 1]);
      assert s.Set? ==> exists i :: 0 <= i < |calls| && calls[i] == SetMigrationsCallback(s.value) && LastMigrationsCall(calls, i) by {
        if s.Set? {
          var i :| 0 <= i < |calls| - 1 && calls[..|calls| - 1][i] == SetMigrationsCallback(s.value)
                   && LastMigrationsCall(calls[..|calls| - 1], i);
          assert calls[i] == SetMigrationsCallback(s.value);
          assert LastMigrationsCall(calls, i);
        }
      }
      s
  }

  /** No migrations registration follows position `i`. */
  predicate LastMigrationsCall(calls: seq<HostCall>, i: nat)
  {
    forall j :: i < j < |calls| ==> !calls[j].SetMigrationsCallback?
  }

  /**
   What the host gets when it calls a routes callback, at that moment.
   `routesField` gives the current value of each config object's `routes` field;
   `run` gives what each application function returns when called. Neither
   result is checked: the cast in the thunk checks nothing.
   */
  function CallRoutes(cb: RoutesCallback, routesField: ObjRef -> JsValue<AppRoute>,
                      run: FnRef -> JsValue<AppRoute>): JsValue<AppRoute>
  {
    match cb
    case RoutesFn(f) => run(f)
    case RoutesOfConfig(c) => routesField(c)
  }

  /** What the host gets when it calls a migrations callback (the resolved value, for an async one). */
  function CallMigrations(cb: MigrationsCallback, migrationsField: ObjRef -> JsValue<Migration>,
                          run: FnRef -> JsValue<Migration>): JsValue<Migration>
  {
    match cb
    case MigrationsFn(f) => run(f)
    case MigrationsOfConfig(c) => migrationsField(c)
  }
}
