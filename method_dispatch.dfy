/**
 * The handler installed on the method channel `com.kai.budgie/notification_listener`:
 * a `when` over the method name inside one `try`, answering with
 * success(int), success(bool), success(null), notImplemented, or an error.
 */
module MethodDispatch {
  import opened Wrappers

  /** The seven operations the UI layer may call. */
  datatype Action =
    | GetAndroidSdkVersion
    | CheckNotificationAccess
    | RequestNotificationAccess
    | OpenNotificationSettings
    | StartListening
    | StopListening
    | IsNotificationServiceEnabled

  /** The reply sent back over the channel. */
  datatype Reply =
    | SuccessInt(n: int)
    | SuccessBool(b: bool)
    | SuccessNull
    | NotImplemented
    | Error(code: string, message: string, details: Option<string>)

  /** An exception raised while a branch of the handler ran, with its (nullable) message. */
  datatype HandlerException = HandlerException(message: Option<string>)

  /** The error code of every failed call. */
  const MethodErrorCode: string := "METHOD_ERROR"

  /** The method name under which each action is called. */
  function MethodName(a: Action): string
  {
    match a
    case GetAndroidSdkVersion => "getAndroidSdkVersion"
    case CheckNotificationAccess => "checkNotificationAccess"
    case RequestNotificationAccess => "requestNotificationAccess"
    case OpenNotificationSettings => "openNotificationSettings"
    case StartListening => "startListening"
    case StopListening => "stopListening"
    case IsNotificationServiceEnabled => "isNotificationServiceEnabled"
  }

  /** The names the handler knows. */
  const KnownMethods: set<string> := {
    "getAndroidSdkVersion", "checkNotificationAccess", "requestNotificationAccess",
    "openNotificationSettings", "startListening", "stopListening", "isNotificationServiceEnabled"
  }

  /** The branch of the `when` that a method name selects; None is the `else` branch. */
  function Route(name: string): (a: Option<Action>)
    ensures a.Some? <==> name in KnownMethods
    ensures a.Some? ==> MethodName(a.value) == name
  {
    if name == "getAndroidSdkVersion" then Some(GetAndroidSdkVersion)
    else if name == "checkNotificationAccess" then Some(CheckNotificationAccess)
    else if name == "requestNotificationAccess" then Some(RequestNotificationAccess)
    else if name == "openNotificationSettings" then Some(OpenNotificationSettings)
    else if name == "startListening" then Some(StartListening)
    else if name == "stopListening" then Some(StopListening)
    else if name == "isNotificationServiceEnabled" then Some(IsNotificationServiceEnabled)
    else None
  }

  /** Every action is reached by its own name, and by no other. */
  lemma RouteInvertsMethodName(a: Action, name: string)
    ensures Route(MethodName(a)) == Some(a)
    ensures Route(name) == Some(a) <==> name == MethodName(a)
  {
  }

  /** The void operations: their branch runs a side effect and replies success(null). */
  predicate IsVoid(a: Action)
  {
    a in {RequestNotificationAccess, OpenNotificationSettings, StartListening, StopListening}
  }

  /**
   * The reply of a call. `sdkInt` stands for `Build.VERSION.SDK_INT`,
   * `enabled` for the result of `isNotificationServiceEnabled`, and `raised`
   * for an exception thrown while the selected branch ran.
   */
  function Dispatch(name: string, sdkInt: int, enabled: bool, raised: Option<HandlerException>): (r: Reply)
    ensures r.Error? <==> raised.Some?
    ensures r.Error? ==> r.code == MethodErrorCode && r.details == raised.value.message
    ensures r.Error? ==> r.message == "Error handling method call: " + name
    ensures r == NotImplemented <==> raised.None? && name !in KnownMethods
    ensures r.SuccessInt? <==> raised.None? && name == "getAndroidSdkVersion"
    ensures r.SuccessInt? ==> r.n == sdkInt
    ensures r.SuccessBool? <==> raised.None? && name in {"checkNotificationAccess", "isNotificationServiceEnabled"}
    ensures r.SuccessBool? ==> r.b == enabled
    ensures r == SuccessNull <==> raised.None? && Route(name).Some? && IsVoid(Route(name).value)
  {
    match raised
    case Some(e) => Error(MethodErrorCode, "Error handling method call: " + name, e.message)
    case None =>
      match Route(name)
      case None => NotImplemented
      case Some(a) =>
        match a
        case GetAndroidSdkVersion => SuccessInt(sdkInt)
        case CheckNotificationAccess => SuccessBool(enabled)
        case IsNotificationServiceEnabled => SuccessBool(enabled)
        case RequestNotificationAccess => SuccessNull
        case OpenNotificationSettings => SuccessNull
        case StartListening => SuccessNull
        case StopListening => SuccessNull
  }

  /**
   * The two access queries are answered identically; when they fail, only
   * the error message differs, since it quotes the method name.
   */
  lemma AccessQueriesAgree(sdkInt: int, enabled: bool, raised: Option<HandlerException>)
    ensures raised.None? ==>
      Dispatch("checkNotificationAccess", sdkInt, enabled, raised)
      == Dispatch("isNotificationServiceEnabled", sdkInt, enabled, raised)
      == SuccessBool(enabled)
    ensures raised.Some? ==>
      Dispatch("checkNotificationAccess", sdkInt, enabled, raised).details
      == Dispatch("isNotificationServiceEnabled", sdkInt, enabled, raised).details
  {
  }

  /** A known name that raises nothing never gets notImplemented, and each void action replies success(null). */
  lemma KnownActionReply(a: Action, sdkInt: int, enabled: bool)
    ensures Dispatch(MethodName(a), sdkInt, enabled, None) != NotImplemented
    ensures IsVoid(a) <==> Dispatch(MethodName(a), sdkInt, enabled, None) == SuccessNull
  {
  }
}
