/**
 * The vendor attribution SDK as the binding sees it: the values it hands to
 * the SDK's configuration and event objects, and the calls it issues. The
 * SDK's own behaviour is not modelled; a run of the binding is described by
 * the sequence of calls it made.
 */
module Vendor {
  import opened Optional

  /** `com.adjust.sdk.LogLevel` (the SDK spells the last one SUPRESS). */
  datatype LogLevel = Verbose | Debug | Info | Warn | Error | Assert | Suppress

  /** The environment string given to `AdjustConfig`: one of its two constants, or any other text verbatim. */
  datatype Environment = Sandbox | Production | Custom(name: string)

  /** The five parts given to `AdjustConfig.setAppSecret`. */
  datatype AppSecret = AppSecret(secretId: int, info1: int, info2: int, info3: int, info4: int)

  /** The two arguments of `AdjustEvent.setRevenue`. */
  datatype Revenue = Revenue(amount: real, currency: string)

  /** The six listener slots of `AdjustConfig`. */
  datatype Callback =
    | AttributionChanged
    | EventTrackingSucceeded
    | EventTrackingFailed
    | SessionTrackingSucceeded
    | SessionTrackingFailed
    | DeeplinkResponse

  /**
   * An `AdjustConfig` as the binding leaves it. `None` in an optional field
   * means its setter was never called, so the SDK's default applies.
   * `allowSuppressLogLevel` is the constructor's fourth argument.
   */
  datatype AdjustConfig = AdjustConfig(
    appToken: string,
    environment: Environment,
    allowSuppressLogLevel: bool,
    logLevel: Option<LogLevel>,
    eventBufferingEnabled: Option<bool>,
    sdkPrefix: string,
    processName: Option<string>,
    defaultTracker: Option<string>,
    userAgent: Option<string>,
    sendInBackground: Option<bool>,
    delayStart: Option<real>,
    deviceKnown: Option<bool>,
    readMobileEquipmentIdentity: Option<bool>,
    appSecret: Option<AppSecret>,
    callbacks: set<Callback>)

  /** One `addCallbackParameter` / `addPartnerParameter` call. */
  datatype Param = Param(key: string, value: string)

  /** An `AdjustEvent` as handed to `Adjust.trackEvent`; parameters are listed in the order they were added. */
  datatype AdjustEvent = AdjustEvent(
    eventToken: string,
    revenue: Option<Revenue>,
    orderId: Option<string>,
    callbackParameters: seq<Param>,
    partnerParameters: seq<Param>)

  /** A URL, taken as the opaque result of `Uri.parse`. */
  type Url = string

  /** A call the binding issues on the SDK. */
  datatype VendorCall =
    | OnCreate(config: AdjustConfig)
    | OnResume
    | OpenUrl(url: Url)
    | Track(event: AdjustEvent)
}
