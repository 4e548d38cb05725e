/**
 * The binding object that the game runtime creates once per process and
 * reuses for every runtime instance: six listener handles, a single pending
 * URL, two flags, and the calls it issues on the vendor SDK.
 *
 * The Lua stack is not modelled: each entry point receives its argument
 * already decoded, `None` standing for an argument that is not a table (or
 * not a string). A required field that is missing raises a Lua error in the
 * source before anything has changed; here that is the `LuaError` result.
 */
module Loader {
  import opened Optional
  import opened Vendor
  import opened LoaderRules

  /** A Lua registry reference held for a listener: the sentinel REFNIL, or a handle from `newRef`. */
  datatype ListenerRef = RefNil | Ref(handle: nat)

  /** How an entry point ended: normally, by logging that its argument is not a table, or by a Lua error on a field. */
  datatype CallResult = Done | NotATable | LuaError(field: string)

  datatype Result<T> = Ok(value: T) | Err(field: string)

  /** The table given to `create`, one optional field per key the binding reads. */
  datatype CreateTable = CreateTable(
    logLevel: Option<string>,
    appToken: Option<string>,
    environment: Option<string>,
    eventBufferingEnabled: Option<bool>,
    processName: Option<string>,
    defaultTracker: Option<string>,
    userAgent: Option<string>,
    sendInBackground: Option<bool>,
    shouldLaunchDeeplink: Option<bool>,
    delayStart: Option<real>,
    isDeviceKnown: Option<bool>,
    readMobileEquipmentIdentity: Option<bool>,
    secretId: Option<int>,
    info1: Option<int>,
    info2: Option<int>,
    info3: Option<int>,
    info4: Option<int>)

  /** One element of a `callbackParameters` or `partnerParameters` list. */
  datatype ParamEntry = ParamEntry(key: Option<string>, value: Option<string>)

  /**
   * The table given to `trackEvent`. A parameter list is `None` when the
   * field is nil or not a table, in which case it is skipped.
   */
  datatype EventTable = EventTable(
    eventToken: Option<string>,
    revenue: Option<real>,
    currency: Option<string>,
    transactionId: Option<string>,
    callbackParameters: Option<seq<ParamEntry>>,
    partnerParameters: Option<seq<ParamEntry>>)

  /** The SDK prefix every configuration is tagged with. */
  const SdkPrefix: string := "corona4.12.2"

  /**
   * The configuration `create` hands to `Adjust.onCreate`, given the
   * callbacks whose listeners are registered; an error names the missing
   * required field.
   */
  function ConfigFor(t: CreateTable, wired: set<Callback>): (r: Result<AdjustConfig>)
    ensures r.Err? <==> t.appToken.None? || t.environment.None?
    ensures t.appToken.None? ==> r == Err("appToken")
    ensures t.appToken.Some? && t.environment.None? ==> r == Err("environment")
    ensures r.Ok? ==>
      var c := r.value;
      && c.appToken == t.appToken.value
      && c.environment == EnvironmentFor(t.environment.value)
      && c.allowSuppressLogLevel == SuppressFlag(t.logLevel)
      && c.logLevel == LogLevelFor(t.logLevel)
      && c.appSecret == AppSecretFor(t.secretId, t.info1, t.info2, t.info3, t.info4)
      && c.callbacks == wired
      && c.sdkPrefix == SdkPrefix
      && c.eventBufferingEnabled == t.eventBufferingEnabled
      && c.processName == t.processName && c.defaultTracker == t.defaultTracker
      && c.userAgent == t.userAgent && c.sendInBackground == t.sendInBackground
      && c.delayStart == t.delayStart && c.deviceKnown == t.isDeviceKnown
      && c.readMobileEquipmentIdentity == t.readMobileEquipmentIdentity
  {
    if t.appToken.None? then Err("appToken")
    else if t.environment.None? then Err("environment")
    else
      Ok(AdjustConfig(
        t.appToken.value, EnvironmentFor(t.environment.value), SuppressFlag(t.logLevel),
        LogLevelFor(t.logLevel), t.eventBufferingEnabled, SdkPrefix, t.processName,
        t.defaultTracker, t.userAgent, t.sendInBackground, t.delayStart, t.isDeviceKnown,
        t.readMobileEquipmentIdentity, AppSecretFor(t.secretId, t.info1, t.info2, t.info3, t.info4),
        wired))
  }

  predicate Complete(e: ParamEntry)
  {
    e.key.Some? && e.value.Some?
  }

  /**
   * The parameters added for a list, in list order, or `None` when an
   * element lacks its key or value (the Lua error that abandons the event).
   */
  function ParamsFor(entries: seq<ParamEntry>): Option<seq<Param>>
    decreases |entries|
  {
    if entries == [] then Some([])
    else
      var last := entries[|entries| - 1];
      match ParamsFor(entries[..|entries| - 1])
      case None => None
      case Some(init) =>
        if Complete(last) then Some(init + [Param(last.key.value, last.value.value)]) else None
  }

  /** A list is accepted exactly when every element is complete, and then element i becomes parameter i. */
  lemma {:induction false} ParamsForMeaning(entries: seq<ParamEntry>)
    ensures ParamsFor(entries).Some? <==> forall i :: 0 <= i < |entries| ==> Complete(entries[i])
    ensures ParamsFor(entries).Some? ==>
      var ps := ParamsFor(entries).value;
      && |ps| == |entries|
      && forall i :: 0 <= i < |entries| ==> ps[i] == Param(entries[i].key.value, entries[i].value.value)
    decreases |entries|
  {
    if entries != [] {
      var init := entries[..|entries| - 1];
      ParamsForMeaning(init);
      assert forall i :: 0 <= i < |init| ==> init[i] == entries[i];
    }
  }

  /** A parameter field that is absent or not a table adds nothing. */
  function ParamListFor(entries: Option<seq<ParamEntry>>): Option<seq<Param>>
  {
    if entries.None? then Some([]) else ParamsFor(entries.value)
  }

  /** The event `trackEvent` hands to `Adjust.trackEvent`; an error names the field that raised. */
  function EventFor(t: EventTable): (r: Result<AdjustEvent>)
    ensures r.Ok? <==>
      t.eventToken.Some? && ParamListFor(t.callbackParameters).Some? && ParamListFor(t.partnerParameters).Some?
    ensures t.eventToken.None? ==> r == Err("eventToken")
    ensures r.Ok? ==>
      && r.value.eventToken == t.eventToken.value
      && r.value.revenue == RevenueFor(t.revenue, t.currency)
      && r.value.orderId == t.transactionId
      && Some(r.value.callbackParameters) == ParamListFor(t.callbackParameters)
      && Some(r.value.partnerParameters) == ParamListFor(t.partnerParameters)
  {
    if t.eventToken.None? then Err("eventToken")
    else if ParamListFor(t.callbackParameters).None? then Err("callbackParameters")
    else if ParamListFor(t.partnerParameters).None? then Err("partnerParameters")
    else
      Ok(AdjustEvent(t.eventToken.value, RevenueFor(t.revenue, t.currency), t.transactionId,
                     ParamListFor(t.callbackParameters).value, ParamListFor(t.partnerParameters).value))
  }

  /** The loop of `trackEvent` over one parameter list, elements 1 to length in Lua's numbering. */
  method CollectParameters(entries: seq<ParamEntry>) returns (params: seq<Param>, ok: bool, bad: nat)
    ensures ok <==> ParamsFor(entries).Some?
    ensures ok ==> ParamsFor(entries) == Some(params)
    ensures !ok ==>
      && bad < |entries| && !Complete(entries[bad])
      && forall j :: 0 <= j < bad ==> Complete(entries[j])
  {
    params, bad := [], 0;
    var i := 0;
    while i < |entries|
      invariant 0 <= i <= |entries|
      invariant ParamsFor(entries[..i]) == Some(params)
      invariant forall j :: 0 <= j < i ==> Complete(entries[j])
    {
      var e := entries[i];
      if e.key.None? || e.value.None? {
        ParamsForMeaning(entries);
        return [], false, i;
      }
      assert entries[..i + 1][..i] == entries[..i];
      params := params + [Param(e.key.value, e.value.value)];
      i := i + 1;
    }
    assert entries[..i] == entries;
    ok := true;
  }

  /** The URL replayed after `onCreate`, if one was pending. */
  function Replay(pending: Option<Url>): seq<VendorCall>
  {
    if pending.Some? then [OpenUrl(pending.value)] else []
  }

  /** `onCreate` has been issued. */
  ghost predicate Started(trace: seq<VendorCall>)
  {
    exists i :: 0 <= i < |trace| && trace[i].OnCreate?
  }

  /** No URL is forwarded to the SDK before `onCreate`. */
  ghost predicate UrlsAfterCreate(trace: seq<VendorCall>)
  {
    forall i :: 0 <= i < |trace| && trace[i].OpenUrl? ==> Started(trace[..i])
  }

  lemma StartedAppend(trace: seq<VendorCall>, c: VendorCall)
    ensures Started(trace + [c]) <==> Started(trace) || c.OnCreate?
  {
    var t := trace + [c];
    if Started(trace) {
      var i :| 0 <= i < |trace| && trace[i].OnCreate?;
      assert t[i] == trace[i];
    }
    if c.OnCreate? {
      assert t[|trace|] == c;
    }
    if Started(t) {
      var i :| 0 <= i < |t| && t[i].OnCreate?;
      if i < |trace| {
        assert trace[i] == t[i];
      }
    }
  }

  lemma UrlsAfterCreateAppend(trace: seq<VendorCall>, c: VendorCall)
    requires UrlsAfterCreate(trace)
    requires c.OpenUrl? ==> Started(trace)
    ensures UrlsAfterCreate(trace + [c])
  {
    var t := trace + [c];
    forall i | 0 <= i < |t| && t[i].OpenUrl?
      ensures Started(t[..i])
    {
      if i < |trace| {
        assert t[..i] == trace[..i];
        assert t[i] == trace[i];
      } else {
        assert t[..i] == trace;
      }
    }
  }

  /** Starting the SDK, with or without a replayed URL, keeps every URL after `onCreate`. */
  lemma StartKeepsOrder(trace: seq<VendorCall>, config: AdjustConfig, pending: Option<Url>)
    requires UrlsAfterCreate(trace)
    ensures Started(trace + [OnCreate(config), OnResume] + Replay(pending))
    ensures UrlsAfterCreate(trace + [OnCreate(config), OnResume] + Replay(pending))
  {
    StartedAppend(trace, OnCreate(config));
    UrlsAfterCreateAppend(trace, OnCreate(config));
    var t1 := trace + [OnCreate(config)];
    StartedAppend(t1, OnResume);
    UrlsAfterCreateAppend(t1, OnResume);
    var t2 := t1 + [OnResume];
    assert t2 == trace + [OnCreate(config), OnResume];
    if pending.Some? {
      StartedAppend(t2, OpenUrl(pending.value));
      UrlsAfterCreateAppend(t2, OpenUrl(pending.value));
      assert t2 + Replay(pending) == t2 + [OpenUrl(pending.value)];
    } else {
      assert t2 + Replay(pending) == t2;
    }
  }

  class LuaLoader {
    var attributionChangedListener: ListenerRef
    var eventTrackingSuccessListener: ListenerRef
    var eventTrackingFailureListener: ListenerRef
    var sessionTrackingSuccessListener: ListenerRef
    var sessionTrackingFailureListener: ListenerRef
    var deferredDeeplinkListener: ListenerRef

    var uri: Option<Url>
    var didStartAdjustSdk: bool
    var shouldLaunchDeeplink: bool

    /** The calls issued on the SDK, oldest first. */
    ghost var trace: seq<VendorCall>
    /** The references handed to `deleteRef`, oldest first. */
    ghost var released: seq<ListenerRef>

    /**
     * A URL waits only while the SDK has not started; the started flag
     * records exactly whether `onCreate` was issued; and no URL reaches
     * the SDK before `onCreate`.
     */
    ghost predicate Valid()
      reads this
    {
      && (didStartAdjustSdk ==> uri.None?)
      && (didStartAdjustSdk <==> Started(trace))
      && UrlsAfterCreate(trace)
    }

    constructor ()
      ensures Valid()
      ensures attributionChangedListener == RefNil && eventTrackingSuccessListener == RefNil
      ensures eventTrackingFailureListener == RefNil && sessionTrackingSuccessListener == RefNil
      ensures sessionTrackingFailureListener == RefNil && deferredDeeplinkListener == RefNil
      ensures uri.None? && !didStartAdjustSdk && shouldLaunchDeeplink
      ensures trace == [] && released == []
    {
      attributionChangedListener := RefNil;
      eventTrackingSuccessListener := RefNil;
      eventTrackingFailureListener := RefNil;
      sessionTrackingSuccessListener := RefNil;
      sessionTrackingFailureListener := RefNil;
      deferredDeeplinkListener := RefNil;
      uri := None;
      didStartAdjustSdk := false;
      shouldLaunchDeeplink := true;
      trace := [];
      released := [];
    }

    /** The callbacks `create` wires into the configuration: those whose listener is registered. */
    function Wired(): (w: set<Callback>)
      reads this
      ensures AttributionChanged in w <==> attributionChangedListener != RefNil
      ensures EventTrackingSucceeded in w <==> eventTrackingSuccessListener != RefNil
      ensures EventTrackingFailed in w <==> eventTrackingFailureListener != RefNil
      ensures SessionTrackingSucceeded in w <==> sessionTrackingSuccessListener != RefNil
      ensures SessionTrackingFailed in w <==> sessionTrackingFailureListener != RefNil
      ensures DeeplinkResponse in w <==> deferredDeeplinkListener != RefNil
    {
      (if attributionChangedListener != RefNil then {AttributionChanged} else {})
      + (if eventTrackingSuccessListener != RefNil then {EventTrackingSucceeded} else {})
      + (if eventTrackingFailureListener != RefNil then {EventTrackingFailed} else {})
      + (if sessionTrackingSuccessListener != RefNil then {SessionTrackingSucceeded} else {})
      + (if sessionTrackingFailureListener != RefNil then {SessionTrackingFailed} else {})
      + (if deferredDeeplinkListener != RefNil then {DeeplinkResponse} else {})
    }

    /**
     * `create`: builds the configuration, starts the SDK (onCreate, then
     * onResume), and replays the pending URL once.
     */
    method Create(arg: Option<CreateTable>) returns (res: CallResult)
      requires Valid()
      modifies this`uri, this`didStartAdjustSdk, this`shouldLaunchDeeplink, this`trace
      ensures Valid()
      ensures arg.None? ==> res == NotATable && unchanged(this)
      ensures arg.Some? && ConfigFor(arg.value, old(Wired())).Err? ==>
        res == LuaError(ConfigFor(arg.value, old(Wired())).field) && unchanged(this)
      ensures arg.Some? && ConfigFor(arg.value, old(Wired())).Ok? ==>
        && res == Done
        && didStartAdjustSdk
        && uri.None?
        && shouldLaunchDeeplink == GetOr(arg.value.shouldLaunchDeeplink, old(shouldLaunchDeeplink))
        && trace == old(trace) + [OnCreate(ConfigFor(arg.value, old(Wired())).value), OnResume] + Replay(old(uri))
    {
      if arg.None? {
        return NotATable;
      }
      var t := arg.value;
      var config := ConfigFor(t, Wired());
      if config.Err? {
        return LuaError(config.field);
      }
      if t.shouldLaunchDeeplink.Some? {
        shouldLaunchDeeplink := t.shouldLaunchDeeplink.value;
      }
      StartKeepsOrder(trace, config.value, uri);
      trace := trace + [OnCreate(config.value), OnResume] + Replay(uri);
      didStartAdjustSdk := true;
      uri := None;
      return Done;
    }

    /** `trackEvent`: builds the event and hands it to the SDK, whether or not the SDK has started. */
    method TrackEvent(arg: Option<EventTable>) returns (res: CallResult)
      requires Valid()
      modifies this`trace
      ensures Valid()
      ensures arg.None? ==> res == NotATable && trace == old(trace)
      ensures arg.Some? && EventFor(arg.value).Err? ==>
        res == LuaError(EventFor(arg.value).field) && trace == old(trace)
      ensures arg.Some? && EventFor(arg.value).Ok? ==>
        res == Done && trace == old(trace) + [Track(EventFor(arg.value).value)]
    {
      if arg.None? {
        return NotATable;
      }
      var t := arg.value;
      if t.eventToken.None? {
        return LuaError("eventToken");
      }
      var revenue := RevenueFor(t.revenue, t.currency);
      var callbackParameters: seq<Param> := [];
      if t.callbackParameters.Some? {
        var ok, bad;
        callbackParameters, ok, bad := CollectParameters(t.callbackParameters.value);
        if !ok {
          return LuaError("callbackParameters");
        }
      }
      var partnerParameters: seq<Param> := [];
      if t.partnerParameters.Some? {
        var ok, bad;
        partnerParameters, ok, bad := CollectParameters(t.partnerParameters.value);
        if !ok {
          return LuaError("partnerParameters");
        }
      }
      var event := AdjustEvent(t.eventToken.value, revenue, t.transactionId, callbackParameters, partnerParameters);
      StartedAppend(trace, Track(event));
      UrlsAfterCreateAppend(trace, Track(event));
      trace := trace + [Track(event)];
      return Done;
    }

    /**
     * `appWillOpenUrl`: forwarded at once when the SDK has started,
     * otherwise kept in the single pending slot, replacing any URL there.
     */
    method AppWillOpenUrl(arg: Option<Url>) returns (res: CallResult)
      requires Valid()
      modifies this`uri, this`trace
      ensures Valid()
      ensures arg.None? ==> res == LuaError("url") && unchanged(this)
      ensures arg.Some? && didStartAdjustSdk ==>
        res == Done && uri == old(uri) && trace == old(trace) + [OpenUrl(arg.value)]
      ensures arg.Some? && !didStartAdjustSdk ==>
        res == Done && uri == arg && trace == old(trace)
    {
      if arg.None? {
        return LuaError("url");
      }
      if didStartAdjustSdk {
        StartedAppend(trace, OpenUrl(arg.value));
        UrlsAfterCreateAppend(trace, OpenUrl(arg.value));
        trace := trace + [OpenUrl(arg.value)];
        return Done;
      }
      uri := arg;
      return Done;
    }

    // The six listener setters. `listener` is the handle `newRef` returned
    // when the argument is a listener, and `None` when it is not.

    method SetAttributionListener(listener: Option<nat>)
      requires Valid()
      modifies this`attributionChangedListener
      ensures Valid()
      ensures attributionChangedListener ==
        if listener.Some? then Ref(listener.value) else old(attributionChangedListener)
    {
      if listener.Some? {
        attributionChangedListener := Ref(listener.value);
      }
    }

    method SetEventTrackingSuccessListener(listener: Option<nat>)
      requires Valid()
      modifies this`eventTrackingSuccessListener
      ensures Valid()
      ensures eventTrackingSuccessListener ==
        if listener.Some? then Ref(listener.value) else old(eventTrackingSuccessListener)
    {
      if listener.Some? {
        eventTrackingSuccessListener := Ref(listener.value);
      }
    }

    method SetEventTrackingFailureListener(listener: Option<nat>)
      requires Valid()
      modifies this`eventTrackingFailureListener
      ensures Valid()
      ensures eventTrackingFailureListener ==
        if listener.Some? then Ref(listener.value) else old(eventTrackingFailureListener)
    {
      if listener.Some? {
        eventTrackingFailureListener := Ref(listener.value);
      }
    }

    method SetSessionTrackingSuccessListener(listener: Option<nat>)
      requires Valid()
      modifies this`sessionTrackingSuccessListener
      ensures Valid()
      ensures sessionTrackingSuccessListener ==
        if listener.Some? then Ref(listener.value) else old(sessionTrackingSuccessListener)
    {
      if listener.Some? {
        sessionTrackingSuccessListener := Ref(listener.value);
      }
    }

    method SetSessionTrackingFailureListener(listener: Option<nat>)
      requires Valid()
      modifies this`sessionTrackingFailureListener
      ensures Valid()
      ensures sessionTrackingFailureListener ==
        if listener.Some? then Ref(listener.value) else old(sessionTrackingFailureListener)
    {
      if listener.Some? {
        sessionTrackingFailureListener := Ref(listener.value);
      }
    }

    method SetDeferredDeeplinkListener(listener: Option<nat>)
      requires Valid()
      modifies this`deferredDeeplinkListener
      ensures Valid()
      ensures deferredDeeplinkListener ==
        if listener.Some? then Ref(listener.value) else old(deferredDeeplinkListener)
    {
      if listener.Some? {
        deferredDeeplinkListener := Ref(listener.value);
      }
    }

    /**
     * `onExiting`: releases all six references, registered or not, and
     * resets them to REFNIL. The started flag, the pending URL and the
     * deep-link flag are left as they are.
     */
    method OnExiting()
      requires Valid()
      modifies this`attributionChangedListener, this`eventTrackingSuccessListener,
               this`eventTrackingFailureListener, this`sessionTrackingSuccessListener,
               this`sessionTrackingFailureListener, this`deferredDeeplinkListener, this`released
      ensures Valid()
      ensures released == old(released) + [
        old(attributionChangedListener), old(sessionTrackingSuccessListener),
        old(sessionTrackingFailureListener), old(eventTrackingSuccessListener),
        old(eventTrackingFailureListener), old(deferredDeeplinkListener)]
      ensures attributionChangedListener == RefNil && eventTrackingSuccessListener == RefNil
      ensures eventTrackingFailureListener == RefNil && sessionTrackingSuccessListener == RefNil
      ensures sessionTrackingFailureListener == RefNil && deferredDeeplinkListener == RefNil
      ensures Wired() == {}
      ensures didStartAdjustSdk == old(didStartAdjustSdk) && uri == old(uri)
    {
      released := released + [
        attributionChangedListener, sessionTrackingSuccessListener, sessionTrackingFailureListener,
        eventTrackingSuccessListener, eventTrackingFailureListener, deferredDeeplinkListener];
      attributionChangedListener := RefNil;
      eventTrackingSuccessListener := RefNil;
      eventTrackingFailureListener := RefNil;
      sessionTrackingSuccessListener := RefNil;
      sessionTrackingFailureListener := RefNil;
      deferredDeeplinkListener := RefNil;
    }
  }

  /**
   * Two URLs opened before `create`: only the later one reaches the SDK,
   * once, right after onCreate and onResume.
   */
  method ReplayOnlyLatestUrl(t: CreateTable, first: Url, second: Url) returns (loader: LuaLoader)
    requires t.appToken.Some? && t.environment.Some?
    ensures loader.trace == [OnCreate(ConfigFor(t, {}).value), OnResume, OpenUrl(second)]
    ensures loader.uri.None? && loader.didStartAdjustSdk
  {
    loader := new LuaLoader();
    var r := loader.AppWillOpenUrl(Some(first));
    r := loader.AppWillOpenUrl(Some(second));
    assert loader.trace == [] && loader.uri == Some(second);
    assert loader.Wired() == {};
    r := loader.Create(Some(t));
  }

  /**
   * A runtime that exits and is created again: the second configuration
   * wires no callback, and since the started flag survives `onExiting`, a
   * URL opened afterwards is forwarded at once.
   */
  method RecreateAfterExit(t: CreateTable, handle: nat, url: Url) returns (loader: LuaLoader)
    requires t.appToken.Some? && t.environment.Some?
    ensures loader.trace == [
      OnCreate(ConfigFor(t, {AttributionChanged}).value), OnResume,
      OnCreate(ConfigFor(t, {}).value), OnResume,
      OpenUrl(url)]
    ensures loader.released == [Ref(handle), RefNil, RefNil, RefNil, RefNil, RefNil]
  {
    loader := new LuaLoader();
    loader.SetAttributionListener(Some(handle));
    assert loader.Wired() == {AttributionChanged};
    var r := loader.Create(Some(t));
    loader.OnExiting();
    r := loader.Create(Some(t));
    r := loader.AppWillOpenUrl(Some(url));
  }
}
