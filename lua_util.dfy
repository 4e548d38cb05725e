/**
 * The converters from the SDK's result records to the flat string map that
 * is serialised and delivered to a Lua listener. A missing record gives the
 * empty map; a present one gives its shape's fixed key set, with a null field
 * rendered as "" and a retry flag as "true" or "false".
 *
 * Each converter has a reader beside it that recovers the record from the
 * map; the round-trip lemmas say exactly what the map keeps: everything
 * except the difference between a null field and an empty one.
 */
module LuaUtil {
  import opened Optional

  /** `AdjustAttribution`; every field may be null. */
  datatype Attribution = Attribution(
    trackerToken: Option<string>, trackerName: Option<string>, network: Option<string>,
    campaign: Option<string>, adgroup: Option<string>, creative: Option<string>,
    clickLabel: Option<string>, adid: Option<string>)

  /** `AdjustEventSuccess`; `jsonResponse` is the text its JSON object renders to. */
  datatype EventSuccess = EventSuccess(
    message: Option<string>, timestamp: Option<string>, adid: Option<string>,
    eventToken: Option<string>, jsonResponse: Option<string>)

  /** `AdjustEventFailure`. */
  datatype EventFailure = EventFailure(
    message: Option<string>, timestamp: Option<string>, adid: Option<string>,
    eventToken: Option<string>, willRetry: bool, jsonResponse: Option<string>)

  /** `AdjustSessionSuccess`. */
  datatype SessionSuccess = SessionSuccess(
    message: Option<string>, timestamp: Option<string>, adid: Option<string>,
    jsonResponse: Option<string>)

  /** `AdjustSessionFailure`. */
  datatype SessionFailure = SessionFailure(
    message: Option<string>, timestamp: Option<string>, adid: Option<string>,
    willRetry: bool, jsonResponse: Option<string>)

  const AttributionKeys: set<string> :=
    {"trackerToken", "trackerName", "network", "campaign", "adgroup", "creative", "clickLabel", "adid"}
  const EventSuccessKeys: set<string> := {"message", "timestamp", "adid", "eventToken", "jsonResponse"}
  const EventFailureKeys: set<string> := EventSuccessKeys + {"willRetry"}
  const SessionSuccessKeys: set<string> := {"message", "timestamp", "adid", "jsonResponse"}
  const SessionFailureKeys: set<string> := SessionSuccessKeys + {"willRetry"}

  /** A field as the map stores it: null becomes the empty string. */
  function Text(field: Option<string>): string
  {
    GetOr(field, "")
  }

  /** A retry flag as the map stores it. */
  function FlagText(b: bool): string
  {
    if b then "true" else "false"
  }

  /** `m` holds `field` under `key`: its text when present, "" when null. */
  predicate Holds(m: map<string, string>, key: string, field: Option<string>)
  {
    key in m && (field.Some? ==> m[key] == field.value) && (field.None? ==> m[key] == "")
  }

  /** `m` holds a retry flag under "willRetry" as exactly "true" or "false". */
  predicate HoldsFlag(m: map<string, string>, flag: bool)
  {
    "willRetry" in m && (m["willRetry"] == "true" <==> flag) && (m["willRetry"] == "false" <==> !flag)
  }

  function AttributionToMap(attribution: Option<Attribution>): (m: map<string, string>)
    ensures attribution.None? ==> m == map[]
    ensures attribution.Some? ==> m.Keys == AttributionKeys
    ensures attribution.Some? ==>
      var a := attribution.value;
      Holds(m, "trackerToken", a.trackerToken) && Holds(m, "trackerName", a.trackerName) &&
      Holds(m, "network", a.network) && Holds(m, "campaign", a.campaign) &&
      Holds(m, "adgroup", a.adgroup) && Holds(m, "creative", a.creative) &&
      Holds(m, "clickLabel", a.clickLabel) && Holds(m, "adid", a.adid)
  {
    match attribution
    case None => map[]
    case Some(a) =>
      map["trackerToken" := Text(a.trackerToken), "trackerName" := Text(a.trackerName),
          "network" := Text(a.network), "campaign" := Text(a.campaign),
          "adgroup" := Text(a.adgroup), "creative" := Text(a.creative),
          "clickLabel" := Text(a.clickLabel), "adid" := Text(a.adid)]
  }

  function EventSuccessToMap(eventSuccess: Option<EventSuccess>): (m: map<string, string>)
    ensures eventSuccess.None? ==> m == map[]
    ensures eventSuccess.Some? ==> m.Keys == EventSuccessKeys
    ensures eventSuccess.Some? ==>
      var e := eventSuccess.value;
      Holds(m, "message", e.message) && Holds(m, "timestamp", e.timestamp) &&
      Holds(m, "adid", e.adid) && Holds(m, "eventToken", e.eventToken) &&
      Holds(m, "jsonResponse", e.jsonResponse)
  {
    match eventSuccess
    case None => map[]
    case Some(e) =>
      map["message" := Text(e.message), "timestamp" := Text(e.timestamp), "adid" := Text(e.adid),
          "eventToken" := Text(e.eventToken), "jsonResponse" := Text(e.jsonResponse)]
  }

  function EventFailureToMap(eventFailure: Option<EventFailure>): (m: map<string, string>)
    ensures eventFailure.None? ==> m == map[]
    ensures eventFailure.Some? ==> m.Keys == EventFailureKeys
    ensures eventFailure.Some? ==>
      var e := eventFailure.value;
      Holds(m, "message", e.message) && Holds(m, "timestamp", e.timestamp) &&
      Holds(m, "adid", e.adid) && Holds(m, "eventToken", e.eventToken) &&
      HoldsFlag(m, e.willRetry) && Holds(m, "jsonResponse", e.jsonResponse)
  {
    match eventFailure
    case None => map[]
    case Some(e) =>
      map["message" := Text(e.message), "timestamp" := Text(e.timestamp), "adid" := Text(e.adid),
          "eventToken" := Text(e.eventToken), "willRetry" := FlagText(e.willRetry),
          "jsonResponse" := Text(e.jsonResponse)]
  }

  function SessionSuccessToMap(sessionSuccess: Option<SessionSuccess>): (m: map<string, string>)
    ensures sessionSuccess.None? ==> m == map[]
    ensures sessionSuccess.Some? ==> m.Keys == SessionSuccessKeys
    ensures sessionSuccess.Some? ==>
      var s := sessionSuccess.value;
      Holds(m, "message", s.message) && Holds(m, "timestamp", s.timestamp) &&
      Holds(m, "adid", s.adid) && Holds(m, "jsonResponse", s.jsonResponse)
  {
    match sessionSuccess
    case None => map[]
    case Some(s) =>
      map["message" := Text(s.message), "timestamp" := Text(s.timestamp), "adid" := Text(s.adid),
          "jsonResponse" := Text(s.jsonResponse)]
  }

  function SessionFailureToMap(sessionFailure: Option<SessionFailure>): (m: map<string, string>)
    ensures sessionFailure.None? ==> m == map[]
    ensures sessionFailure.Some? ==> m.Keys == SessionFailureKeys
    ensures sessionFailure.Some? ==>
      var s := sessionFailure.value;
      Holds(m, "message", s.message) && Holds(m, "timestamp", s.timestamp) &&
      Holds(m, "adid", s.adid) && HoldsFlag(m, s.willRetry) && Holds(m, "jsonResponse", s.jsonResponse)
  {
    match sessionFailure
    case None => map[]
    case Some(s) =>
      map["message" := Text(s.message), "timestamp" := Text(s.timestamp), "adid" := Text(s.adid),
          "willRetry" := FlagText(s.willRetry), "jsonResponse" := Text(s.jsonResponse)]
  }

  /** `uri` is the text the deferred deep link renders to. */
  function DeferredDeeplinkToMap(uri: Option<string>): (m: map<string, string>)
    ensures uri.None? ==> m == map[]
    ensures uri.Some? ==> m.Keys == {"uri"} && m["uri"] == uri.value
  {
    match uri
    case None => map[]
    case Some(u) => map["uri" := u]
  }

  // Readers: recover a record from a converted map.

  /** The field stored under `key`, with "" read back as null. */
  function Field(m: map<string, string>, key: string): Option<string>
  {
    if key in m && m[key] != "" then Some(m[key]) else None
  }

  /** A field as the map preserves it: an empty string is indistinguishable from null. */
  function Blank(field: Option<string>): Option<string>
  {
    if field == Some("") then None else field
  }

  function AttributionFromMap(m: map<string, string>): Option<Attribution>
  {
    if "trackerToken" in m then
      Some(Attribution(Field(m, "trackerToken"), Field(m, "trackerName"), Field(m, "network"),
                       Field(m, "campaign"), Field(m, "adgroup"), Field(m, "creative"),
                       Field(m, "clickLabel"), Field(m, "adid")))
    else None
  }

  function EventSuccessFromMap(m: map<string, string>): Option<EventSuccess>
  {
    if "message" in m then
      Some(EventSuccess(Field(m, "message"), Field(m, "timestamp"), Field(m, "adid"),
                        Field(m, "eventToken"), Field(m, "jsonResponse")))
    else None
  }

  function EventFailureFromMap(m: map<string, string>): Option<EventFailure>
  {
    if "message" in m then
      Some(EventFailure(Field(m, "message"), Field(m, "timestamp"), Field(m, "adid"),
                        Field(m, "eventToken"), "willRetry" in m && m["willRetry"] == "true",
                        Field(m, "jsonResponse")))
    else None
  }

  function SessionSuccessFromMap(m: map<string, string>): Option<SessionSuccess>
  {
    if "message" in m then
      Some(SessionSuccess(Field(m, "message"), Field(m, "timestamp"), Field(m, "adid"),
                          Field(m, "jsonResponse")))
    else None
  }

  function SessionFailureFromMap(m: map<string, string>): Option<SessionFailure>
  {
    if "message" in m then
      Some(SessionFailure(Field(m, "message"), Field(m, "timestamp"), Field(m, "adid"),
                          "willRetry" in m && m["willRetry"] == "true", Field(m, "jsonResponse")))
    else None
  }

  function DeferredDeeplinkFromMap(m: map<string, string>): Option<string>
  {
    if "uri" in m then Some(m["uri"]) else None
  }

  // What each map keeps of its record.

  function BlankAttribution(attribution: Option<Attribution>): Option<Attribution>
  {
    match attribution
    case None => None
    case Some(a) =>
      Some(Attribution(Blank(a.trackerToken), Blank(a.trackerName), Blank(a.network),
                       Blank(a.campaign), Blank(a.adgroup), Blank(a.creative),
                       Blank(a.clickLabel), Blank(a.adid)))
  }

  function BlankEventSuccess(eventSuccess: Option<EventSuccess>): Option<EventSuccess>
  {
    match eventSuccess
    case None => None
    case Some(e) =>
      Some(EventSuccess(Blank(e.message), Blank(e.timestamp), Blank(e.adid),
                        Blank(e.eventToken), Blank(e.jsonResponse)))
  }

  function BlankEventFailure(eventFailure: Option<EventFailure>): Option<EventFailure>
  {
    match eventFailure
    case None => None
    case Some(e) =>
      Some(EventFailure(Blank(e.message), Blank(e.timestamp), Blank(e.adid),
                        Blank(e.eventToken), e.willRetry, Blank(e.jsonResponse)))
  }

  function BlankSessionSuccess(sessionSuccess: Option<SessionSuccess>): Option<SessionSuccess>
  {
    match sessionSuccess
    case None => None
    case Some(s) =>
      Some(SessionSuccess(Blank(s.message), Blank(s.timestamp), Blank(s.adid), Blank(s.jsonResponse)))
  }

  function BlankSessionFailure(sessionFailure: Option<SessionFailure>): Option<SessionFailure>
  {
    match sessionFailure
    case None => None
    case Some(s) =>
      Some(SessionFailure(Blank(s.message), Blank(s.timestamp), Blank(s.adid),
                          s.willRetry, Blank(s.jsonResponse)))
  }

  lemma AttributionRoundTrip(attribution: Option<Attribution>)
    ensures AttributionFromMap(AttributionToMap(attribution)) == BlankAttribution(attribution)
  {
  }

  lemma EventSuccessRoundTrip(eventSuccess: Option<EventSuccess>)
    ensures EventSuccessFromMap(EventSuccessToMap(eventSuccess)) == BlankEventSuccess(eventSuccess)
  {
  }

  lemma EventFailureRoundTrip(eventFailure: Option<EventFailure>)
    ensures EventFailureFromMap(EventFailureToMap(eventFailure)) == BlankEventFailure(eventFailure)
  {
  }

  lemma SessionSuccessRoundTrip(sessionSuccess: Option<SessionSuccess>)
    ensures SessionSuccessFromMap(SessionSuccessToMap(sessionSuccess)) == BlankSessionSuccess(sessionSuccess)
  {
  }

  lemma SessionFailureRoundTrip(sessionFailure: Option<SessionFailure>)
    ensures SessionFailureFromMap(SessionFailureToMap(sessionFailure)) == BlankSessionFailure(sessionFailure)
  {
  }

  lemma DeferredDeeplinkRoundTrip(uri: Option<string>)
    ensures DeferredDeeplinkFromMap(DeferredDeeplinkToMap(uri)) == uri
  {
  }

  /** A null attribution is told apart from every record, even one whose fields are all null. */
  lemma NullAttributionIsDistinct(a: Attribution)
    ensures AttributionToMap(None) != AttributionToMap(Some(a))
  {
  }

  /** The key sets have 8, 5, 6, 4 and 5 members: the two retry-flag shapes add one key each. */
  lemma KeyCounts()
    ensures |AttributionKeys| == 8
    ensures |EventSuccessKeys| == 5 && |EventFailureKeys| == 6
    ensures |SessionSuccessKeys| == 4 && |SessionFailureKeys| == 5
  {
  }
}
