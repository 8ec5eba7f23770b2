/** The extension's background process: the poller that drains the relay at
    most once per tick and fans the payload out to the receiving tabs, the
    handler that subscribes and unsubscribes tabs, and its two HTTP calls. */
module Background {
  import opened Common
  import Settings
  import RelayServer

  /** Display metadata of a receiving tab; a message without an entry is
      modelled as an entry whose fields are all absent. */
  datatype Entry = Entry(title: Option<string>, url: Option<string>, windowId: Option<int>)

  // ----- The two calls to the relay server -----

  datatype HttpRequest = HttpRequest(verb: string, url: string, headers: map<string, string>, body: Option<Payload>)

  function UploadRequest(settings: Settings.Settings, payload: Payload): (req: HttpRequest)
    ensures req.verb == "POST" && req.url == settings.serverUrl + "/upload" && req.body == Some(payload)
    ensures "Content-Type" in req.headers && req.headers["Content-Type"] == "application/json"
    ensures "X-Api-Key" in req.headers && req.headers["X-Api-Key"] == settings.apiKey
    // no header beyond the two auth headers
    ensures req.headers == Settings.BuildAuthHeaders(settings.apiKey)
  {
    HttpRequest("POST", settings.serverUrl + "/upload", Settings.BuildAuthHeaders(settings.apiKey), Some(payload))
  }

  function FetchRequest(settings: Settings.Settings): (req: HttpRequest)
    ensures req.verb == "GET" && req.url == settings.serverUrl + "/fetch" && req.body == None
    ensures "Content-Type" in req.headers && req.headers["Content-Type"] == "application/json"
    ensures "X-Api-Key" in req.headers && req.headers["X-Api-Key"] == settings.apiKey
    // no header beyond the two auth headers
    ensures req.headers == Settings.BuildAuthHeaders(settings.apiKey)
  {
    HttpRequest("GET", settings.serverUrl + "/fetch", Settings.BuildAuthHeaders(settings.apiKey), None)
  }

  /** The JSON body `/fetch` answers with: `found` and the payload, if any. */
  datatype FetchData = FetchData(found: bool, payload: Option<Payload>)

  /** What the network gives back for one request: either the call rejects, or a
      response with its status, its text, and its JSON reading (None when it does
      not parse). */
  datatype HttpReply =
    | TransportFailure
    | HttpResponse(status: int, text: string, json: Option<FetchData>)

  datatype Operation = UploadOp | FetchOp

  datatype ClientError =
    | Transport                                                  // the request itself rejected
    | StatusError(op: Operation, status: int, message: string)   // "Upload failed (status): message"
    | BodyNotJson                                                // the success body did not parse

  /** `Response.ok`: the status is in the 2xx range. */
  predicate ResponseOk(status: int) {
    200 <= status <= 299
  }

  datatype UploadResult = Uploaded | UploadFailed(error: ClientError)
  datatype FetchResult = Fetched(data: FetchData) | FetchFailed(error: ClientError)

  /** The outcome of `uploadPayload` once the server has answered. */
  function UploadPayload(reply: HttpReply): (r: UploadResult)
    ensures r.Uploaded? <==> reply.HttpResponse? && ResponseOk(reply.status)
    // a non-ok status becomes an error that carries the status code and the body text
    ensures reply.HttpResponse? && !ResponseOk(reply.status) ==>
      r == UploadFailed(StatusError(UploadOp, reply.status, reply.text))
  {
    match reply
    case TransportFailure => UploadFailed(Transport)
    case HttpResponse(status, text, _) =>
      if !ResponseOk(status) then UploadFailed(StatusError(UploadOp, status, text)) else Uploaded
  }

  /** The outcome of `fetchPayload` once the server has answered. */
  function FetchPayload(reply: HttpReply): (r: FetchResult)
    ensures r.Fetched? <==> reply.HttpResponse? && ResponseOk(reply.status) && reply.json.Some?
    ensures r.Fetched? ==> r.data == reply.json.value
    // a non-ok status becomes an error that carries the status code and the body text
    ensures reply.HttpResponse? && !ResponseOk(reply.status) ==>
      r == FetchFailed(StatusError(FetchOp, reply.status, reply.text))
  {
    match reply
    case TransportFailure => FetchFailed(Transport)
    case HttpResponse(status, text, json) =>
      if !ResponseOk(status) then FetchFailed(StatusError(FetchOp, status, text))
      else if json.None? then FetchFailed(BodyNotJson)
      else Fetched(json.value)
  }

  /** How a relay server response reaches the extension; `text` is the body as
      text (the JSON rendering is not part of this model). */
  function ServerAnswer(resp: RelayServer.Response, text: string): HttpReply {
    HttpResponse(resp.status, text,
      match resp.body
      case Found(p) => Some(FetchData(true, Some(p)))
      case PlainText(_) => None
      case _ => Some(FetchData(false, None)))
  }

  // ----- How `fetch` carries a header value -----

  /** The characters `fetch` strips from both ends of a header value. */
  predicate HttpWhitespace(c: char) {
    c == ' ' || c == '\t' || c == '\n' || c == '\r'
  }

  function TrimLeading(s: string): (r: string)
    ensures |r| <= |s| && r == s[|s| - |r|..]
    ensures r == [] || !HttpWhitespace(r[0])
    ensures forall i :: 0 <= i < |s| - |r| ==> HttpWhitespace(s[i])
  {
    if s != [] && HttpWhitespace(s[0]) then TrimLeading(s[1..]) else s
  }

  function TrimTrailing(s: string): (r: string)
    ensures |r| <= |s| && r == s[..|r|]
    ensures r == [] || !HttpWhitespace(r[|r| - 1])
    ensures forall i :: |r| <= i < |s| ==> HttpWhitespace(s[i])
  {
    if s != [] && HttpWhitespace(s[|s| - 1]) then TrimTrailing(s[..|s| - 1]) else s
  }

  /** A character `fetch` refuses inside a header value once it is trimmed:
      NUL, CR and LF, and anything that is not a single byte (above U+00FF). */
  predicate ForbiddenInHeader(c: char) {
    c == '\0' || c == '\n' || c == '\r' || c as int > 0xFF
  }

  predicate HoldsForbidden(value: string) {
    exists i :: 0 <= i < |value| && ForbiddenInHeader(value[i])
  }

  /** The value a header set by the extension has when it reaches the relay:
      `fetch` trims surrounding whitespace and rejects (the request never
      leaves) a value holding a forbidden character. */
  function HeaderOnWire(value: string): (r: Option<string>)
    ensures r.None? <==> HoldsForbidden(TrimTrailing(TrimLeading(value)))
    // what arrives is the value less its surrounding whitespace
    ensures r.Some? ==> r.value == TrimTrailing(TrimLeading(value))
    ensures r.Some? && r.value != [] ==> !HttpWhitespace(r.value[0]) && !HttpWhitespace(r.value[|r.value| - 1])
  {
    var t := TrimTrailing(TrimLeading(value));
    if HoldsForbidden(t) then None else Some(t)
  }

  /** A value with no surrounding whitespace and no forbidden character
      arrives unchanged. */
  lemma CleanHeaderArrivesUnchanged(value: string)
    requires value == [] || (!HttpWhitespace(value[0]) && !HttpWhitespace(value[|value| - 1]))
    requires forall i :: 0 <= i < |value| ==> !ForbiddenInHeader(value[i])
    ensures HeaderOnWire(value) == Some(value)
  {
  }

  /** A trailing space is lost on the way: a key saved as "k " arrives as "k". */
  lemma TrailingSpaceIsDropped(value: string)
    requires value != [] && !HttpWhitespace(value[0]) && !HttpWhitespace(value[|value| - 1])
    requires forall i :: 0 <= i < |value| ==> !ForbiddenInHeader(value[i])
    ensures HeaderOnWire(value + " ") == Some(value)
  {
    var s := value + " ";
    assert s[..|s| - 1] == value;
    assert TrimLeading(s) == s;
    assert TrimTrailing(s) == TrimTrailing(value) == value;
  }

  /** A value holding a character above U+00FF is refused, wherever it sits:
      trimming removes only whitespace. */
  lemma WideCharacterIsRefused(value: string, i: int)
    requires 0 <= i < |value| && value[i] as int > 0xFF
    ensures HeaderOnWire(value) == None
  {
    var t1 := TrimLeading(value);
    var j := i - (|value| - |t1|);
    assert !HttpWhitespace(value[i]);
    assert 0 <= j < |t1| && t1[j] == value[i];
    var t2 := TrimTrailing(t1);
    assert j < |t2| && t2[j] == value[i];
  }

  /** The fetch of `fetchPayload` sent from the extension's settings and
      answered by the relay server: the new slot and what `fetchPayload`
      makes of the answer. */
  function FetchRoundTrip(settings: Settings.Settings, serverKey: Option<string>, slot: Option<Payload>, text: string):
    (r: (Option<Payload>, FetchResult))
    // a key `fetch` refuses never leaves the extension, and the slot is kept
    ensures HeaderOnWire(settings.apiKey).None? ==> r == (slot, FetchFailed(Transport))
  {
    match HeaderOnWire(FetchRequest(settings).headers["X-Api-Key"])
    case None => (slot, FetchPayload(TransportFailure))
    case Some(sent) =>
      var (next, resp) := RelayServer.FetchStep(slot, serverKey, Some(sent));
      (next, FetchPayload(ServerAnswer(resp, text)))
  }

  /** The round trip drains the slot exactly when the key, as it arrives, is
      not empty and equals the relay's key; a key that arrives but does not
      match fails with status 401 and leaves the slot alone. */
  lemma FetchThroughRelay(settings: Settings.Settings, serverKey: Option<string>, slot: Option<Payload>, text: string)
    ensures var r := FetchRoundTrip(settings, serverKey, slot, text);
      match HeaderOnWire(settings.apiKey)
      case None => r == (slot, FetchFailed(Transport))
      case Some(sent) =>
        if sent != "" && serverKey == Some(sent) then r == (None, Fetched(FetchData(slot.Some?, slot)))
        else r == (slot, FetchFailed(StatusError(FetchOp, 401, text)))
  {
    assert FetchRequest(settings).headers["X-Api-Key"] == settings.apiKey;
    match HeaderOnWire(settings.apiKey)
    case None =>
    case Some(sent) =>
      var step := RelayServer.FetchStep(slot, serverKey, Some(sent));
      assert FetchRoundTrip(settings, serverKey, slot, text) == (step.0, FetchPayload(ServerAnswer(step.1, text)));
      if sent != "" && serverKey == Some(sent) {
        assert RelayServer.IsAuthorized(serverKey, Some(sent));
        assert step.0 == None && step.1.status == 200;
      } else {
        assert !RelayServer.IsAuthorized(serverKey, Some(sent));
        assert step == (slot, RelayServer.Unauthorized);
      }
  }

  /** A key holding a character above U+00FF never reaches the relay, even
      when the relay is configured with the very same key. */
  lemma WideKeyNeverDrains(settings: Settings.Settings, slot: Option<Payload>, text: string, i: int)
    requires 0 <= i < |settings.apiKey| && settings.apiKey[i] as int > 0xFF
    ensures FetchRoundTrip(settings, Some(settings.apiKey), slot, text) == (slot, FetchFailed(Transport))
  {
    WideCharacterIsRefused(settings.apiKey, i);
  }

  /** A key saved with a trailing space still drains a relay configured with
      the key without it. */
  lemma TrailingSpaceKeyStillDrains(settings: Settings.Settings, slot: Option<Payload>, text: string)
    requires settings.apiKey != [] && settings.apiKey[|settings.apiKey| - 1] == ' '
    requires var k := settings.apiKey[..|settings.apiKey| - 1];
      k != [] && !HttpWhitespace(k[0]) && !HttpWhitespace(k[|k| - 1]) &&
      forall i :: 0 <= i < |k| ==> !ForbiddenInHeader(k[i])
    ensures FetchRoundTrip(settings, Some(settings.apiKey[..|settings.apiKey| - 1]), slot, text) ==
      (None, Fetched(FetchData(slot.Some?, slot)))
  {
    var k := settings.apiKey[..|settings.apiKey| - 1];
    assert settings.apiKey == k + " ";
    TrailingSpaceIsDropped(k);
    FetchThroughRelay(settings, Some(k), slot, text);
  }

  // ----- Tab ids in the order the registry lists them -----

  lemma {:induction false} MinimumExists(ids: set<int>)
    requires ids != {}
    ensures exists m :: IsLeast(m, ids)
    decreases |ids|
  {
    var x := PickOne(ids);
    var rest := ids - {x};
    if rest == {} {
      assert ids == {x};
      assert IsLeast(x, ids);
    } else {
      MinimumExists(rest);
      var m :| IsLeast(m, rest);
      var least := if x < m then x else m;
      forall y | y in ids
        ensures least <= y
      {
        if y != x {
          assert y in rest;
        }
      }
      assert IsLeast(least, ids);
    }
  }

  lemma PickOne(ids: set<int>) returns (x: int)
    requires ids != {}
    ensures x in ids
  {
    if forall y :: y !in ids {
      assert false;
    }
    x :| x in ids;
  }

  /** The tab ids of a registry snapshot, ascending (the order in which the
      entries of an object with integer keys are listed). */
  function SortedIds(ids: set<int>): (r: seq<int>)
    ensures |r| == |ids|
    ensures forall i :: 0 <= i < |r| ==> r[i] in ids
    ensures forall x :: x in ids ==> x in r
    ensures forall i, j :: 0 <= i < j < |r| ==> r[i] < r[j]
    decreases |ids|
  {
    if ids == {} then []
    else
      MinimumExists(ids);
      var m :| IsLeast(m, ids);
      assert |ids - {m}| == |ids| - 1;
      SortedIdsCons(ids, m, SortedIds(ids - {m}))
  }

  predicate IsLeast(m: int, ids: set<int>) {
    m in ids && forall y :: y in ids ==> m <= y
  }

  /** Putting the least id in front of the sorted others. */
  function SortedIdsCons(ids: set<int>, m: int, rest: seq<int>): (r: seq<int>)
    requires IsLeast(m, ids)
    requires |rest| == |ids - {m}|
    requires forall i :: 0 <= i < |rest| ==> rest[i] in ids - {m}
    requires forall x :: x in ids - {m} ==> x in rest
    requires forall i, j :: 0 <= i < j < |rest| ==> rest[i] < rest[j]
    ensures |r| == |ids|
    ensures forall i :: 0 <= i < |r| ==> r[i] in ids
    ensures forall x :: x in ids ==> x in r
    ensures forall i, j :: 0 <= i < j < |r| ==> r[i] < r[j]
  {
    assert |ids - {m}| == |ids| - 1;
    var r := [m] + rest;
    assert forall x :: x in ids ==> x == m || x in ids - {m};
    assert forall i :: 1 <= i < |r| ==> r[i] == rest[i - 1];
    r
  }

  predicate Distinct(s: seq<int>) {
    forall i, j :: 0 <= i < j < |s| ==> s[i] != s[j]
  }

  // ----- Fan-out -----

  /** One `chrome.tabs.sendMessage` of the payload to a tab, and whether it
      resolved (a rejection is caught and logged). */
  datatype SendAttempt = SendAttempt(tabId: int, payload: Payload, delivered: bool)

  /** `broadcastPayload`: one send per listed tab; the sends to the tabs in
      `failing` reject. */
  function Fanout(payload: Payload, tabIds: seq<int>, failing: set<int>): (r: seq<SendAttempt>)
    ensures |r| == |tabIds|
    ensures forall i :: 0 <= i < |r| ==> r[i] == SendAttempt(tabIds[i], payload, tabIds[i] !in failing)
    decreases |tabIds|
  {
    if tabIds == [] then []
    else [SendAttempt(tabIds[0], payload, tabIds[0] !in failing)] + Fanout(payload, tabIds[1..], failing)
  }

  /** The number of sends addressed to `tabId`. */
  function SendsTo(sends: seq<SendAttempt>, tabId: int): nat
    decreases |sends|
  {
    if sends == [] then 0
    else (if sends[0].tabId == tabId then 1 else 0) + SendsTo(sends[1..], tabId)
  }

  /** The tabs a sequence of sends reached. */
  function DeliveredTo(sends: seq<SendAttempt>): set<int> {
    set i | 0 <= i < |sends| && sends[i].delivered :: sends[i].tabId
  }

  /** Fan-out to distinct tabs sends to every listed tab exactly once and to no
      other tab, and a failure reaches only the tab it belongs to: the tabs the
      payload reaches are exactly the listed ones whose send does not fail. */
  lemma {:induction false} FanoutReachesEachTabOnce(payload: Payload, tabIds: seq<int>, failing: set<int>, t: int)
    requires Distinct(tabIds)
    ensures SendsTo(Fanout(payload, tabIds, failing), t) == (if t in tabIds then 1 else 0)
    ensures t in DeliveredTo(Fanout(payload, tabIds, failing)) <==> t in tabIds && t !in failing
    decreases |tabIds|
  {
    if tabIds != [] {
      var first := SendAttempt(tabIds[0], payload, tabIds[0] !in failing);
      var rest := Fanout(payload, tabIds[1..], failing);
      assert Fanout(payload, tabIds, failing) == [first] + rest;
      assert Distinct(tabIds[1..]);
      FanoutReachesEachTabOnce(payload, tabIds[1..], failing, t);
      SendsToCons(first, rest, t);
      DeliveredToCons(first, rest);
      assert t in tabIds <==> t == tabIds[0] || t in tabIds[1..];
      assert tabIds[0] !in tabIds[1..];
    }
  }

  lemma SendsToCons(a: SendAttempt, rest: seq<SendAttempt>, t: int)
    ensures SendsTo([a] + rest, t) == (if a.tabId == t then 1 else 0) + SendsTo(rest, t)
  {
    assert ([a] + rest)[1..] == rest;
  }

  lemma DeliveredToCons(a: SendAttempt, rest: seq<SendAttempt>)
    ensures DeliveredTo([a] + rest) == (if a.delivered then {a.tabId} else {}) + DeliveredTo(rest)
  {
    var all := [a] + rest;
    forall t | t in DeliveredTo(all)
      ensures t in (if a.delivered then {a.tabId} else {}) + DeliveredTo(rest)
    {
      var i :| 0 <= i < |all| && all[i].delivered && all[i].tabId == t;
      if i > 0 {
        assert rest[i - 1] == all[i];
      }
    }
    forall t | t in DeliveredTo(rest)
      ensures t in DeliveredTo(all)
    {
      var i :| 0 <= i < |rest| && rest[i].delivered && rest[i].tabId == t;
      assert all[i + 1] == rest[i];
    }
    if a.delivered {
      assert all[0] == a;
    }
  }

  /** The fan-out loop: one send per tab id, a failing send does not stop the
      sends after it. */
  method BroadcastPayload(payload: Payload, tabIds: seq<int>, failing: set<int>) returns (attempts: seq<SendAttempt>)
    ensures attempts == Fanout(payload, tabIds, failing)
  {
    attempts := [];
    for k := 0 to |tabIds|
      invariant |attempts| == k
      invariant forall i :: 0 <= i < k ==> attempts[i] == SendAttempt(tabIds[i], payload, tabIds[i] !in failing)
    {
      var delivered := tabIds[k] !in failing;
      attempts := attempts + [SendAttempt(tabIds[k], payload, delivered)];
    }
  }

  // ----- The coordinator's state and its transitions -----

  /** The coordinator's state: the receiving-tab registry (kept in extension
      storage), the reentrancy flag, the last registry size seen, the tab ids
      snapshot of the tick whose fetch is outstanding, counters of fetches
      issued and settled, and every send made so far. */
  datatype CoordState = CoordState(
    registry: map<int, Entry>,
    isFetching: bool,
    lastReceivingCount: nat,
    inFlight: Option<seq<int>>,
    fetchesIssued: nat,
    fetchesSettled: nat,
    sends: seq<SendAttempt>)

  const Initial := CoordState(map[], false, 0, None, 0, 0, [])

  /** The flag is up exactly while one fetch is outstanding, and that fetch
      carries a non-empty snapshot of distinct tab ids. */
  predicate Consistent(s: CoordState) {
    && (s.isFetching <==> s.inFlight.Some?)
    && s.fetchesIssued == s.fetchesSettled + (if s.isFetching then 1 else 0)
    && (s.inFlight.Some? ==> |s.inFlight.value| > 0 && Distinct(s.inFlight.value))
  }

  datatype TickOutcome = Skipped | RegistryUnreadable | NoReceivers | FetchIssued(tabIds: seq<int>)

  /** A tick of `pollAndBroadcast` up to the point where it awaits the fetch. */
  function TickStep(s: CoordState, registryReadable: bool): (r: (CoordState, TickOutcome))
    // a tick while a fetch is outstanding is a no-op
    ensures s.isFetching ==> r == (s, Skipped)
    // a registry that cannot be read is caught: nothing changes
    ensures !s.isFetching && !registryReadable ==> r == (s, RegistryUnreadable)
    // with no receiving tab: no fetch, the count drops to 0, the flag is down again
    ensures !s.isFetching && registryReadable && s.registry == map[] ==>
      r == (s.(lastReceivingCount := 0), NoReceivers)
    // otherwise exactly one fetch, remembering the tab ids read at the start of the tick
    ensures !s.isFetching && registryReadable && s.registry != map[] ==>
      && r.0.inFlight.Some? && r.1 == FetchIssued(r.0.inFlight.value)
      && r.0 == s.(isFetching := true, lastReceivingCount := |s.registry|,
                   inFlight := r.0.inFlight, fetchesIssued := s.fetchesIssued + 1)
      && (forall t :: t in s.registry <==> t in r.0.inFlight.value)
    // a tick never sends and never writes the registry
    ensures r.0.sends == s.sends && r.0.registry == s.registry
    ensures Consistent(s) ==> Consistent(r.0)
  {
    if s.isFetching then (s, Skipped)
    else if !registryReadable then (s, RegistryUnreadable)
    else if |s.registry| == 0 then (s.(lastReceivingCount := 0), NoReceivers)
    else
      var ids := SortedIds(s.registry.Keys);
      assert s.registry.Keys != {};
      (s.(isFetching := true, lastReceivingCount := |s.registry|, inFlight := Some(ids),
          fetchesIssued := s.fetchesIssued + 1), FetchIssued(ids))
  }

  /** A fetch result that carries a payload to broadcast. */
  predicate DeliversPayload(result: FetchResult) {
    result.Fetched? && result.data.found && result.data.payload.Some?
  }

  datatype SettleOutcome =
    | NothingInFlight
    | FetchError(error: ClientError)
    | NoPayload
    | Broadcast(payload: Payload, attempts: seq<SendAttempt>)

  /** The rest of the tick, once the outstanding fetch has answered. */
  function SettleStep(s: CoordState, reply: HttpReply, failing: set<int>): (r: (CoordState, SettleOutcome))
    ensures !s.isFetching || s.inFlight.None? ==> r == (s, NothingInFlight)
    // the flag goes down on every path: payload, no payload, or error
    ensures s.isFetching && s.inFlight.Some? ==>
      !r.0.isFetching && r.0.inFlight == None && r.0.fetchesSettled == s.fetchesSettled + 1
    // a found payload goes to every tab of the snapshot taken when the fetch was
    // issued, whatever the registry holds now; otherwise nothing is sent
    ensures s.isFetching && s.inFlight.Some? && DeliversPayload(FetchPayload(reply)) ==>
      r.0.sends == s.sends + Fanout(FetchPayload(reply).data.payload.value, s.inFlight.value, failing)
    ensures !(s.isFetching && s.inFlight.Some? && DeliversPayload(FetchPayload(reply))) ==> r.0.sends == s.sends
    ensures r.0.registry == s.registry && r.0.lastReceivingCount == s.lastReceivingCount
    ensures r.0.fetchesIssued == s.fetchesIssued
    ensures Consistent(s) ==> Consistent(r.0)
  {
    if !s.isFetching || s.inFlight.None? then (s, NothingInFlight)
    else
      var done := s.(isFetching := false, inFlight := None, fetchesSettled := s.fetchesSettled + 1);
      match FetchPayload(reply)
      case FetchFailed(e) => (done, FetchError(e))
      case Fetched(data) =>
        if data.found && data.payload.Some? then
          var attempts := Fanout(data.payload.value, s.inFlight.value, failing);
          (done.(sends := s.sends + attempts), Broadcast(data.payload.value, attempts))
        else
          (done, NoPayload)
  }

  /** `{ok, error}` as answered to a runtime message. */
  datatype Reply = Reply(ok: bool, error: Option<string>)

  /** The tab id of a subscription request: the sender's tab, else the one named
      in the message. */
  function RequestTabId(senderTabId: Option<int>, messageTabId: Option<int>): Option<int> {
    if senderTabId.Some? then senderTabId else messageTabId
  }

  /** The `CMD_SET_RECEIVING` handler. `urlSupported` is what
      `isSupportedServiceUrl` answers for the entry's URL; `writeError` is the
      error of the registry write, if it rejects. A successful write adds or replaces the tab's entry
      when enabling and removes the tab when disabling. */
  function SetReceivingStep(s: CoordState, senderTabId: Option<int>, messageTabId: Option<int>, enabled: bool,
                            entry: Entry, urlSupported: bool, writeError: Option<string>): (r: (CoordState, Reply))
    // a request without a tab id, or enabling an unsupported page, is refused
    // before the registry is touched
    ensures RequestTabId(senderTabId, messageTabId).None? ==> r == (s, Reply(false, Some("No tabId provided")))
    ensures RequestTabId(senderTabId, messageTabId).Some? && enabled && !urlSupported ==>
      r == (s, Reply(false, Some("Unsupported page for receiver")))
    // every refusal or failed write leaves the state as it was
    ensures !r.1.ok ==> r.0 == s
    ensures r.1.ok ==>
      && RequestTabId(senderTabId, messageTabId).Some? && writeError.None?
      && (enabled ==> urlSupported)
      && var id := RequestTabId(senderTabId, messageTabId).value;
         r.0 == s.(registry := if enabled then s.registry[id := entry] else s.registry - {id})
    // a valid request is answered ok once the write succeeds, and a failed
    // write is answered with its error
    ensures RequestTabId(senderTabId, messageTabId).Some? && (enabled ==> urlSupported) && writeError.None? ==>
      r.1 == Reply(true, None)
    ensures RequestTabId(senderTabId, messageTabId).Some? && (enabled ==> urlSupported) && writeError.Some? ==>
      r == (s, Reply(false, writeError))
    ensures Consistent(s) ==> Consistent(r.0)
  {
    var tabId := RequestTabId(senderTabId, messageTabId);
    if tabId.None? then (s, Reply(false, Some("No tabId provided")))
    else if enabled && !urlSupported then (s, Reply(false, Some("Unsupported page for receiver")))
    else if writeError.Some? then (s, Reply(false, writeError))
    else
      var registry := if enabled then s.registry[tabId.value := entry] else s.registry - {tabId.value};
      (s.(registry := registry), Reply(true, None))
  }

  /** A closed tab leaves the registry; when the storage write fails (the
      rejection is not handled) the registry is as it was. */
  function TabRemovedStep(s: CoordState, tabId: int, writeFails: bool): (r: CoordState)
    ensures !writeFails ==> tabId !in r.registry && r.registry.Keys == s.registry.Keys - {tabId}
    ensures !writeFails ==> forall id :: id in r.registry ==> r.registry[id] == s.registry[id]
    ensures writeFails ==> r == s
    ensures r == s.(registry := r.registry)
  {
    if writeFails then s else s.(registry := s.registry - {tabId})
  }

  // ----- The coordinator as the background process holds it -----

  /** The background process's module-level `isFetching` and
      `lastReceivingCount`, the registry it reads and writes, and the snapshot
      of the tick whose fetch is outstanding. The counters and the log of sends
      are ghost instrumentation for stating properties of runs. */
  class Coordinator {
    var registry: map<int, Entry>
    var isFetching: bool
    var lastReceivingCount: nat
    var inFlight: Option<seq<int>>
    ghost var fetchesIssued: nat
    ghost var fetchesSettled: nat
    ghost var sends: seq<SendAttempt>

    ghost function State(): CoordState
      reads this
    {
      CoordState(registry, isFetching, lastReceivingCount, inFlight, fetchesIssued, fetchesSettled, sends)
    }

    /** The background process starts with whatever the registry already holds. */
    constructor (registry: map<int, Entry>)
      ensures State() == Initial.(registry := registry) && Consistent(State())
    {
      this.registry := registry;
      isFetching := false;
      lastReceivingCount := 0;
      inFlight := None;
      fetchesIssued := 0;
      fetchesSettled := 0;
      sends := [];
    }

    /** `pollAndBroadcast` up to the awaited fetch. */
    method Tick(registryReadable: bool) returns (outcome: TickOutcome)
      modifies this
      ensures (State(), outcome) == TickStep(old(State()), registryReadable)
    {
      if isFetching {
        return Skipped;
      }
      isFetching := true;
      if !registryReadable {
        isFetching := false;
        return RegistryUnreadable;
      }
      var receivingTabs := registry;
      var currentCount := |receivingTabs|;
      if currentCount == 0 {
        lastReceivingCount := 0;
        isFetching := false;
        return NoReceivers;
      }
      var tabIds := SortedIds(receivingTabs.Keys);
      IssueFetch(currentCount, tabIds);
      outcome := FetchIssued(tabIds);
    }

    /** Recording the registry size and issuing the fetch for the tabs `tabIds`. */
    method IssueFetch(count: nat, tabIds: seq<int>)
      modifies this
      ensures State() == old(State()).(lastReceivingCount := count, inFlight := Some(tabIds),
                                      fetchesIssued := old(fetchesIssued) + 1)
    {
      lastReceivingCount := count;
      inFlight := Some(tabIds);
      fetchesIssued := fetchesIssued + 1;
    }

    /** `pollAndBroadcast` from the answer of the fetch to its end. */
    method SettleFetch(reply: HttpReply, failing: set<int>) returns (outcome: SettleOutcome)
      modifies this
      ensures (State(), outcome) == SettleStep(old(State()), reply, failing)
    {
      if !isFetching || inFlight.None? {
        return NothingInFlight;
      }
      var tabIds := inFlight.value;
      var result := FetchPayload(reply);
      if result.FetchFailed? {
        outcome := FetchError(result.error);
      } else if result.data.found && result.data.payload.Some? {
        var attempts := BroadcastPayload(result.data.payload.value, tabIds, failing);
        sends := sends + attempts;
        outcome := Broadcast(result.data.payload.value, attempts);
      } else {
        outcome := NoPayload;
      }
      inFlight := None;
      fetchesSettled := fetchesSettled + 1;
      isFetching := false;
    }

    method SetReceiving(senderTabId: Option<int>, messageTabId: Option<int>, enabled: bool, entry: Entry,
                        urlSupported: bool, writeError: Option<string>)
      returns (reply: Reply)
      modifies this
      ensures (State(), reply) ==
        SetReceivingStep(old(State()), senderTabId, messageTabId, enabled, entry, urlSupported, writeError)
    {
      var tabId := RequestTabId(senderTabId, messageTabId);
      if tabId.None? {
        return Reply(false, Some("No tabId provided"));
      }
      if enabled && !urlSupported {
        return Reply(false, Some("Unsupported page for receiver"));
      }
      if writeError.Some? {
        return Reply(false, writeError);
      }
      if enabled {
        registry := registry[tabId.value := entry];
      } else {
        registry := registry - {tabId.value};
      }
      reply := Reply(true, None);
    }

    method TabRemoved(tabId: int, writeFails: bool)
      modifies this
      ensures State() == TabRemovedStep(old(State()), tabId, writeFails)
    {
      if !writeFails {
        registry := registry - {tabId};
      }
    }
  }

  // ----- Runs of events -----

  datatype Event =
    | TickEvent(registryReadable: bool)
    | FetchSettled(reply: HttpReply, failing: set<int>)
    | SetReceivingMessage(senderTabId: Option<int>, messageTabId: Option<int>, enabled: bool, entry: Entry,
                          urlSupported: bool, writeError: Option<string>)
    | TabClosed(tabId: int, writeFails: bool)

  function Step(s: CoordState, e: Event): (r: CoordState)
    ensures Consistent(s) ==> Consistent(r)
  {
    match e
    case TickEvent(readable) => TickStep(s, readable).0
    case FetchSettled(reply, failing) => SettleStep(s, reply, failing).0
    case SetReceivingMessage(sender, message, enabled, entry, supported, writeError) =>
      SetReceivingStep(s, sender, message, enabled, entry, supported, writeError).0
    case TabClosed(tabId, writeFails) => TabRemovedStep(s, tabId, writeFails)
  }

  function Run(s: CoordState, events: seq<Event>): CoordState
    decreases |events|
  {
    if events == [] then s else Run(Step(s, events[0]), events[1..])
  }

  /** At most one of the poller's fetches is ever outstanding: from a
      consistent state, whatever interleaving of ticks, answers and subscription
      changes follows, the fetches issued exceed those settled by at most one,
      and by one exactly while the flag is up. */
  lemma {:induction false} AtMostOneFetchInFlight(s: CoordState, events: seq<Event>)
    requires Consistent(s)
    ensures Consistent(Run(s, events))
    ensures Run(s, events).fetchesIssued <= Run(s, events).fetchesSettled + 1
    decreases |events|
  {
    if events != [] {
      AtMostOneFetchInFlight(Step(s, events[0]), events[1..]);
    }
  }

  predicate AllTicks(events: seq<Event>) {
    forall i :: 0 <= i < |events| ==> events[i].TickEvent?
  }

  /** With no receiving tab, any number of ticks issues no fetch and sends nothing. */
  lemma {:induction false} IdleWhenUnsubscribed(s: CoordState, events: seq<Event>)
    requires !s.isFetching && s.registry == map[] && AllTicks(events)
    ensures var t := Run(s, events);
      t.fetchesIssued == s.fetchesIssued && t.sends == s.sends && !t.isFetching && t.registry == map[]
    decreases |events|
  {
    if events != [] {
      assert events[0].TickEvent?;
      IdleWhenUnsubscribed(Step(s, events[0]), events[1..]);
    }
  }

  /** Ticks that arrive while a fetch is outstanding change nothing at all. */
  lemma {:induction false} TicksWhileFetchingAreNoOps(s: CoordState, events: seq<Event>)
    requires s.isFetching && AllTicks(events)
    ensures Run(s, events) == s
    decreases |events|
  {
    if events != [] {
      assert events[0].TickEvent?;
      TicksWhileFetchingAreNoOps(Step(s, events[0]), events[1..]);
    }
  }

  /** Events other than the fetch's answer. */
  predicate NotSettle(events: seq<Event>) {
    forall i :: 0 <= i < |events| ==> !events[i].FetchSettled?
  }

  /** While a fetch is outstanding, ticks and subscription changes neither send
      nor touch the snapshot the fetch will be fanned out to. */
  lemma {:induction false} OutstandingFetchKeepsSnapshot(s: CoordState, events: seq<Event>)
    requires s.isFetching && NotSettle(events)
    ensures var t := Run(s, events);
      t.isFetching && t.inFlight == s.inFlight && t.sends == s.sends && t.fetchesIssued == s.fetchesIssued
    decreases |events|
  {
    if events != [] {
      assert !events[0].FetchSettled?;
      OutstandingFetchKeepsSnapshot(Step(s, events[0]), events[1..]);
    }
  }

  /** A tick that fetches, any subscription changes while the fetch is
      outstanding, then an answer with a payload: the payload goes to exactly the
      tabs registered when the tick started, not to the registry as it is when
      the answer arrives. */
  lemma FanOutUsesTickSnapshot(s: CoordState, meanwhile: seq<Event>, reply: HttpReply, failing: set<int>)
    requires Consistent(s) && !s.isFetching && s.registry != map[] && NotSettle(meanwhile)
    requires DeliversPayload(FetchPayload(reply))
    ensures var t := SettleStep(Run(TickStep(s, true).0, meanwhile), reply, failing).0;
      t.sends == s.sends + Fanout(FetchPayload(reply).data.payload.value, SortedIds(s.registry.Keys), failing) &&
      !t.isFetching
  {
    var ticked := TickStep(s, true).0;
    assert ticked.inFlight == Some(SortedIds(s.registry.Keys));
    OutstandingFetchKeepsSnapshot(ticked, meanwhile);
  }

  /** A concrete run: tabs a and b receive; a tick issues a fetch; tab b
      unsubscribes and tab c subscribes while it is outstanding; the fetch
      answers with a payload. Tab b still receives the payload, tab c does not. */
  lemma UnsubscribedMidFlightStillReceives(a: int, b: int, c: int, e: Entry, p: Payload)
    requires a < b && c != a && c != b
    ensures var t := Run(Initial.(registry := map[a := e, b := e]),
                   [TickEvent(true),
                    SetReceivingMessage(Some(b), None, false, e, true, None),
                    SetReceivingMessage(Some(c), None, true, e, true, None),
                    FetchSettled(HttpResponse(200, "", Some(FetchData(true, Some(p)))), {})]);
      t.registry.Keys == {a, c} && t.sends == [SendAttempt(a, p, true), SendAttempt(b, p, true)]
  {
    var e0, e1, e2, e3 := TickEvent(true),
                          SetReceivingMessage(Some(b), None, false, e, true, None),
                          SetReceivingMessage(Some(c), None, true, e, true, None),
                          FetchSettled(HttpResponse(200, "", Some(FetchData(true, Some(p)))), {});
    var s0 := Initial.(registry := map[a := e, b := e]);
    RunFour(s0, e0, e1, e2, e3);
    TickTwoTabs(a, b, e);
    SwapTabs(Step(s0, e0), a, b, c, e);
    SettleTwoTabs(Step(Step(Step(s0, e0), e1), e2), a, b, p);
  }

  /** Tab b unsubscribes, then tab c subscribes. */
  lemma SwapTabs(s: CoordState, a: int, b: int, c: int, e: Entry)
    requires s.registry == map[a := e, b := e] && a != b && c != a && c != b
    ensures Step(Step(s, SetReceivingMessage(Some(b), None, false, e, true, None)),
                 SetReceivingMessage(Some(c), None, true, e, true, None)) == s.(registry := map[a := e, c := e])
  {
    var s2 := s.(registry := map[a := e]);
    assert s.registry - {b} == map[a := e];
    assert Step(s, SetReceivingMessage(Some(b), None, false, e, true, None)) == s2;
    assert s2.registry[c := e] == map[a := e, c := e];
  }

  /** A run of four events, one step at a time. */
  lemma RunFour(s: CoordState, e0: Event, e1: Event, e2: Event, e3: Event)
    ensures Run(s, [e0, e1, e2, e3]) == Step(Step(Step(Step(s, e0), e1), e2), e3)
  {
    var s1, s2, s3 := Step(s, e0), Step(Step(s, e0), e1), Step(Step(Step(s, e0), e1), e2);
    assert [e0, e1, e2, e3][1..] == [e1, e2, e3];
    assert Run(s, [e0, e1, e2, e3]) == Run(s1, [e1, e2, e3]);
    assert [e1, e2, e3][1..] == [e2, e3];
    assert Run(s1, [e1, e2, e3]) == Run(s2, [e2, e3]);
    assert [e2, e3][1..] == [e3];
    assert Run(s2, [e2, e3]) == Run(s3, [e3]);
    assert [e3][1..] == [];
    assert Run(s3, [e3]) == Run(Step(s3, e3), []);
  }

  /** The tick over tabs a < b issues a fetch for [a, b]. */
  lemma TickTwoTabs(a: int, b: int, e: Entry)
    requires a < b
    ensures var s0 := Initial.(registry := map[a := e, b := e]);
      Step(s0, TickEvent(true)) ==
        s0.(isFetching := true, lastReceivingCount := 2, inFlight := Some([a, b]), fetchesIssued := 1)
  {
    var s0 := Initial.(registry := map[a := e, b := e]);
    assert s0.registry.Keys == {a, b};
    SortedPair(a, b);
  }

  /** The answer carrying `p` reaches tabs a and b. */
  lemma SettleTwoTabs(s: CoordState, a: int, b: int, p: Payload)
    requires s.isFetching && s.inFlight == Some([a, b]) && s.sends == []
    ensures Step(s, FetchSettled(HttpResponse(200, "", Some(FetchData(true, Some(p)))), {})) ==
      s.(isFetching := false, inFlight := None, fetchesSettled := s.fetchesSettled + 1,
         sends := [SendAttempt(a, p, true), SendAttempt(b, p, true)])
  {
    var reply := HttpResponse(200, "", Some(FetchData(true, Some(p))));
    assert FetchPayload(reply) == Fetched(FetchData(true, Some(p)));
    assert Fanout(p, [a, b], {}) == [SendAttempt(a, p, true), SendAttempt(b, p, true)];
  }

  lemma SortedPair(a: int, b: int)
    requires a < b
    ensures SortedIds({a, b}) == [a, b]
  {
    var ids := SortedIds({a, b});
    assert a in ids && b in ids && |ids| == 2;
    assert ids[0] < ids[1];
  }

}
