/** The relay server: a single-slot mailbox behind a static access key.
    `/upload` overwrites the slot, `/fetch` drains it, `/health` answers "OK". */
module RelayServer {
  import opened Common

  /** What reading the `/upload` request body as JSON yields. */
  datatype UploadBody =
    | Malformed
      // the body is not JSON: reading it throws
    | JsonNull
      // the body is the JSON literal `null`: reading `body.image` then throws
    | Json(image: Option<string>, text: Option<string>, timestamp: Option<int>)
      // any other JSON value; a field it lacks reads as `undefined`

  datatype ResponseBody =
    | ErrorMessage(error: string)  // {error}
    | Acknowledged                 // {ok: true}
    | NotFound                     // {found: false}
    | Found(payload: Payload)      // {found: true, payload}
    | PlainText(text: string)

  datatype Response = Response(status: nat, body: ResponseBody)

  const Unauthorized := Response(401, ErrorMessage("Unauthorized"))
  const InvalidJson := Response(400, ErrorMessage("Invalid JSON body"))
  /** What the HTTP framework answers when a handler throws. */
  const InternalError := Response(500, PlainText("Internal Server Error"))

  /** The access check. `apiKey` is the configured API_KEY (None when the
      variable is unset), `provided` the X-Api-Key header (None when absent). */
  function IsAuthorized(apiKey: Option<string>, provided: Option<string>): (ok: bool)
    ensures apiKey == None || apiKey == Some("") ==> !ok
    ensures apiKey != None && apiKey != Some("") ==> (ok <==> provided == apiKey)
    ensures ok ==> Truthy(provided)
  {
    if !Truthy(apiKey) then false else provided == apiKey
  }

  /** `GET /health`: unauthenticated, never fails. */
  function Health(): (r: Response)
    ensures r.status == 200 && r.body == PlainText("OK")
  {
    Response(200, PlainText("OK"))
  }

  /** `POST /upload` as a state transition: the slot afterwards and the response. */
  function UploadStep(slot: Option<Payload>, apiKey: Option<string>, provided: Option<string>,
                      body: UploadBody, now: int): (r: (Option<Payload>, Response))
    // the key is checked before anything else, and a failed check changes nothing
    ensures !IsAuthorized(apiKey, provided) ==> r == (slot, Unauthorized)
    ensures IsAuthorized(apiKey, provided) && body.Malformed? ==> r == (slot, InvalidJson)
    // every failure leaves the slot as it was, whether it was empty or full
    ensures r.1.status != 200 ==> r.0 == slot
    ensures r.1.status == 200 <==> IsAuthorized(apiKey, provided) && body.Json?
    // success: last write wins, the image and text are kept and the server's clock
    // replaces whatever timestamp the client sent
    ensures r.1.status == 200 ==>
      r.1.body == Acknowledged && r.0 == Some(Payload(body.image, body.text, now))
  {
    if !IsAuthorized(apiKey, provided) then (slot, Unauthorized)
    else match body
      case Malformed => (slot, InvalidJson)
      case JsonNull => (slot, InternalError)
      case Json(image, text, _) => (Some(Payload(image, text, now)), Response(200, Acknowledged))
  }

  /** `GET /fetch` as a state transition: a destructive read of the slot. */
  function FetchStep(slot: Option<Payload>, apiKey: Option<string>, provided: Option<string>):
    (r: (Option<Payload>, Response))
    ensures !IsAuthorized(apiKey, provided) ==> r == (slot, Unauthorized)
    // an authorized fetch always empties the slot ...
    ensures IsAuthorized(apiKey, provided) ==> r.0 == None && r.1.status == 200
    // ... and hands out exactly what was resident, or reports that nothing was
    ensures IsAuthorized(apiKey, provided) && slot == None ==> r.1.body == NotFound
    ensures IsAuthorized(apiKey, provided) && slot != None ==> r.1.body == Found(slot.value)
  {
    if !IsAuthorized(apiKey, provided) then (slot, Unauthorized)
    else if slot.None? then (slot, Response(200, NotFound))
    else (None, Response(200, Found(slot.value)))
  }

  /** The server process: the configured key and the module-level payload slot. */
  class Mailbox {
    const apiKey: Option<string>
    var storedPayload: Option<Payload>

    /** A process start: the slot is empty. */
    constructor (apiKey: Option<string>)
      ensures this.apiKey == apiKey && storedPayload == None
    {
      this.apiKey := apiKey;
      storedPayload := None;
    }

    method Upload(provided: Option<string>, body: UploadBody, now: int) returns (resp: Response)
      modifies this
      ensures (storedPayload, resp) == UploadStep(old(storedPayload), apiKey, provided, body, now)
    {
      if !IsAuthorized(apiKey, provided) {
        return Unauthorized;
      }
      match body
      case Malformed =>
        resp := InvalidJson;
      case JsonNull =>
        resp := InternalError;
      case Json(image, text, _) =>
        storedPayload := Some(Payload(image, text, now));
        resp := Response(200, Acknowledged);
    }

    method Fetch(provided: Option<string>) returns (resp: Response)
      modifies this
      ensures (storedPayload, resp) == FetchStep(old(storedPayload), apiKey, provided)
    {
      if !IsAuthorized(apiKey, provided) {
        return Unauthorized;
      }
      if storedPayload.None? {
        return Response(200, NotFound);
      }
      var payload := storedPayload.value;
      storedPayload := None;
      resp := Response(200, Found(payload));
    }
  }

  // ----- Sequences of requests -----

  datatype Request =
    | UploadRequest(key: Option<string>, body: UploadBody, now: int)
    | FetchRequest(key: Option<string>)
    | HealthRequest

  function Handle(slot: Option<Payload>, apiKey: Option<string>, req: Request): (Option<Payload>, Response)
  {
    match req
    case UploadRequest(key, body, now) => UploadStep(slot, apiKey, key, body, now)
    case FetchRequest(key) => FetchStep(slot, apiKey, key)
    case HealthRequest => (slot, Health())
  }

  /** Requests handled one after another, in the order the handlers take
      effect (an upload takes effect once its body has been read): the final
      slot and one response per request. */
  function Serve(slot: Option<Payload>, apiKey: Option<string>, reqs: seq<Request>):
    (r: (Option<Payload>, seq<Response>))
    ensures |r.1| == |reqs|
    decreases |reqs|
  {
    if reqs == [] then (slot, [])
    else
      var (next, resp) := Handle(slot, apiKey, reqs[0]);
      var (last, rest) := Serve(next, apiKey, reqs[1..]);
      (last, [resp] + rest)
  }

  /** Serving a request and then the rest is serving them all. */
  lemma ServeCons(slot: Option<Payload>, apiKey: Option<string>, req: Request, rest: seq<Request>)
    ensures var (next, resp) := Handle(slot, apiKey, req);
      Serve(slot, apiKey, [req] + rest) == (Serve(next, apiKey, rest).0, [resp] + Serve(next, apiKey, rest).1)
  {
    assert ([req] + rest)[1..] == rest;
  }

  predicate Unauthenticated(apiKey: Option<string>, req: Request) {
    req.HealthRequest? || !IsAuthorized(apiKey, req.key)
  }

  /** Requests that all fail the key check (plus health checks) never reach the
      slot, and each upload or fetch among them is answered 401. */
  lemma {:induction false} UnauthorizedRequestsChangeNothing(slot: Option<Payload>, apiKey: Option<string>,
                                                             reqs: seq<Request>)
    requires forall i :: 0 <= i < |reqs| ==> Unauthenticated(apiKey, reqs[i])
    ensures Serve(slot, apiKey, reqs).0 == slot
    ensures forall i :: 0 <= i < |reqs| && !reqs[i].HealthRequest? ==>
      Serve(slot, apiKey, reqs).1[i] == Unauthorized
  {
    if reqs != [] {
      assert Unauthenticated(apiKey, reqs[0]);
      UnauthorizedRequestsChangeNothing(slot, apiKey, reqs[1..]);
      forall i | 1 <= i < |reqs| && !reqs[i].HealthRequest?
        ensures Serve(slot, apiKey, reqs).1[i] == Unauthorized
      {
        assert reqs[1..][i - 1] == reqs[i];
      }
    }
  }

  function Fetches(key: Option<string>, n: nat): (reqs: seq<Request>)
    ensures |reqs| == n && forall i :: 0 <= i < n ==> reqs[i] == FetchRequest(key)
  {
    seq(n, _ => FetchRequest(key))
  }

  /** Destructive read: of n authorized fetches in a row, only the first finds
      the resident payload; the others, and the slot afterwards, are empty. */
  lemma {:induction false} DrainsAtMostOnce(slot: Option<Payload>, apiKey: Option<string>,
                                            key: Option<string>, n: nat)
    requires IsAuthorized(apiKey, key) && n >= 1
    ensures Serve(slot, apiKey, Fetches(key, n)).0 == None
    ensures Serve(slot, apiKey, Fetches(key, n)).1[0].body ==
      (if slot.Some? then Found(slot.value) else NotFound)
    ensures forall i :: 1 <= i < n ==> Serve(slot, apiKey, Fetches(key, n)).1[i].body == NotFound
    decreases n
  {
    var reqs := Fetches(key, n);
    assert reqs[1..] == Fetches(key, n - 1);
    if n == 1 {
      assert reqs[1..] == [];
    } else {
      DrainsAtMostOnce(None, apiKey, key, n - 1);
      var rest := Serve(None, apiKey, reqs[1..]).1;
      assert Serve(slot, apiKey, reqs).1 == [FetchStep(slot, apiKey, key).1] + rest;
      forall i | 1 <= i < n
        ensures Serve(slot, apiKey, reqs).1[i].body == NotFound
      {
        if i == 1 {
          assert rest[0].body == NotFound;
        } else {
          assert rest[i - 1].body == NotFound;
        }
      }
    }
  }

  /** Two uploads without a fetch in between: the first is lost, the next
      fetch returns the second (stamped with its arrival time), and the
      fetch after that finds nothing. */
  lemma LastWriteWins(slot: Option<Payload>, apiKey: Option<string>, key: Option<string>,
                      first: UploadBody, t1: int, second: UploadBody, t2: int)
    requires IsAuthorized(apiKey, key) && first.Json? && second.Json?
    ensures var out := Serve(slot, apiKey, [UploadRequest(key, first, t1), UploadRequest(key, second, t2),
                                            FetchRequest(key), FetchRequest(key)]);
      out.1[2].body == Found(Payload(second.image, second.text, t2)) &&
      out.1[3].body == NotFound && out.0 == None
  {
    var p1 := Payload(first.image, first.text, t1);
    var p2 := Payload(second.image, second.text, t2);
    ServeCons(None, apiKey, FetchRequest(key), []);
    ServeCons(Some(p2), apiKey, FetchRequest(key), [FetchRequest(key)]);
    ServeCons(Some(p1), apiKey, UploadRequest(key, second, t2), [FetchRequest(key), FetchRequest(key)]);
    ServeCons(slot, apiKey, UploadRequest(key, first, t1),
              [UploadRequest(key, second, t2), FetchRequest(key), FetchRequest(key)]);
  }

  /** An upload with the wrong key never reaches the slot: a correctly keyed
      fetch after it on a fresh server still finds nothing. */
  lemma WrongKeyUploadIsInvisible(apiKey: Option<string>, good: Option<string>, bad: Option<string>,
                                  body: UploadBody, now: int)
    requires IsAuthorized(apiKey, good) && bad != good
    ensures Serve(None, apiKey, [UploadRequest(bad, body, now), FetchRequest(good)]).1 ==
      [Unauthorized, Response(200, NotFound)]
  {
    ServeCons(None, apiKey, FetchRequest(good), []);
    ServeCons(None, apiKey, UploadRequest(bad, body, now), [FetchRequest(good)]);
  }
}
