# TelePrompt relay, modelled in Dafny

TelePrompt moves a screenshot and a text prompt from one browser tab into the
composer of a chat service (Gemini, ChatGPT, Claude) open in another tab. It has
two parts:

* a relay server holding a single-slot mailbox behind a static access key:
  `/upload` overwrites the slot, `/fetch` drains it, `/health` answers "OK";
* a browser extension with two routes to the relay's `/fetch`:
  * The background process polls it. On every tick it reads the registry of
    receiving tabs, fetches once and sends the payload to the tabs it read as a
    `CMD_PAYLOAD` message. No listener for that message is among the files
    modelled here.
  * The receiver script runs in each destination page. Every tick it asks the
    background process for a fetch with a `CMD_FETCH` message. The background
    forwards the request to `/fetch` without consulting its poller flag. The
    receiver then inserts whatever that fetch returned into the page's
    composer.

  Both routes drain the same slot.

The Dafny project has five modules, one per file:

| file | module | what it holds |
|---|---|---|
| `common.dfy` | `Common` | `Option`, the `Payload` record, JavaScript truthiness of strings, substring search |
| `server.dfy` | `RelayServer` | the access check; the three routes as state transitions over the slot; the `Mailbox` class holding the slot; runs of requests |
| `settings.dfy` | `Settings` | the default settings; the normalisation of stored settings; URL-pattern matching against an abstract regular-expression engine; selector lookup; the auth headers |
| `background.dfy` | `Background` | the two HTTP calls; the fan-out loop; the coordinator's state; the tick, the fetch answer, subscription changes and tab closing as transitions; the `Coordinator` class; runs of interleaved events |
| `receiver.dfy` | `Receiver` | service detection; the receiver's timer; the receiver's tick and the composer handlers, written as the sequence of page actions they perform |

Each state-changing operation of the server and of the background process is
written twice:

* as a pure transition function (`UploadStep`, `FetchStep`, `TickStep`,
  `SettleStep`, `SetReceivingStep`, `TabRemovedStep`), whose `ensures` clauses
  state what the source promises;
* as a method of a class holding the source's mutable variables
  (`RelayServer.Mailbox`, `Background.Coordinator`), proved to perform exactly
  that transition.

The receiver's `initReceiver` is the exception. It exists only as the method
`ReceiverTimer.InitReceiver`, whose contract states the new timer state
outright.

Properties that relate several steps are lemmas over runs (`Serve`, `Run`).
Examples are "a fetch drains the slot at most once", "at most one of the poller's
fetches is outstanding" and "the fan-out goes to the tick's snapshot".

The background tick of `pollAndBroadcast` awaits the fetch, and other events
(ticks, subscription changes, closed tabs) can run while it waits. It is
therefore split into two transitions:

* `TickStep`: from the guard to the issued fetch;
* `SettleStep`: from the fetch's answer to clearing the flag.

The state remembers the snapshot of tab ids in between. The registry read at
the start of the tick (`extension/src/background.ts:92`) is also an await,
taken with the flag already up; the model folds it into `TickStep`, so no event
falls between raising the flag and issuing the fetch.

**Fan-out snapshot.** One might expect the payload to go to the tabs
registered when the drain completes. The code sends it to the entries read at
the start of the tick (`extension/src/background.ts:92-93`, `:119`). The model
follows the code:

* `Background.FanOutUsesTickSnapshot` proves that the payload goes to the
  snapshot, whatever subscription changes happen in between.
* `Background.UnsubscribedMidFlightStillReceives` is a concrete run. A tab that
  unsubscribes while the fetch is outstanding still gets the payload. A tab that
  subscribes in the meantime does not.

Other modelling choices:

* The subscription handler takes as a boolean input what `isSupportedServiceUrl`
  answers for the entry's URL.
* `setReceivingTab` and `removeReceivingTab` are shown only through their
  contract on the registry: enabling adds or replaces the tab's entry, disabling
  and closing remove it, and a failed write changes nothing. Their bodies are
  not part of this model.
* The registry is a `map<int, Entry>`. Its entries are listed in ascending tab
  id order, which is the order `Object.entries` gives for non-negative integer
  keys. Tab ids are non-negative; a negative key would be listed after them.
* The `X-Api-Key` header does not reach the relay exactly as the settings hold
  the key. `fetch` trims whitespace at both ends, and it refuses a value that
  holds NUL, CR, LF or a character above U+00FF; the request then never leaves.
  `Background.HeaderOnWire` models this, and the key is saved untrimmed.

## Model

| member | source | states |
|---|---|---|
| `RelayServer.IsAuthorized` | server/src/index.ts:18-21 | an unset or empty API_KEY rejects every request; otherwise a request is accepted exactly when the header equals the key; an accepted header is never empty |
| `RelayServer.Health` | server/src/index.ts:23 | `/health` always answers 200 with "OK" |
| `RelayServer.UploadStep` | server/src/index.ts:25-43 | the key is checked first and a failure answers 401 without touching the slot; a non-JSON body answers 400 and leaves the slot unchanged; every non-200 answer leaves the slot as it was; a 200 happens exactly for an authorized JSON object and stores its image and text, stamped with the server's clock instead of the client's timestamp |
| `RelayServer.FetchStep` | server/src/index.ts:45-57 | an unauthorized fetch answers 401 and leaves the slot unchanged; an authorized fetch always empties the slot and returns exactly the resident payload, or `found: false` when there was none |
| `RelayServer.Mailbox.constructor` | server/src/index.ts:13-14 | the server starts with the configured key and an empty slot |
| `RelayServer.Mailbox.Upload` | server/src/index.ts:25-43 | the handler's update of `storedPayload` and its response are exactly `UploadStep` |
| `RelayServer.Mailbox.Fetch` | server/src/index.ts:45-57 | the handler's update of `storedPayload` and its response are exactly `FetchStep` |
| `RelayServer.Serve` | server/src/index.ts:14-57 | requests handled one after another against the one slot, in the order their handlers take effect (an upload once its body has been read), give one response per request |
| `RelayServer.UnauthorizedRequestsChangeNothing` | server/src/index.ts:25-48 | any run of wrongly keyed uploads and fetches, mixed with health checks, leaves the slot unchanged and answers each upload and fetch with 401 |
| `RelayServer.DrainsAtMostOnce` | server/src/index.ts:50-56 | of n authorized fetches in a row, the first returns what was resident (or `found: false`), all the others return `found: false`, and the slot ends empty |
| `RelayServer.LastWriteWins` | server/src/index.ts:37-56 | after two uploads the next fetch returns the second payload stamped with its arrival time; the first is lost, and the fetch after that finds nothing |
| `RelayServer.WrongKeyUploadIsInvisible` | server/src/index.ts:25-52 | an upload with a wrong key is refused, and a correctly keyed fetch after it still finds an empty slot |
| `Settings.NormalizeSettings` | extension/src/utils.ts:28-37 | a falsy server URL becomes `http://localhost:5000` and any other URL is kept; a missing key becomes ""; a stored array of selectors (even an empty one) is kept and anything else becomes the three default entries |
| `Settings.NormalizeIsIdempotent` | extension/src/utils.ts:28-37 | normalised settings written back and read again normalise to themselves |
| `Settings.UrlMatchesPattern` | extension/src/utils.ts:50-57 | a pattern that compiles as a regular expression is matched as one; a pattern that does not compile is matched as a substring |
| `Settings.FindMatchingSelector` | extension/src/utils.ts:59-62 | the result is null exactly when no entry matches; otherwise it is the selector of the first matching entry |
| `Settings.BuildAuthHeaders` | extension/src/utils.ts:64-67 | exactly two headers: `Content-Type: application/json` and `X-Api-Key`, which carries the key unchanged (the empty key as "") |
| `Background.UploadRequest` | extension/src/background.ts:141-147 | the upload is a POST to `<serverUrl>/upload`, with the payload as body and exactly the two auth headers built from the settings, no others |
| `Background.FetchRequest` | extension/src/background.ts:157-162 | the fetch is a GET to `<serverUrl>/fetch`, with no body and exactly the two auth headers built from the settings, no others |
| `Background.UploadPayload` | extension/src/background.ts:149-154 | the upload succeeds exactly on a 2xx response; any other status becomes an error carrying that status and the response text |
| `Background.FetchPayload` | extension/src/background.ts:164-170 | the fetch yields the JSON body exactly on a 2xx response that parses; any other status becomes an error carrying that status and the response text |
| `Background.HeaderOnWire` | extension/src/background.ts:159-162 | the key header as `fetch` sends it: whitespace at both ends is removed, and a value holding NUL, CR, LF or a character above U+00FF is refused |
| `Background.CleanHeaderArrivesUnchanged` | extension/src/background.ts:159-162 | a key with no surrounding whitespace and no refused character arrives as it is |
| `Background.TrailingSpaceIsDropped` | extension/src/background.ts:159-162 | a key saved with a trailing space arrives without it |
| `Background.WideCharacterIsRefused` | extension/src/background.ts:159-162 | a key holding a character above U+00FF is refused wherever that character sits |
| `Background.FetchRoundTrip` | extension/src/background.ts:157-171 | a key `fetch` refuses fails as a rejected request and leaves the slot alone |
| `Background.FetchThroughRelay` | extension/src/background.ts:157-171 | a refused key fails without reaching the relay; otherwise the fetch drains the slot and returns its content exactly when the key as it arrives is not empty and equals the relay's key, and else it fails with status 401 and the slot is kept |
| `Background.WideKeyNeverDrains` | extension/src/background.ts:157-171 | a key with a character above U+00FF never drains the slot, even when the relay holds the very same key |
| `Background.TrailingSpaceKeyStillDrains` | extension/src/background.ts:157-171 | a key saved as "k " drains a relay configured with "k" |
| `Background.SortedIds` | extension/src/background.ts:92-93 | the snapshot lists every registered tab id exactly once, in ascending order |
| `Background.Fanout` | extension/src/background.ts:129-139 | one send per listed tab, in order, each carrying the payload; a send fails only for its own tab |
| `Background.FanoutReachesEachTabOnce` | extension/src/background.ts:129-139 | for distinct tab ids, every listed tab gets exactly one send and no other tab gets any; the payload reaches exactly the listed tabs whose send does not fail |
| `Background.BroadcastPayload` | extension/src/background.ts:129-139 | the loop's sends are exactly `Fanout`: a failing send does not stop the ones after it |
| `Background.TickStep` | extension/src/background.ts:87-109 | a tick while a fetch is outstanding does nothing; an unreadable registry changes nothing; an empty registry issues no fetch and resets the count to 0; otherwise exactly one fetch is issued, the flag goes up and the count and the snapshot of tab ids are recorded; a tick never sends and never writes the registry; it keeps the flag invariant |
| `Background.SettleStep` | extension/src/background.ts:109-126 | the flag goes down whether the fetch succeeded, found nothing or failed; a found payload is sent to every tab of the tick's snapshot, and in every other case nothing is sent; the registry is untouched; it keeps the flag invariant |
| `Background.SetReceivingStep` | extension/src/background.ts:58-77 | no tab id, or enabling an unsupported page, is refused before the registry is touched; any refusal or failed write leaves the state unchanged; a success adds or replaces the tab's entry when enabling and removes the tab when disabling; the reply is ok exactly when there is a tab id, the page is supported when enabling and the write succeeds, and a failed write is answered with its error |
| `Background.TabRemovedStep` | extension/src/background.ts:182-184 | a closed tab leaves the registry, the other entries are kept and nothing else changes; when the removal's write fails the state is unchanged |
| `Background.Coordinator.constructor` | extension/src/background.ts:20-21 | the background process starts idle (flag down, count 0, nothing outstanding) with the registry it finds |
| `Background.Coordinator.Tick` | extension/src/background.ts:87-109 | the method's updates of `isFetching`, `lastReceivingCount` and the snapshot are exactly `TickStep` |
| `Background.Coordinator.SettleFetch` | extension/src/background.ts:109-126 | the method's broadcast and its clearing of the flag are exactly `SettleStep` |
| `Background.Coordinator.SetReceiving` | extension/src/background.ts:58-77 | the handler's registry write and its reply are exactly `SetReceivingStep` |
| `Background.Coordinator.TabRemoved` | extension/src/background.ts:182-184 | the listener's registry removal, or its failed write, is exactly `TabRemovedStep` |
| `Background.Step` | extension/src/background.ts:58-126 | each event (a tick, a fetch's answer, a subscription change, a closed tab) keeps the flag invariant: the flag is up exactly while one fetch with a non-empty snapshot is outstanding |
| `Background.AtMostOneFetchInFlight` | extension/src/background.ts:87-127 | over any interleaving of events, the fetches `pollAndBroadcast` issues exceed those settled by at most one, and by exactly one while the flag is up |
| `Background.IdleWhenUnsubscribed` | extension/src/background.ts:96-102 | with no receiving tab, any number of ticks issues no fetch and sends nothing |
| `Background.TicksWhileFetchingAreNoOps` | extension/src/background.ts:88 | ticks that arrive while a fetch is outstanding change nothing |
| `Background.OutstandingFetchKeepsSnapshot` | extension/src/background.ts:88-93 | while a fetch is outstanding, ticks and subscription changes neither send nor alter the snapshot it will fan out to |
| `Background.FanOutUsesTickSnapshot` | extension/src/background.ts:92-120 | a found payload goes to exactly the tabs registered when the tick started, whatever subscription changes happen while the fetch is outstanding |
| `Background.UnsubscribedMidFlightStillReceives` | extension/src/background.ts:92-120 | in the run "tabs a and b receive, a tick fetches, b unsubscribes and c subscribes, the fetch answers with a payload", the registry ends as {a, c}, yet the payload goes to a and b: the tab that unsubscribed while the fetch was outstanding still receives it, and the tab that subscribed in the meantime does not |
| `Receiver.DetectService` | extension/src/receiver.ts:57-63 | the URL is classified in order: Gemini if it contains `gemini.google.com`, else ChatGPT if it contains `chatgpt.com`, else Claude if it contains `claude.ai`, else no service |
| `Receiver.ReceiverTimer.constructor` | extension/src/receiver.ts:10 | the receiver starts with no timer |
| `Receiver.ReceiverTimer.InitReceiver` | extension/src/receiver.ts:12-15 | the first call starts one timer; later calls keep the running timer and start none |
| `Receiver.InitReceiverTwice` | extension/src/receiver.ts:12-15 | initialising twice leaves the first timer active, and only one timer was ever started (a ghost count) |
| `Receiver.FocusAndInsertText` | extension/src/receiver.ts:108-115 | focus, then `insertText`; the element's text is replaced, with the same text, only when the editor refuses, so there are three actions or four; an `input` event comes last |
| `Receiver.HandleContentEditable` | extension/src/receiver.ts:81-92 | without the target element, or when a truthy image fails to load, the handler does nothing after the lookup; otherwise an image is pasted exactly when it is non-empty, and always before any text; empty or missing text writes nothing; non-empty text is written by `FocusAndInsertText`, which ends the handler; a pasted image is the payload's own; the length is exactly the lookup, plus the paste when it happens, plus the text stage when it runs, so nothing else stands in between |
| `Receiver.HandleChatGpt` | extension/src/receiver.ts:94-106 | works on `#prompt-textarea` only; without the target, or when the image fails to load, nothing happens after the lookup; the image is pasted before the text; the textarea's value is set exactly when the target exists, the image stage passed and the text is present, even when it is empty, and is then followed by an `input` event that ends the handler; a pasted image is the payload's own; the length is exactly one lookup, plus one paste when it happens, plus the value and its event when the text stage runs, so nothing is repeated or inserted |
| `Receiver.ApplyPayload` | extension/src/receiver.ts:65-79 | Gemini and Claude run `HandleContentEditable` on the contenteditable composer and ChatGPT runs `HandleChatGpt`; every action targets that one element; no image follows written text |
| `Receiver.ReceiverTick` | extension/src/receiver.ts:28-53 | with receiving off or on an unrecognised page nothing happens, not even a fetch; otherwise exactly one fetch message is sent, first; the page is touched only when the answer has `ok`, `found` and a payload, and then exactly as `ApplyPayload` says |

## Left out

- Network, storage and DOM effects are not performed. The outcomes they
  produce are inputs to the model:
  - whether the registry can be read;
  - the HTTP reply;
  - which tab sends fail;
  - whether the target element exists;
  - whether an image loads;
  - whether `insertText` succeeds.
- Console logging, including the debug messages keyed on `lastReceivingCount`,
  is not modelled. The count itself is.
- `Background.BroadcastPayload`: the sends of `Promise.all` run concurrently in
  the source. The model sends them one after another in snapshot order. Only
  which sends happen and which fail is captured.
- `Background.UploadPayload`, `Background.FetchPayload`: the error message is
  kept as status plus response text. The rendered string
  `"Upload failed (status): text"` is not built.
- `Background.FetchPayload`: the `{ok: true, ...data}` spread is reduced to the
  `found` and `payload` fields.
- `Background.ServerAnswer`: the relay's JSON rendering of a response is not
  modelled. A `/fetch` body is taken to reach the extension as the
  `found`/`payload` it carries.
- `Background.SetReceivingStep`: `message.tabId` is absent or an integer; a
  `null` tab id passed on by `??` is not modelled.
- `Background.SetReceivingStep`: `Boolean(message.enabled)` is taken as already
  a boolean.
- `Background.SetReceivingStep`: a missing `entry` is modelled as an entry whose
  fields are all absent.
- The registry helpers (`getReceivingTabs`, `setReceivingTab`,
  `removeReceivingTab`) and `isSupportedServiceUrl` are not part of this model.
  They appear only through the registry contract above and a boolean input.
- `Settings.NormalizeSettings`: a stored server URL or key that is a truthy
  non-string value is not modelled. Stored strings are present or absent.
- `Settings.UrlMatchesPattern`: JavaScript regular-expression semantics are an
  abstract engine (`compiles`, `test`).
- `RelayServer.UploadStep`: a JSON body whose `image` or `text` is not a string
  is not modelled.
- `RelayServer.UploadStep`: the JSON literal `null` is modelled as the
  framework's 500 answer, which is what happens when reading a field of `null`
  throws.
- The server's port, `serve`, `dotenv` and the listening log line are
  configuration and I/O.
- `Date.now()` is the `now` parameter of an upload.
- `setInterval` timing in both the background process and the receiver is not
  modelled. Ticks are events in a run.
- The `CMD_UPLOAD` and `CMD_CAPTURE` message branches, the context menu and
  `captureVisibleTab` are not modelled. They only forward to the modelled
  `uploadPayload` or to the browser.
- The `CMD_FETCH` branch (`extension/src/background.ts:44-49`) is not an event
  of the coordinator. It answers each receiver tick with `fetchPayload()`,
  which drains the relay's slot, and it does not check or set `isFetching`. It
  is therefore a second drain path beside the poller. As a result,
  `Background.AtMostOneFetchInFlight`, `Background.TickStep` and
  `Background.FanOutUsesTickSnapshot` are statements about the fetches
  `pollAndBroadcast` issues itself. A receiver's `CMD_FETCH` can drain a
  payload between polls or while a poll is outstanding. On the receiver's
  side, the answer to that message is the `reply` input of
  `Receiver.ReceiverTick`.
- `Background.HeaderOnWire`: the relay is taken to read the `X-Api-Key` value
  exactly as `fetch` sent it. The same trimming and refusal apply to the
  upload's headers; `Background.UploadRequest` states the headers as built,
  and no round trip is stated for the upload.
- The `CMD_PAYLOAD` message that `broadcastPayload` sends is modelled only as a
  send attempt. What a tab does with it is not part of this model.
- `content.ts`, `options.ts` and `popup.ts` are not part of this model.
- `Receiver.ReceiverTick`: a rejected `getIsReceiving` is not modelled
  separately. It ends the tick before any action, as receiving being off does.
- `Receiver.ReceiverTick`: the error logging of a failed fetch is left out.
- `pasteImage`: the clipboard `DataTransfer`, the generated file name and
  `dataUrlToFile` are not modelled. They become one `PasteImage` action and the
  `imagesLoad` flag of the page.
