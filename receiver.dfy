/** The receiver script running in a destination page: it recognises the chat
    service from the URL, polls for a payload while receiving is on, and inserts
    the payload into the page's composer. DOM effects are recorded as actions. */
module Receiver {
  import opened Common

  datatype Service = Gemini | ChatGpt | Claude

  /** The ordered substring classifier over the page URL. */
  function DetectService(href: string): (r: Option<Service>)
    ensures Contains(href, "gemini.google.com") ==> r == Some(Gemini)
    ensures r == Some(ChatGpt) <==> !Contains(href, "gemini.google.com") && Contains(href, "chatgpt.com")
    ensures r == Some(Claude) <==>
      !Contains(href, "gemini.google.com") && !Contains(href, "chatgpt.com") && Contains(href, "claude.ai")
    ensures r == None <==>
      !Contains(href, "gemini.google.com") && !Contains(href, "chatgpt.com") && !Contains(href, "claude.ai")
  {
    if Contains(href, "gemini.google.com") then Some(Gemini)
    else if Contains(href, "chatgpt.com") then Some(ChatGpt)
    else if Contains(href, "claude.ai") then Some(Claude)
    else None
  }

  /** The receiver's polling timer. `timersStarted` is ghost instrumentation
      counting the intervals it has ever created. */
  class ReceiverTimer {
    var intervalId: Option<int>
    ghost var timersStarted: nat

    constructor ()
      ensures intervalId == None && timersStarted == 0
    {
      intervalId := None;
      timersStarted := 0;
    }

    /** `initReceiver`; `newIntervalId` is the id the timer would get. */
    method InitReceiver(newIntervalId: int)
      modifies this
      // once a timer is running, a further call starts none
      ensures old(intervalId).Some? ==> intervalId == old(intervalId) && timersStarted == old(timersStarted)
      ensures old(intervalId).None? ==> intervalId == Some(newIntervalId) && timersStarted == old(timersStarted) + 1
    {
      if intervalId.Some? {
        return;
      }
      intervalId := Some(newIntervalId);
      timersStarted := timersStarted + 1;
    }
  }

  /** Initialising a fresh receiver twice starts exactly one timer, the first. */
  method InitReceiverTwice(first: int, second: int) returns (active: Option<int>, ghost started: nat)
    ensures active == Some(first) && started == 1
  {
    var r := new ReceiverTimer();
    r.InitReceiver(first);
    r.InitReceiver(second);
    active, started := r.intervalId, r.timersStarted;
  }

  // ----- What a tick does to the page -----

  const ContentEditable := "div[contenteditable=\"true\"]"
  const PromptTextarea := "#prompt-textarea"

  datatype Action =
    | SendFetch                                  // the {type: CMD_FETCH} runtime message
    | Query(selector: string)                    // looking up the composer element
    | PasteImage(selector: string, image: string)  // a paste event carrying the image file
    | Focus(selector: string)
    | ExecInsertText(selector: string, text: string)
    | SetTextContent(selector: string, text: string)
    | SetValue(selector: string, text: string)
    | DispatchInput(selector: string)            // an `input` event

  /** How the page behaves when acted on: whether the composer element exists,
      whether an image data URL turns into a file, and whether the editor
      accepts `insertText`. */
  datatype Page = Page(href: string, targetPresent: bool, imagesLoad: bool, insertTextSucceeds: bool)

  predicate WritesText(a: Action) {
    a.ExecInsertText? || a.SetTextContent? || a.SetValue?
  }

  /** No image is pasted after text has been written. */
  predicate ImageBeforeText(r: seq<Action>) {
    forall i, j :: 0 <= i < |r| && 0 <= j < |r| && r[i].PasteImage? && WritesText(r[j]) ==> i < j
  }

  /** `focusAndInsertText`: insert through the editor, falling back to
      replacing the element's text when the editor refuses. */
  function FocusAndInsertText(selector: string, text: string, page: Page): (r: seq<Action>)
    ensures |r| >= 3 && r[0] == Focus(selector) && r[1] == ExecInsertText(selector, text)
    ensures r[|r| - 1] == DispatchInput(selector)
    ensures SetTextContent(selector, text) in r <==> !page.insertTextSucceeds
    // the text is replaced only when the editor refuses, and then with the same text
    ensures |r| == (if page.insertTextSucceeds then 3 else 4)
    ensures !page.insertTextSucceeds ==> r[2] == SetTextContent(selector, text)
    ensures forall a :: a in r ==> !a.PasteImage? && !a.SetValue? && !a.SendFetch? && a.selector == selector
  {
    [Focus(selector), ExecInsertText(selector, text)] +
    (if page.insertTextSucceeds then [] else [SetTextContent(selector, text)]) +
    [DispatchInput(selector)]
  }

  /** The image stage lets the handler go on: there is no image, or it loads
      (when it does not, the rejection ends the handler). */
  predicate ImageStagePasses(payload: Payload, page: Page) {
    !Truthy(payload.image) || page.imagesLoad
  }

  /** A lookup, an optional paste and a text stage that neither pastes nor
      looks up: every action targets the one element, and the paste, if any, is
      the only one and comes before the text. */
  lemma LookupPasteText(selector: string, image: string, paste: seq<Action>, text: seq<Action>)
    requires paste == [] || paste == [PasteImage(selector, image)]
    requires forall a :: a in text ==> !a.SendFetch? && !a.PasteImage? && a.selector == selector
    ensures var r := [Query(selector)] + paste + text;
      && (forall a :: a in r ==> a == Query(selector) || a in paste || a in text)
      && (forall a :: a in r ==> !a.SendFetch? && a.selector == selector)
      && ImageBeforeText(r)
      && (forall a :: a in r && a.PasteImage? ==> a == PasteImage(selector, image))
      && ((exists a :: a in r && a.PasteImage?) <==> paste != [])
  {
    var r := [Query(selector)] + paste + text;
    assert paste != [] ==> r[1] == PasteImage(selector, image);
    forall i | 1 + |paste| <= i < |r|
      ensures r[i] == text[i - 1 - |paste|]
    {
    }
  }

  /** `handleContentEditable`: image first, then the text, each only when
      truthy. */
  function HandleContentEditable(selector: string, payload: Payload, page: Page): (r: seq<Action>)
    ensures |r| >= 1 && r[0] == Query(selector)
    ensures forall a :: a in r ==> !a.SendFetch? && a.selector == selector && !a.SetValue?
    ensures ImageBeforeText(r)
    ensures (exists a :: a in r && a.PasteImage?) <==>
      page.targetPresent && Truthy(payload.image) && page.imagesLoad
    // without the target element, or when the image does not load, the handler
    // stops after the lookup
    ensures !(page.targetPresent && ImageStagePasses(payload, page)) ==> r == [Query(selector)]
    // empty or missing text writes nothing
    ensures !Truthy(payload.text) ==> forall a :: a in r ==> !WritesText(a)
    // otherwise the text stage closes the handler, after the lookup and the optional paste
    ensures Truthy(payload.text) && page.targetPresent && ImageStagePasses(payload, page) ==>
      var f := FocusAndInsertText(selector, payload.text.value, page);
      |f| < |r| <= |f| + 2 && r[|r| - |f|..] == f
    // the pasted image is the payload's, and nothing else stands between the
    // lookup and the text stage
    ensures forall a :: a in r && a.PasteImage? ==> payload.image == Some(a.image)
    ensures |r| == 1 + (if page.targetPresent && Truthy(payload.image) && page.imagesLoad then 1 else 0) +
      (if page.targetPresent && ImageStagePasses(payload, page) && Truthy(payload.text)
       then |FocusAndInsertText(selector, payload.text.value, page)| else 0)
  {
    if !page.targetPresent || !ImageStagePasses(payload, page) then [Query(selector)]
    else
      var paste := if Truthy(payload.image) then [PasteImage(selector, payload.image.value)] else [];
      var text := if Truthy(payload.text) then FocusAndInsertText(selector, payload.text.value, page) else [];
      var r := [Query(selector)] + paste + text;
      LookupPasteText(selector, payload.image.GetOr(""), paste, text);
      assert r[1 + |paste|..] == text;
      r
  }

  /** `handleChatGpt`: image first, then the textarea's value is set whenever
      the text is present, even when it is empty. */
  function HandleChatGpt(payload: Payload, page: Page): (r: seq<Action>)
    ensures |r| >= 1 && r[0] == Query(PromptTextarea)
    ensures forall a :: a in r ==>
      !a.SendFetch? && a.selector == PromptTextarea && !a.ExecInsertText? && !a.SetTextContent?
    ensures ImageBeforeText(r)
    ensures (exists a :: a in r && a.PasteImage?) <==>
      page.targetPresent && Truthy(payload.image) && page.imagesLoad
    ensures forall t :: SetValue(PromptTextarea, t) in r <==>
      page.targetPresent && ImageStagePasses(payload, page) && payload.text == Some(t)
    ensures !(page.targetPresent && ImageStagePasses(payload, page)) ==> r == [Query(PromptTextarea)]
    // setting the value is followed by the `input` event, and closes the handler
    ensures page.targetPresent && ImageStagePasses(payload, page) && payload.text.Some? ==>
      |r| >= 2 && r[|r| - 2..] == [SetValue(PromptTextarea, payload.text.value), DispatchInput(PromptTextarea)]
    ensures forall a :: a in r && a.PasteImage? ==> payload.image == Some(a.image)
    // one lookup, at most one paste, then the value and its `input` event
    ensures |r| == 1 + (if page.targetPresent && Truthy(payload.image) && page.imagesLoad then 1 else 0) +
      (if page.targetPresent && ImageStagePasses(payload, page) && payload.text.Some? then 2 else 0)
  {
    if !page.targetPresent || !ImageStagePasses(payload, page) then [Query(PromptTextarea)]
    else
      var paste := if Truthy(payload.image) then [PasteImage(PromptTextarea, payload.image.value)] else [];
      var text := if payload.text.Some? then [SetValue(PromptTextarea, payload.text.value), DispatchInput(PromptTextarea)]
        else [];
      var r := [Query(PromptTextarea)] + paste + text;
      LookupPasteText(PromptTextarea, payload.image.GetOr(""), paste, text);
      assert r[1 + |paste|..] == text;
      r
  }

  function ComposerSelector(service: Service): string {
    if service == ChatGpt then PromptTextarea else ContentEditable
  }

  /** `applyPayload`: Gemini and Claude use the contenteditable composer,
      ChatGPT its prompt textarea; every action targets that one element. */
  function ApplyPayload(service: Service, payload: Payload, page: Page): (r: seq<Action>)
    ensures |r| >= 1 && r[0] == Query(ComposerSelector(service))
    ensures forall a :: a in r ==> !a.SendFetch? && a.selector == ComposerSelector(service)
    ensures ImageBeforeText(r)
    ensures service == ChatGpt ==> forall a :: a in r ==> !a.ExecInsertText? && !a.SetTextContent?
    ensures service != ChatGpt ==> forall a :: a in r ==> !a.SetValue?
    // the service's own handler runs
    ensures service == ChatGpt ==> r == HandleChatGpt(payload, page)
    ensures service != ChatGpt ==> r == HandleContentEditable(ContentEditable, payload, page)
  {
    match service
    case Gemini => HandleContentEditable(ContentEditable, payload, page)
    case Claude => HandleContentEditable(ContentEditable, payload, page)
    case ChatGpt => HandleChatGpt(payload, page)
  }

  /** The answer to the fetch message: the message rejects, no response comes,
      or a response `{ok, found, payload}`. */
  datatype FetchReply = Rejected | NoResponse | Responded(ok: bool, found: bool, payload: Option<Payload>)

  predicate CarriesPayload(reply: FetchReply) {
    reply.Responded? && reply.ok && reply.found && reply.payload.Some?
  }

  /** One receiver `tick`, as the actions it performs. */
  function ReceiverTick(isReceiving: bool, page: Page, reply: FetchReply): (r: seq<Action>)
    // receiving off or an unknown page: not even a fetch
    ensures !isReceiving || DetectService(page.href).None? ==> r == []
    // otherwise exactly one fetch message, first
    ensures isReceiving && DetectService(page.href).Some? ==>
      |r| >= 1 && r[0] == SendFetch && SendFetch !in r[1..]
    // the page is touched only for a response that has ok, found and a payload
    ensures !CarriesPayload(reply) ==> r == [] || r == [SendFetch]
    ensures isReceiving && DetectService(page.href).Some? && CarriesPayload(reply) ==>
      r == [SendFetch] + ApplyPayload(DetectService(page.href).value, reply.payload.value, page)
  {
    if !isReceiving then []
    else
      var service := DetectService(page.href);
      if service.None? then []
      else if !CarriesPayload(reply) then [SendFetch]
      else
        var applied := ApplyPayload(service.value, reply.payload.value, page);
        assert applied == ([SendFetch] + applied)[1..];
        [SendFetch] + applied
  }
}
