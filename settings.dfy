/** The extension's settings and the pure helpers around them: defaulting of
    stored settings, URL-pattern matching, selector lookup and auth headers. */
module Settings {
  import opened Common

  datatype TargetSelector = TargetSelector(urlPattern: string, selector: string)

  datatype Settings = Settings(serverUrl: string, apiKey: string, targetSelectors: seq<TargetSelector>)

  const DefaultServerUrl := "http://localhost:5000"

  const DefaultSelectors := [
    TargetSelector("gemini.google.com", "div[contenteditable=\"true\"]"),
    TargetSelector("chatgpt.com", "#prompt-textarea"),
    TargetSelector("claude.ai", "div[contenteditable=\"true\"]")
  ]

  const DefaultSettings := Settings(DefaultServerUrl, "", DefaultSelectors)

  /** What the settings storage hands back. A string field is None when the
      stored value is missing and Some(v) for a stored string v, the empty one
      included; `targetSelectors` is either an array of entries or some other
      value. */
  datatype StoredSelectors = SelectorArray(entries: seq<TargetSelector>) | NotAnArray
  datatype StoredSettings = StoredSettings(serverUrl: Option<string>, apiKey: Option<string>,
                                           targetSelectors: StoredSelectors)

  /** The normalisation `getSettings` applies to what it reads. */
  function NormalizeSettings(stored: StoredSettings): (s: Settings)
    // a falsy server URL falls back to the default, any other is kept
    ensures Truthy(stored.serverUrl) ==> s.serverUrl == stored.serverUrl.value
    ensures !Truthy(stored.serverUrl) ==> s.serverUrl == "http://localhost:5000"
    ensures s.serverUrl != ""
    // a falsy key becomes the empty key
    ensures s.apiKey == stored.apiKey.GetOr("")
    // an array of selectors, even an empty one, is kept; anything else is replaced
    // by the three default entries
    ensures stored.targetSelectors.SelectorArray? ==> s.targetSelectors == stored.targetSelectors.entries
    ensures stored.targetSelectors.NotAnArray? ==>
      |s.targetSelectors| == 3 && s.targetSelectors == DefaultSettings.targetSelectors
  {
    Settings(
      if Truthy(stored.serverUrl) then stored.serverUrl.value else DefaultSettings.serverUrl,
      if Truthy(stored.apiKey) then stored.apiKey.value else DefaultSettings.apiKey,
      match stored.targetSelectors
      case SelectorArray(entries) => entries
      case NotAnArray => DefaultSettings.targetSelectors)
  }

  /** Settings written back to storage as they are. */
  function Store(s: Settings): StoredSettings {
    StoredSettings(Some(s.serverUrl), Some(s.apiKey), SelectorArray(s.targetSelectors))
  }

  /** Normalising is idempotent: storing normalised settings and reading them
      back gives the same settings. */
  lemma NormalizeIsIdempotent(stored: StoredSettings)
    ensures NormalizeSettings(Store(NormalizeSettings(stored))) == NormalizeSettings(stored)
  {
  }

  /** JavaScript's RegExp, abstractly: whether `new RegExp(pattern)` succeeds,
      and whether the compiled pattern matches a string. */
  datatype RegexEngine = RegexEngine(compiles: string -> bool, test: (string, string) -> bool)

  function UrlMatchesPattern(href: string, pattern: string, re: RegexEngine): (m: bool)
    // a valid pattern is matched as a regular expression ...
    ensures re.compiles(pattern) ==> (m <==> re.test(pattern, href))
    // ... an invalid one falls back to substring containment
    ensures !re.compiles(pattern) ==> (m <==> Contains(href, pattern))
  {
    if re.compiles(pattern) then re.test(pattern, href) else Contains(href, pattern)
  }

  predicate EntryMatches(href: string, selectors: seq<TargetSelector>, i: int, re: RegexEngine)
    requires 0 <= i < |selectors|
  {
    UrlMatchesPattern(href, selectors[i].urlPattern, re)
  }

  /** The selector of the first entry whose URL pattern matches `href`
      (None stands for null). */
  function FindMatchingSelector(href: string, selectors: seq<TargetSelector>, re: RegexEngine):
    (r: Option<string>)
    ensures r.None? <==> forall i :: 0 <= i < |selectors| ==> !EntryMatches(href, selectors, i, re)
    ensures r.Some? ==>
      exists i :: 0 <= i < |selectors| && EntryMatches(href, selectors, i, re) &&
                  r.value == selectors[i].selector &&
                  (forall j :: 0 <= j < i ==> !EntryMatches(href, selectors, j, re))
    decreases |selectors|
  {
    if selectors == [] then None
    else if UrlMatchesPattern(href, selectors[0].urlPattern, re) then
      assert EntryMatches(href, selectors, 0, re);
      Some(selectors[0].selector)
    else
      var r := FindMatchingSelector(href, selectors[1..], re);
      assert forall i :: 1 <= i < |selectors| ==>
        EntryMatches(href, selectors, i, re) == EntryMatches(href, selectors[1..], i - 1, re);
      if r.Some? then
        var k :| 0 <= k < |selectors| - 1 && EntryMatches(href, selectors[1..], k, re) &&
          r.value == selectors[1..][k].selector &&
          (forall j :: 0 <= j < k ==> !EntryMatches(href, selectors[1..], j, re));
        assert EntryMatches(href, selectors, k + 1, re);
        r
      else
        r
  }

  /** The headers sent with every request to the relay server. The key's
      `|| ''` fallback gives back the empty string for the empty key, so the
      key is carried as it is. */
  function BuildAuthHeaders(apiKey: string): (h: map<string, string>)
    ensures h.Keys == {"Content-Type", "X-Api-Key"} && "Content-Type" in h && "X-Api-Key" in h
    ensures h["Content-Type"] == "application/json"
    ensures h["X-Api-Key"] == apiKey
  {
    map["Content-Type" := "application/json", "X-Api-Key" := apiKey]
  }
}
