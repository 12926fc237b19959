/**
 * The page context of a chat turn: `getCurrentTabDocument` of
 * `src/hooks/chat-modes/normalChatModeWithPageContext.ts` (and the same
 * filter written inline in `normalChatMode` of `src/hooks/useMessage.tsx`)
 * turns the active tab into a single `tab` document unless the tab lacks an
 * id, a title or a URL, or its URL is an internal browser or extension page;
 * the page text is then what `getTabContents` returns for that document.
 *
 * `browser.tabs.query` and `getTabContents` are inputs, each either a value
 * or a failure.
 */
module ActiveTab {
  import opened Wrappers
  import opened Text
  import opened Transcript

  /** The fields of a browser tab the filter reads; a missing field is `None`. */
  datatype Tab = Tab(id: Option<int>, title: Option<string>, url: Option<string>, favIconUrl: Option<string>)

  datatype Failure = Failure

  const InternalSchemes := ["chrome://", "edge://", "brave://", "firefox://", "chrome-extension://", "moz-extension://"]

  /** `!!activeTab.id`: present and not 0. */
  predicate HasId(t: Tab) { t.id.Some? && t.id.value != 0 }

  predicate HasTitle(t: Tab) { t.title.Some? && t.title.value != "" }

  predicate HasUrl(t: Tab) { t.url.Some? && t.url.value != "" }

  /** The six `startsWith` tests on the lower-cased URL. */
  predicate IsInternalPage(url: string) {
    var u := ToLowerAscii(url);
    StartsWith(u, "chrome://") || StartsWith(u, "edge://") || StartsWith(u, "brave://")
    || StartsWith(u, "firefox://") || StartsWith(u, "chrome-extension://") || StartsWith(u, "moz-extension://")
  }

  /** The documents for the active tab; `tabs` is the result of the tab query. */
  function CurrentTabDocument(tabs: Result<seq<Tab>, Failure>): seq<ChatDocument> {
    if tabs.Err? || |tabs.value| == 0 then []
    else
      var t := tabs.value[0];
      if !HasId(t) || !HasTitle(t) || !HasUrl(t) then []
      else if IsInternalPage(t.url.value) then []
      else [TabDocument(t.title.value, t.url.value, t.id.value, t.favIconUrl)]
  }

  /**
   * There is exactly one document, the active tab's, when the query succeeded
   * with a tab that has an id, a title and a URL outside the internal
   * schemes; otherwise there is none.
   */
  lemma TabDocumentExactly(tabs: Result<seq<Tab>, Failure>)
    ensures var docs := CurrentTabDocument(tabs);
      var ok := tabs.Ok? && |tabs.value| > 0 && HasId(tabs.value[0]) && HasTitle(tabs.value[0])
                && HasUrl(tabs.value[0])
                && !(exists k :: 0 <= k < |InternalSchemes| && StartsWith(ToLowerAscii(tabs.value[0].url.value), InternalSchemes[k]));
      && (ok ==> docs == [TabDocument(tabs.value[0].title.value, tabs.value[0].url.value,
                                      tabs.value[0].id.value, tabs.value[0].favIconUrl)])
      && (!ok ==> docs == [])
  {
    if tabs.Ok? && |tabs.value| > 0 && HasUrl(tabs.value[0]) {
      var u := ToLowerAscii(tabs.value[0].url.value);
      if StartsWith(u, "chrome://") { assert StartsWith(u, InternalSchemes[0]); }
      if StartsWith(u, "edge://") { assert StartsWith(u, InternalSchemes[1]); }
      if StartsWith(u, "brave://") { assert StartsWith(u, InternalSchemes[2]); }
      if StartsWith(u, "firefox://") { assert StartsWith(u, InternalSchemes[3]); }
      if StartsWith(u, "chrome-extension://") { assert StartsWith(u, InternalSchemes[4]); }
      if StartsWith(u, "moz-extension://") { assert StartsWith(u, InternalSchemes[5]); }
    }
  }

  /** Case does not matter: an upper-case internal scheme is filtered out as well. */
  lemma UpperCaseSchemeFiltered(rest: string)
    ensures IsInternalPage("CHROME://" + rest)
  {
    var u := ToLowerAscii("CHROME://" + rest);
    assert u[..9] == "chrome://";
  }

  /**
   * The page text of a turn: fetched only when page context is on and there
   * is a tab document, and empty when fetching it fails.
   */
  function PageContext(includePageContext: bool, docs: seq<ChatDocument>, contents: Result<string, Failure>): string {
    if !includePageContext || |docs| == 0 then ""
    else if contents.Err? then ""
    else contents.value
  }

  /** Page text is non-empty only with page context on, a tab document, and a successful fetch returning it. */
  lemma PageContextOnlyWhenIncluded(includePageContext: bool, docs: seq<ChatDocument>, contents: Result<string, Failure>)
    ensures var pc := PageContext(includePageContext, docs, contents);
      pc != "" <==> includePageContext && |docs| > 0 && contents.Ok? && contents.value != ""
  {
  }
}
