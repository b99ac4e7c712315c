/** The page shell: the API and socket base addresses, and the navigation
    between the four pages of the single-page client. */
module Shell {
  import opened Base
  import opened Text

  const DEFAULT_API_BASE: string := "http://127.0.0.1:8000"

  /** `window.API_BASE || window.location.origin || default`, with an absent
      value as `None`. */
  function ApiBase(configured: Option<string>, origin: Option<string>): (r: string)
    ensures configured.Some? && configured.value != "" ==> r == configured.value
    ensures !(configured.Some? && configured.value != "") && origin.Some? && origin.value != "" ==> r == origin.value
    ensures !(configured.Some? && configured.value != "") && !(origin.Some? && origin.value != "") ==>
              r == DEFAULT_API_BASE
    ensures r != ""
  {
    var fallback := if origin.Some? && origin.value != "" then origin.value else DEFAULT_API_BASE;
    if configured.Some? && configured.value != "" then configured.value else fallback
  }

  /** `WS_BASE`: the first `https` becomes `wss` when the base starts with
      it, otherwise the first `http` (wherever it is) becomes `ws`. */
  function WsBase(api: string): string
  {
    if StartsWith(api, "https") then ReplaceFirst(api, "https", "wss")
    else ReplaceFirst(api, "http", "ws")
  }

  /** For an `http`/`https` base the scheme is swapped and the rest of the
      address is kept; a secure base gives a secure socket and only then. */
  lemma WsBaseSwapsScheme(api: string)
    requires StartsWith(api, "http")
    ensures StartsWith(api, "https") ==> WsBase(api) == "wss" + api[5..]
    ensures !StartsWith(api, "https") ==> WsBase(api) == "ws" + api[4..]
    ensures StartsWith(WsBase(api), "wss") <==> StartsWith(api, "https")
  {
    if StartsWith(api, "https") {
      ReplaceFirstAtStart(api, "https", "wss");
    } else {
      ReplaceFirstAtStart(api, "http", "ws");
      var r := WsBase(api);
      if |api| >= 5 {
        assert r[2] == api[4];
      }
    }
  }

  /** The default base gives the plain socket address. */
  lemma WsBaseDefault()
    ensures WsBase(DEFAULT_API_BASE) == "ws://127.0.0.1:8000"
  {
    var d := DEFAULT_API_BASE;
    assert StartsWith(d, "http") && !StartsWith(d, "https") by {
      assert d[..4] == "http" && d[4] == ':';
    }
    WsBaseSwapsScheme(d);
    assert "ws" + d[4..] == "ws://127.0.0.1:8000";
  }

  /** Whatever the page is configured with, the socket base is never empty:
      the API base is not, and swapping a scheme shortens it by two
      characters at most while `http` is four. */
  lemma WsBaseNonEmpty(configured: Option<string>, origin: Option<string>)
    ensures |WsBase(ApiBase(configured, origin))| > 0
  {
    var api := ApiBase(configured, origin);
    if StartsWith(api, "https") {
      assert IndexOf(api, "https").Some? by {
        ReplaceFirstAtStart(api, "https", "wss");
      }
    }
    var pat := if StartsWith(api, "https") then "https" else "http";
    match IndexOf(api, pat)
    case None =>
    case Some(i) =>
  }

  /** A base that does not contain `http` anywhere is used unchanged. */
  lemma WsBaseWithoutHttp(api: string)
    requires IndexOf(api, "http").None?
    ensures WsBase(api) == api
  {
  }

  // ---------------------------------------------------------------------
  // Navigation.

  /** The element id of a page: `${page}Page`, where a missing page (a link
      without `data-page` gives `null`) is written `null`. */
  function PageId(page: Option<string>): string
  {
    (if page.Some? then page.value else "null") + "Page"
  }

  /** The shell: the element ids present in the document, the `data-page`
      of each navigation link (`None` when missing), which links are
      highlighted, which page elements are shown, and the current page
      (`None` once a link without `data-page` has been clicked). */
  datatype Nav = Nav(
    ids: set<string>,
    links: seq<Option<string>>,
    linkActive: seq<bool>,
    shown: set<string>,
    current: Option<string>)

  /** Exactly the current page's element is shown (when it exists) and
      exactly the links whose `data-page` is the current page are
      highlighted. */
  predicate Valid(nav: Nav) {
    && |nav.linkActive| == |nav.links|
    && (forall i :: 0 <= i < |nav.links| ==> (nav.linkActive[i] <==> nav.links[i] == nav.current))
    && nav.shown == (if PageId(nav.current) in nav.ids then {PageId(nav.current)} else {})
  }

  /** `navigateTo(page)`, with `page` the clicked link's `data-page`. */
  function NavigateTo(nav: Nav, page: Option<string>): (r: Nav)
    ensures r.current == page && r.ids == nav.ids && r.links == nav.links
    ensures page == nav.current ==> r == nav
    ensures page != nav.current ==> |r.linkActive| == |r.links|
    ensures page != nav.current ==>
              forall i :: 0 <= i < |r.links| ==> (r.linkActive[i] <==> r.links[i] == page)
    ensures page != nav.current ==>
              r.shown == (nav.shown - {PageId(nav.current)})
                         + (if PageId(page) in nav.ids then {PageId(page)} else {})
  {
    if nav.current == page then nav
    else
      var highlighted := seq(|nav.links|, i requires 0 <= i < |nav.links| => nav.links[i] == page);
      var shown := nav.shown - {PageId(nav.current)};
      nav.(linkActive := highlighted,
           shown := if PageId(page) in nav.ids then shown + {PageId(page)} else shown,
           current := page)
  }

  /** Navigation keeps exactly one page shown, the target's, and the links
      in step with it. */
  lemma NavigateKeepsValid(nav: Nav, page: Option<string>)
    requires Valid(nav)
    ensures Valid(NavigateTo(nav, page))
    ensures PageId(page) in nav.ids ==> NavigateTo(nav, page).shown == {PageId(page)}
  {
  }

  /** Navigating twice to the same page is the same as navigating once. */
  lemma NavigateIdempotent(nav: Nav, page: Option<string>)
    ensures NavigateTo(NavigateTo(nav, page), page) == NavigateTo(nav, page)
  {
  }

  /** Clicking a link without `data-page` navigates to `null`: exactly the
      links without `data-page` are highlighted, and the current page is
      hidden unless the document has a `nullPage` element. */
  lemma NavigateToNull(nav: Nav)
    requires Valid(nav) && nav.current.Some?
    ensures var r := NavigateTo(nav, None);
      && r.current.None?
      && (forall i :: 0 <= i < |r.links| ==> (r.linkActive[i] <==> r.links[i].None?))
      && r.shown == (if "nullPage" in nav.ids then {"nullPage"} else {})
  {
    assert PageId(None) == "nullPage";
  }
}
