/** The page footer's link to the backend's API documentation. */
module Footer {
  import opened Optional
  import opened JsStrings

  /** The URL used when no `backendUrl` is passed. */
  const DefaultBackendUrl: string := "http://localhost:8000/docs"
  const HttpScheme: string := "http://"

  /** The rendered anchor: where it points and what it shows. */
  datatype Link = Link(href: string, text: string)

  /** The URL after the default parameter is applied. */
  function BackendUrl(backendUrl: Option<string>): (url: string)
    ensures backendUrl.Some? ==> url == backendUrl.value
    ensures backendUrl.None? ==> url == DefaultBackendUrl
  {
    match backendUrl
    case Some(u) => u
    case None => DefaultBackendUrl
  }

  /** The link text: the URL with its first "http://" removed. */
  function DisplayText(url: string): (text: string)
    ensures (forall k: nat :: !OccursAt(url, HttpScheme, k)) ==> text == url
    ensures (exists k: nat :: OccursAt(url, HttpScheme, k)) ==> |text| == |url| - 7
  {
    RemoveFirst(url, HttpScheme)
  }

  /** The footer's anchor: the target is the URL untouched, the text is its display form. */
  function RenderLink(backendUrl: Option<string>): (link: Link)
    ensures link.href == BackendUrl(backendUrl)
    ensures |link.text| <= |link.href|
  {
    var url := BackendUrl(backendUrl);
    Link(url, DisplayText(url))
  }

  /** The display text is the URL with the characters of its first "http://" cut out, and nothing else changed. */
  lemma DisplayRemovesFirstScheme(url: string) returns (i: nat)
    requires exists k: nat :: OccursAt(url, HttpScheme, k)
    ensures OccursAt(url, HttpScheme, i)
    ensures forall k: nat :: k < i ==> !OccursAt(url, HttpScheme, k)
    ensures DisplayText(url) == url[..i] + url[i + 7..]
    ensures url == DisplayText(url)[..i] + HttpScheme + DisplayText(url)[i..]
  {
    i := IndexOf(url, HttpScheme).value;
    var d := DisplayText(url);
    assert d == url[..i] + url[i + 7..];
    assert d[..i] == url[..i];
    assert d[i..] == url[i + 7..];
    assert url[i..i + 7] == HttpScheme;
    assert url == url[..i] + url[i..i + 7] + url[i + 7..];
  }

  /** Without a `backendUrl`, the link points to the local API docs and reads "localhost:8000/docs". */
  lemma DefaultLink()
    ensures RenderLink(None) == Link("http://localhost:8000/docs", "localhost:8000/docs")
  {
    assert OccursAt(DefaultBackendUrl, HttpScheme, 0);
    assert DefaultBackendUrl[7..] == "localhost:8000/docs";
  }

  /** A URL that starts with "http://" loses exactly that prefix, as with "http://example.com:3000/api". */
  lemma DisplayDropsLeadingScheme(rest: string)
    ensures DisplayText(HttpScheme + rest) == rest
  {
  }
}
