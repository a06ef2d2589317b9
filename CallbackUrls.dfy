/**
  The callback URLs the app is opened with, and the decision `handleOpenURL`
  takes on them before it touches the registry or the SDK.

  A URL arrives already split by Foundation: `scheme` and `host` may be
  missing, `path` is always present, and `queryItems` is `None` when the URL
  has no query or `URLComponents` cannot read it.
*/
module CallbackUrls {
  import opened Options

  /** `ExpandableTextViewApp.appURLScheme`. */
  const AppUrlScheme := "xtextview-demo"
  /** The host every x-callback-url callback carries. */
  const CallbackHost := "x-callback-url"
  /** Path prefix of a snippets-sync completion. */
  const SnippetsPathPrefix := "/TextExpander"
  /** Name of the query item that names the coordinator of a fill-in completion. */
  const TextIdName := "textID"

  datatype QueryItem = QueryItem(name: string, value: Option<string>)

  datatype Url = Url(
    scheme: Option<string>,
    host: Option<string>,
    path: string,
    queryItems: Option<seq<QueryItem>>)

  /** What `handleOpenURL` does with a URL, before any registry lookup. */
  datatype Route =
    | NotCallback                             // not for this app: ignored
    | SnippetsSync                            // reply to a get-snippets request
    | FillCompletion(textID: Option<string>)  // reply to a fill-in, maybe naming its coordinator

  /** `String.hasPrefix`, comparing character by character. */
  function HasPrefix(s: string, prefix: string): (r: bool)
    ensures r <==> |prefix| <= |s| && forall i :: 0 <= i < |prefix| ==> s[i] == prefix[i]
  {
    |prefix| <= |s| && s[..|prefix|] == prefix
  }

  /** The guard of `handleOpenURL`: exact scheme and exact host. */
  function IsCallback(url: Url): (r: bool)
    ensures r <==> url.scheme == Some("xtextview-demo") && url.host == Some("x-callback-url")
  {
    url.scheme == Some(AppUrlScheme) && url.host == Some(CallbackHost)
  }

  /** Index of the first item called `name`, as `Array.first(where:)` finds it. */
  function FirstNamed(items: seq<QueryItem>, name: string): (r: Option<nat>)
    ensures r.Some? ==> r.value < |items| && items[r.value].name == name
    ensures r.Some? ==> forall j :: 0 <= j < r.value ==> items[j].name != name
    ensures r.None? <==> forall j :: 0 <= j < |items| ==> items[j].name != name
  {
    if items == [] then None
    else if items[0].name == name then Some(0)
    else
      match FirstNamed(items[1..], name)
      case Some(k) => Some(k + 1)
      case None => None
  }

  /** The `URL.textID` extension: the value of the first query item named "textID". */
  function TextId(url: Url): (r: Option<string>)
    ensures r.Some? ==> url.queryItems.Some?
    ensures r.Some? ==>
              exists i ::
                && 0 <= i < |url.queryItems.value|
                && url.queryItems.value[i] == QueryItem(TextIdName, r)
                && forall j :: 0 <= j < i ==> url.queryItems.value[j].name != TextIdName
    ensures r.None? <==>
      || url.queryItems.None?
      || (forall j :: 0 <= j < |url.queryItems.value| ==> url.queryItems.value[j].name != TextIdName)
      || url.queryItems.value[FirstNamed(url.queryItems.value, TextIdName).value].value.None?
  {
    match url.queryItems
    case None => None
    case Some(items) =>
      match FirstNamed(items, TextIdName)
      case None => None
      case Some(i) => items[i].value
  }

  /** The branches of `handleOpenURL`, in the order it tests them. */
  function Classify(url: Url): (r: Route)
    ensures r.NotCallback? <==> !IsCallback(url)
    ensures r.SnippetsSync? <==> IsCallback(url) && HasPrefix(url.path, SnippetsPathPrefix)
    ensures r.FillCompletion? ==> r.textID == TextId(url)
  {
    if !IsCallback(url) then NotCallback
    else if HasPrefix(url.path, SnippetsPathPrefix) then SnippetsSync
    else FillCompletion(TextId(url))
  }

  /** A query item called "textID" after the first one never changes the route. */
  lemma {:induction false} LaterTextIdIgnored(url: Url, value: Option<string>)
    requires url.queryItems.Some?
    requires exists j :: 0 <= j < |url.queryItems.value| && url.queryItems.value[j].name == TextIdName
    ensures TextId(url.(queryItems := Some(url.queryItems.value + [QueryItem(TextIdName, value)]))) == TextId(url)
  {
    var items := url.queryItems.value;
    var more := items + [QueryItem(TextIdName, value)];
    var k := FirstNamed(items, TextIdName).value;
    FirstNamedOfExtension(items, [QueryItem(TextIdName, value)], TextIdName);
    assert more[k] == items[k];
  }

  /** Appending items does not move the first match of a name already present. */
  lemma {:induction false} FirstNamedOfExtension(items: seq<QueryItem>, tail: seq<QueryItem>, name: string)
    requires FirstNamed(items, name).Some?
    ensures FirstNamed(items + tail, name) == FirstNamed(items, name)
  {
    if items[0].name != name {
      assert (items + tail)[1..] == items[1..] + tail;
      FirstNamedOfExtension(items[1..], tail, name);
    }
  }
}
