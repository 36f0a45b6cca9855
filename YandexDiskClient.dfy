/**
 * The Yandex.Disk REST client's own logic: the libcurl write callback that
 * collects a response body, the rule that turns a JSON response into a link
 * or an error, and the text listing of a directory's resources.
 *
 * libcurl and the JSON parser are outside the model. What the client asks of
 * them is a value of type Env: whether a curl handle could be created, the
 * escaping function, and the request-and-parse step for a URL.
 */
module YandexDiskClient {
  import opened Wrappers
  import opened Json
  import opened Text

  // ---------------------------------------------------------------------------
  // WriteCallback
  // ---------------------------------------------------------------------------

  newtype byte = x: int | 0 <= x < 256

  /** One more than the largest value of the 64-bit `size_t`. */
  const SizeModulus: nat := 0x1_0000_0000_0000_0000

  /** `size * nmemb` computed in `size_t`, which wraps around. */
  function SizeMul(size: nat, nmemb: nat): (r: nat)
    requires size < SizeModulus && nmemb < SizeModulus
    ensures r < SizeModulus
    ensures size * nmemb < SizeModulus ==> r == size * nmemb
    ensures size == 0 || nmemb == 0 ==> r == 0
  {
    (size * nmemb) % SizeModulus
  }

  /** The `std::string` a request's body is collected in. */
  class ResponseBuffer {
    var bytes: seq<byte>

    constructor ()
      ensures bytes == []
    {
      bytes := [];
    }
  }

  /**
   * The write callback handed to libcurl: appends the first `size * nmemb`
   * bytes of `contents` to the buffer and reports that many as consumed.
   */
  method WriteCallback(contents: array<byte>, size: nat, nmemb: nat, userp: ResponseBuffer)
    returns (consumed: nat)
    requires size < SizeModulus && nmemb < SizeModulus
    requires SizeMul(size, nmemb) <= contents.Length
    modifies userp
    ensures consumed == SizeMul(size, nmemb)
    ensures |userp.bytes| == |old(userp.bytes)| + consumed
    ensures userp.bytes[..|old(userp.bytes)|] == old(userp.bytes)
    ensures userp.bytes[|old(userp.bytes)|..] == contents[..consumed]
  {
    consumed := SizeMul(size, nmemb);
    userp.bytes := userp.bytes + contents[..consumed];
  }

  // ---------------------------------------------------------------------------
  // getLinkByKey and the three lookups built on it
  // ---------------------------------------------------------------------------

  const ResourcesEndpoint := "https://cloud-api.yandex.net/v1/disk/resources?path="
  const UploadEndpoint := "https://cloud-api.yandex.net/v1/disk/resources/upload?path="
  const DownloadEndpoint := "https://cloud-api.yandex.net/v1/disk/resources/download?path="

  const DefaultExtraParams := ""
  const DefaultErrorMessage := "Link not found for the given key"
  const NotPublishedMessage := "The file or directory has not been published! Use publish() method to publish it."
  const UploadUrlMissingMessage := "Upload URL not found in API response."
  const DownloadUrlMissingMessage := "Download URL not found in API response."
  const ApiErrorPrefix := "Yandex.Disk API error: "
  const CurlInitFailed := "curl_easy_init() failed"
  const EscapeFailed := "curl_easy_escape() failed"

  /**
   * What the client needs from libcurl and the JSON parser:
   * `curlInit` is whether `curl_easy_init` returned a handle, `escape` is
   * `curl_easy_escape` (None for its null result), and `fetch` sends a GET
   * to a URL and parses the body (`performRequest` followed by `json::parse`),
   * failing with the transport's or the parser's exception.
   * Only the input of `escape` is cut at its first NUL (see CStr): its
   * output is appended as a `char*`, which would stop at a NUL too, but
   * `curl_easy_escape` percent-encodes every byte that is not a letter,
   * digit or one of `-._~`, so it never emits one.
   */
  datatype Env = Env(
    curlInit: bool,
    escape: string -> Option<string>,
    fetch: string -> Result<Body, Error>)

  /**
   * The C string a `std::string` hands over through `c_str()`: everything
   * before its first NUL, since `curl_easy_escape` with length 0 measures
   * the input with `strlen`.
   */
  function CStr(s: string): (r: string)
    ensures |r| <= |s| && r == s[..|r|]
    ensures '\0' !in r
    ensures |r| < |s| ==> s[|r|] == '\0'
    ensures '\0' !in s ==> r == s
  {
    if s == [] || s[0] == '\0' then [] else [s[0]] + CStr(s[1..])
  }

  /** The request URL: endpoint, escaped path and extra query parameters, in that order. */
  function RequestUrl(endpoint: string, escaped: string, extraParams: string): (url: string)
    ensures |url| == |endpoint| + |escaped| + |extraParams|
    ensures url[..|endpoint|] == endpoint
    ensures url[|endpoint|..|endpoint| + |escaped|] == escaped
    ensures url[|endpoint| + |escaped|..] == extraParams
  {
    endpoint + escaped + extraParams
  }

  /**
   * The URL a lookup of `path` requests, or None when no request is made
   * because a curl handle or the escaped path could not be obtained.
   */
  function RequestedUrl(env: Env, path: string, endpoint: string, extraParams: string): (r: Option<string>)
    ensures r.Some? <==> env.curlInit && env.escape(CStr(path)).Some?
    ensures r.Some? ==> r.value == RequestUrl(endpoint, env.escape(CStr(path)).value, extraParams)
  {
    if !env.curlInit then None
    else match env.escape(CStr(path))
      case None => None
      case Some(escaped) => Some(RequestUrl(endpoint, escaped, extraParams))
  }

  /** The three branches `getLinkByKey` chooses between once it has a response. */
  datatype Branch = ReturnField | ApiErrorField | CallerMessage

  /** The branch taken for a response: mutually exclusive by construction, and exhaustive. */
  function Decide(b: Body, key: string): (r: Branch)
    ensures r == ReturnField <==> Contains(b, key) && Get(b, key) != Null
    ensures r == ApiErrorField <==> !(Contains(b, key) && Get(b, key) != Null) && Contains(b, "error")
    ensures r == CallerMessage <==> !(Contains(b, key) && Get(b, key) != Null) && !Contains(b, "error")
  {
    if Contains(b, key) && Get(b, key) != Null then ReturnField
    else if Contains(b, "error") then ApiErrorField
    else CallerMessage
  }

  /**
   * What `getLinkByKey` returns or throws for a parsed response. A present,
   * non-null field wins even when the response also carries `error`; reading
   * a field that is not a string throws the JSON library's type error.
   */
  function Interpret(b: Body, key: string, errorMsg: string): (r: Result<string, Error>)
    ensures r.Ok? <==> Contains(b, key) && Get(b, key).Str?
    ensures Contains(b, key) && Get(b, key).Str? ==> r == Ok(Get(b, key).s)
    ensures Contains(b, key) && Get(b, key).Other? ==> r == Err(TypeError(Other))
    ensures Decide(b, key) == ApiErrorField && Get(b, "error").Str? ==>
              r == Err(RuntimeError(ApiErrorPrefix + Get(b, "error").s))
    ensures Decide(b, key) == ApiErrorField && !Get(b, "error").Str? ==>
              r == Err(TypeError(Get(b, "error")))
    ensures Decide(b, key) == CallerMessage ==> r == Err(RuntimeError(errorMsg))
  {
    match Decide(b, key)
    case ReturnField => AsString(Get(b, key))
    case ApiErrorField =>
      var message :- AsString(Get(b, "error"));
      Err(RuntimeError(ApiErrorPrefix + message))
    case CallerMessage => Err(RuntimeError(errorMsg))
  }

  /**
   * How a lookup's result `r` relates to the URL it requested: without a
   * request it fails with one of the two libcurl messages; a failed request
   * propagates its error; otherwise the response is interpreted.
   */
  predicate Responds(env: Env, url: Option<string>, key: string, errorMsg: string, r: Result<string, Error>) {
    match url
    case None => r == Err(RuntimeError(CurlInitFailed)) || r == Err(RuntimeError(EscapeFailed))
    case Some(u) =>
      match env.fetch(u)
      case Err(e) => r == Err(e)
      case Ok(b) => r == Interpret(b, key, errorMsg)
  }

  /** `getLinkByKey`: request `endpoint + escape(path) + extraParams`, then read `key`. */
  function GetLinkByKey(env: Env, path: string, endpoint: string, key: string,
                        extraParams: string, errorMsg: string): (r: Result<string, Error>)
    ensures Responds(env, RequestedUrl(env, path, endpoint, extraParams), key, errorMsg, r)
    ensures !env.curlInit ==> r == Err(RuntimeError(CurlInitFailed))
    ensures env.curlInit && env.escape(CStr(path)).None? ==> r == Err(RuntimeError(EscapeFailed))
  {
    if !env.curlInit then Err(RuntimeError(CurlInitFailed))
    else
      match env.escape(CStr(path))
      case None => Err(RuntimeError(EscapeFailed))
      case Some(escaped) =>
        var b :- env.fetch(RequestUrl(endpoint, escaped, extraParams));
        Interpret(b, key, errorMsg)
  }

  /** `getLinkByKey` called with its default extra parameters and error message. */
  function GetLinkByKeyWithDefaults(env: Env, path: string, endpoint: string, key: string): (r: Result<string, Error>)
    ensures Responds(env, RequestedUrl(env, path, endpoint, DefaultExtraParams), key, DefaultErrorMessage, r)
  {
    GetLinkByKey(env, path, endpoint, key, DefaultExtraParams, DefaultErrorMessage)
  }

  /** The result of a lookup depends on the environment only through the one URL it requests. */
  lemma LookupReadsOnlyRequestedUrl(env1: Env, env2: Env, path: string, endpoint: string, key: string,
                                    extraParams: string, errorMsg: string)
    requires env1.curlInit == env2.curlInit
    requires env1.escape(CStr(path)) == env2.escape(CStr(path))
    requires RequestedUrl(env1, path, endpoint, extraParams).Some? ==>
               var u := RequestedUrl(env1, path, endpoint, extraParams).value;
               env1.fetch(u) == env2.fetch(u)
    ensures GetLinkByKey(env1, path, endpoint, key, extraParams, errorMsg)
         == GetLinkByKey(env2, path, endpoint, key, extraParams, errorMsg)
  {
  }

  /** `getPublicDownloadLink`: the resource's `public_url`, from its metadata. */
  function GetPublicDownloadLink(env: Env, path: string): (r: Result<string, Error>)
    ensures Responds(env, RequestedUrl(env, path, ResourcesEndpoint, ""), "public_url", NotPublishedMessage, r)
    ensures !env.curlInit ==> r == Err(RuntimeError(CurlInitFailed))
    ensures env.curlInit && env.escape(CStr(path)).None? ==> r == Err(RuntimeError(EscapeFailed))
  {
    GetLinkByKey(env, path, ResourcesEndpoint, "public_url", "", NotPublishedMessage)
  }

  /** `getUploadUrl`: the `href` for an upload that overwrites an existing file. */
  function GetUploadUrl(env: Env, uploadDiskPath: string): (r: Result<string, Error>)
    ensures Responds(env, RequestedUrl(env, uploadDiskPath, UploadEndpoint, "&overwrite=true"),
                     "href", UploadUrlMissingMessage, r)
    ensures !env.curlInit ==> r == Err(RuntimeError(CurlInitFailed))
    ensures env.curlInit && env.escape(CStr(uploadDiskPath)).None? ==> r == Err(RuntimeError(EscapeFailed))
  {
    GetLinkByKey(env, uploadDiskPath, UploadEndpoint, "href", "&overwrite=true", UploadUrlMissingMessage)
  }

  /** `getDownloadUrl`: the `href` to download a file from. */
  function GetDownloadUrl(env: Env, downloadDiskPath: string): (r: Result<string, Error>)
    ensures Responds(env, RequestedUrl(env, downloadDiskPath, DownloadEndpoint, ""),
                     "href", DownloadUrlMissingMessage, r)
    ensures !env.curlInit ==> r == Err(RuntimeError(CurlInitFailed))
    ensures env.curlInit && env.escape(CStr(downloadDiskPath)).None? ==> r == Err(RuntimeError(EscapeFailed))
  {
    GetLinkByKey(env, downloadDiskPath, DownloadEndpoint, "href", "", DownloadUrlMissingMessage)
  }

  /**
   * A resource whose metadata has no `public_url` (or a null one) and no
   * `error` makes the public-link lookup fail with the not-published message.
   */
  lemma PublicLinkOfUnpublished(env: Env, path: string, b: Body)
    requires env.curlInit && env.escape(CStr(path)).Some?
    requires env.fetch(ResourcesEndpoint + env.escape(CStr(path)).value) == Ok(b)
    requires !Contains(b, "public_url") || Get(b, "public_url") == Null
    requires !Contains(b, "error")
    ensures GetPublicDownloadLink(env, path) == Err(RuntimeError(NotPublishedMessage))
  {
    assert ResourcesEndpoint + env.escape(CStr(path)).value + "" == ResourcesEndpoint + env.escape(CStr(path)).value;
  }

  /**
   * For the response to the upload request: a string `href` is returned
   * unchanged, and a response with neither `href` nor `error` yields the
   * upload-specific message.
   */
  lemma UploadUrlOutcomes(env: Env, path: string, b: Body)
    requires env.curlInit && env.escape(CStr(path)).Some?
    requires env.fetch(UploadEndpoint + env.escape(CStr(path)).value + "&overwrite=true") == Ok(b)
    ensures Contains(b, "href") && Get(b, "href").Str? ==> GetUploadUrl(env, path) == Ok(Get(b, "href").s)
    ensures !Contains(b, "href") && !Contains(b, "error") ==>
              GetUploadUrl(env, path) == Err(RuntimeError(UploadUrlMissingMessage))
  {
  }

  // ---------------------------------------------------------------------------
  // formatResourceList
  // ---------------------------------------------------------------------------

  /**
   * One element of `_embedded.items`: an object, with the fields the listing
   * reads and `public_url` absent when the resource has not been published,
   * or some other JSON value, on which `item["name"]` throws the JSON
   * library's type error.
   */
  datatype Item =
    | Item(name: JsonValue, resourceType: JsonValue, path: JsonValue, publicUrl: Option<JsonValue>)
    | NonObjectItem(value: JsonValue)

  /** The payload of a scalar `items`: any JSON value but null, which is `ItemsNull`. */
  type Scalar = v: JsonValue | !v.Null? witness Other

  /**
   * The value of `_embedded.items`, as the range-for loop sees it: an array
   * yields its elements, an object its values (in key order), null nothing,
   * and any other value is itself the one element.
   */
  datatype ItemsValue =
    | ItemsArray(elements: seq<Item>)
    | ItemsObject(values: seq<Item>)
    | ItemsNull
    | ItemsScalar(value: Scalar)

  /** The value of `_embedded`: an object holding `items`, or something else. */
  datatype Embedded = EmbeddedObject(items: ItemsValue) | EmbeddedNonObject(value: JsonValue)

  /** The resource-list response handed to `formatResourceList`. */
  datatype ListingResponse = ListingObject(embedded: Embedded) | ListingNonObject(value: JsonValue)

  /** The elements the loop visits, in order. */
  function Elements(items: ItemsValue): (es: seq<Item>)
    ensures items.ItemsArray? ==> es == items.elements
    ensures items.ItemsObject? ==> es == items.values
    ensures items.ItemsNull? ==> es == []
    ensures items.ItemsScalar? ==> es == [NonObjectItem(items.value)]
  {
    match items
    case ItemsArray(elements) => elements
    case ItemsObject(values) => values
    case ItemsNull => []
    case ItemsScalar(v) => [NonObjectItem(v)]
  }

  /**
   * `json["_embedded"]["items"]` on the const response: subscripting
   * anything but an object throws the JSON library's type error.
   */
  function ItemsOf(json: ListingResponse): (r: Result<seq<Item>, Error>)
    ensures json.ListingNonObject? ==> r == Err(TypeError(json.value))
    ensures json.ListingObject? && json.embedded.EmbeddedNonObject? ==> r == Err(TypeError(json.embedded.value))
    ensures json.ListingObject? && json.embedded.EmbeddedObject? ==> r == Ok(Elements(json.embedded.items))
  {
    match json
    case ListingNonObject(v) => Err(TypeError(v))
    case ListingObject(EmbeddedNonObject(v)) => Err(TypeError(v))
    case ListingObject(EmbeddedObject(items)) => Ok(Elements(items))
  }

  /** Every field the listing reads as a string is one. */
  predicate WellTyped(item: Item) {
    item.Item? && item.name.Str? && item.resourceType.Str? && item.path.Str?
    && (item.publicUrl.Some? ==> item.publicUrl.value.Str?)
  }

  predicate AllWellTyped(items: seq<Item>) {
    forall k :: 0 <= k < |items| ==> WellTyped(items[k])
  }

  /** A well-typed item none of whose strings holds a newline. */
  predicate NewlineFree(item: Item) {
    WellTyped(item) && '\n' !in item.name.s && '\n' !in item.resourceType.s && '\n' !in item.path.s
    && (item.publicUrl.Some? ==> '\n' !in item.publicUrl.value.s)
  }

  predicate AllNewlineFree(items: seq<Item>)
    ensures AllNewlineFree(items) ==> AllWellTyped(items)
  {
    forall k :: 0 <= k < |items| ==> NewlineFree(items[k])
  }

  /** The public URL of a well-typed item, if it has one. */
  function UrlOf(item: Item): Option<string>
    requires WellTyped(item)
  {
    match item.publicUrl
    case None => None
    case Some(v) => Some(v.s)
  }

  function PublicUrlLine(url: Option<string>): (r: string)
    ensures |r| >= 15 && r[..15] == "   Public URL: "
    ensures url.Some? ==> r[15..] == url.value
    ensures url.None? ==> r[15..] == "is missing"
  {
    match url
    case Some(u) => "   Public URL: " + u
    case None => "   Public URL: is missing"
  }

  /**
   * The five lines of the block for the item numbered idx, in the order the
   * stream receives them: index and name, type, path, public URL, and an
   * empty line.
   */
  function BlockLines(idx: nat, name: string, rtype: string, path: string, url: Option<string>): (ls: seq<string>)
    ensures |ls| == 5 && ls[4] == ""
    ensures |ls[0]| >= |Numeral(idx)| + 2 && ls[0][..|Numeral(idx)|] == Numeral(idx)
    ensures ls[0][|Numeral(idx)|..|Numeral(idx)| + 2] == ". " && ls[0][|Numeral(idx)| + 2..] == name
    ensures |ls[1]| >= 9 && ls[1][..9] == "   Type: " && ls[1][9..] == rtype
    ensures |ls[2]| >= 9 && ls[2][..9] == "   Path: " && ls[2][9..] == path
    ensures ls[3] == PublicUrlLine(url)
  {
    [Numeral(idx) + ". " + name, "   Type: " + rtype, "   Path: " + path, PublicUrlLine(url), ""]
  }

  /**
   * The block for one item, or the type error of the first field read
   * (name, type, path, then public_url) that is not a string.
   */
  function RenderItem(idx: nat, item: Item): (r: Result<string, Error>)
    ensures r.Ok? <==> WellTyped(item)
    ensures r.Ok? ==> r.value == Unlines(BlockLines(idx, item.name.s, item.resourceType.s, item.path.s, UrlOf(item)))
    ensures item.NonObjectItem? ==> r == Err(TypeError(item.value))
    ensures item.Item? && !item.name.Str? ==> r == Err(TypeError(item.name))
    ensures item.Item? && item.name.Str? && !item.resourceType.Str? ==> r == Err(TypeError(item.resourceType))
    ensures item.Item? && item.name.Str? && item.resourceType.Str? && !item.path.Str? ==> r == Err(TypeError(item.path))
    ensures item.Item? && item.name.Str? && item.resourceType.Str? && item.path.Str? && !WellTyped(item) ==>
              r == Err(TypeError(item.publicUrl.value))
  {
    if item.NonObjectItem? then Err(TypeError(item.value)) else
    var name :- AsString(item.name);
    var rtype :- AsString(item.resourceType);
    var path :- AsString(item.path);
    var url :- match item.publicUrl
      case None => Ok(None)
      case Some(v) => (var u :- AsString(v); Ok(Some(u)));
    Ok(Unlines(BlockLines(idx, name, rtype, path, url)))
  }

  /** The listing of items numbered from idx on: their blocks in order, or the first item's error. */
  function RenderFrom(items: seq<Item>, idx: nat): (r: Result<string, Error>)
    ensures items == [] ==> r == Ok("")
    ensures r.Ok? && items != [] ==> r.value != ""
    ensures r.Err? ==> r.error.TypeError?
    decreases |items|
  {
    if items == [] then Ok("")
    else
      var block :- RenderItem(idx, items[0]);
      var rest :- RenderFrom(items[1..], idx + 1);
      Ok(block + rest)
  }

  /** `s` written before whatever `r` produces, if it produces anything. */
  function Prepend(s: string, r: Result<string, Error>): Result<string, Error> {
    match r
    case Ok(t) => Ok(s + t)
    case Err(e) => Err(e)
  }

  lemma PrependAssociative(s: string, t: string, r: Result<string, Error>)
    ensures Prepend(s, Prepend(t, r)) == Prepend(s + t, r)
  {
    if r.Ok? {
      assert s + (t + r.value) == (s + t) + r.value;
    }
  }

  /** The listing from position i on starts with the block of item i. */
  lemma RenderFromStep(items: seq<Item>, i: nat, idx: nat)
    requires i < |items|
    ensures RenderItem(idx, items[i]).Err? ==> RenderFrom(items[i..], idx) == Err(RenderItem(idx, items[i]).error)
    ensures RenderItem(idx, items[i]).Ok? ==>
              RenderFrom(items[i..], idx) == Prepend(RenderItem(idx, items[i]).value, RenderFrom(items[i + 1..], idx + 1))
  {
    assert items[i..][0] == items[i] && items[i..][1..] == items[i + 1..];
  }

  /**
   * What `formatResourceList` returns or throws for a response: the listing
   * of the elements of `_embedded.items`, numbered from 1.
   */
  function Listing(json: ListingResponse): (r: Result<string, Error>)
    ensures json.ListingNonObject? ==> r == Err(TypeError(json.value))
    ensures json.ListingObject? && json.embedded.EmbeddedNonObject? ==> r == Err(TypeError(json.embedded.value))
    ensures json == ListingObject(EmbeddedObject(ItemsNull)) ==> r == Ok("")
    ensures json.ListingObject? && json.embedded.EmbeddedObject? && json.embedded.items.ItemsScalar? ==>
              r == Err(TypeError(json.embedded.items.value))
    ensures json.ListingObject? && json.embedded.EmbeddedObject? ==> r == RenderFrom(Elements(json.embedded.items), 1)
  {
    var items :- ItemsOf(json);
    RenderFrom(items, 1)
  }

  /**
   * `formatResourceList`: looks up `_embedded.items`, then writes the
   * listing of its elements.
   */
  method FormatResourceList(json: ListingResponse) returns (r: Result<string, Error>)
    ensures r == Listing(json)
    ensures json.ListingObject? && json.embedded.EmbeddedObject? && Elements(json.embedded.items) == [] ==> r == Ok("")
  {
    var items :- ItemsOf(json);
    r := WriteListing(items);
  }

  /**
   * One pass of the loop of `formatResourceList`: writes the block of the
   * item numbered idx after `out`, line by line as the stream receives it,
   * or throws the type error of the first field that is not a string.
   */
  method WriteBlock(out: string, idx: nat, item: Item) returns (r: Result<string, Error>)
    ensures r == Prepend(out, RenderItem(idx, item))
  {
    if item.NonObjectItem? {
      return Err(TypeError(item.value));
    }
    var buf := out;
    ghost var written: seq<string> := [];
    assert buf == out + Unlines(written);
    var name :- AsString(item.name);
    var line := Numeral(idx) + ". " + name;
    AppendLine(out, written, line);
    buf, written := buf + line + "\n", written + [line];
    var rtype :- AsString(item.resourceType);
    line := "   Type: " + rtype;
    AppendLine(out, written, line);
    buf, written := buf + line + "\n", written + [line];
    var path :- AsString(item.path);
    line := "   Path: " + path;
    AppendLine(out, written, line);
    buf, written := buf + line + "\n", written + [line];
    ghost var url: Option<string> := None;
    if item.publicUrl.Some? {
      var u :- AsString(item.publicUrl.value);
      line := "   Public URL: " + u;
      url := Some(u);
    } else {
      line := "   Public URL: is missing";
    }
    AppendLine(out, written, line);
    buf, written := buf + line + "\n", written + [line];
    AppendLine(out, written, "");
    assert buf + "" == buf;
    buf, written := buf + "\n", written + [""];
    assert written == BlockLines(idx, name, rtype, path, url);
    r := Ok(buf);
  }

  /**
   * The loop of `formatResourceList`: numbers the items from 1 and writes
   * each one's block to a growing string, stopping at the first error.
   */
  method WriteListing(items: seq<Item>) returns (r: Result<string, Error>)
    ensures r == RenderFrom(items, 1)
  {
    var out := "";
    var idx: nat := 1;
    var i := 0;
    assert items[i..] == items;
    assert RenderFrom(items, 1) == Prepend(out, RenderFrom(items, 1)) by {
      if RenderFrom(items, 1).Ok? {
        assert out + RenderFrom(items, 1).value == RenderFrom(items, 1).value;
      }
    }
    while i < |items|
      invariant 0 <= i <= |items|
      invariant idx == i + 1
      invariant RenderFrom(items, 1) == Prepend(out, RenderFrom(items[i..], idx))
    {
      RenderFromStep(items, i, idx);
      var written := WriteBlock(out, idx, items[i]);
      if written.Err? {
        return Err(written.error);
      }
      PrependAssociative(out, RenderItem(idx, items[i]).value, RenderFrom(items[i + 1..], idx + 1));
      out := written.value;
      idx := idx + 1;
      i := i + 1;
    }
    assert items[i..] == [] && out + "" == out;
    r := Ok(out);
  }

  /** The listing succeeds exactly when every item is well typed. */
  lemma {:induction false} RenderFromSucceeds(items: seq<Item>, idx: nat)
    ensures RenderFrom(items, idx).Ok? <==> forall k :: 0 <= k < |items| ==> WellTyped(items[k])
  {
    if items != [] {
      RenderFromSucceeds(items[1..], idx + 1);
      assert forall k :: 1 <= k < |items| ==> items[k] == items[1..][k - 1];
    }
  }

  /** A failing listing fails with the error of its first ill-typed item. */
  lemma {:induction false} RenderFromFirstError(items: seq<Item>, idx: nat, k: nat)
    requires k < |items| && !WellTyped(items[k])
    requires forall j :: 0 <= j < k ==> WellTyped(items[j])
    ensures RenderFrom(items, idx) == Err(RenderItem(idx + k, items[k]).error)
  {
    if k > 0 {
      RenderFromFirstError(items[1..], idx + 1, k - 1);
    }
  }

  /** The lines of the listing of well-typed items, block after block. */
  function ListingLines(items: seq<Item>, idx: nat): seq<string>
    requires AllWellTyped(items)
    decreases |items|
  {
    if items == [] then []
    else
      var it := items[0];
      assert WellTyped(items[0]);
      BlockLines(idx, it.name.s, it.resourceType.s, it.path.s, UrlOf(it)) + ListingLines(items[1..], idx + 1)
  }

  /** The listing of well-typed items is their lines, each ended by a newline. */
  lemma {:induction false} RenderFromText(items: seq<Item>, idx: nat)
    requires AllWellTyped(items)
    ensures RenderFrom(items, idx) == Ok(Unlines(ListingLines(items, idx)))
  {
    if items != [] {
      var it := items[0];
      RenderFromText(items[1..], idx + 1);
      UnlinesAppend(BlockLines(idx, it.name.s, it.resourceType.s, it.path.s, UrlOf(it)), ListingLines(items[1..], idx + 1));
    }
  }

  /** The listing has five lines per item. */
  lemma {:induction false} ListingLinesLength(items: seq<Item>, idx: nat)
    requires AllWellTyped(items)
    ensures |ListingLines(items, idx)| == 5 * |items|
  {
    if items != [] {
      ListingLinesLength(items[1..], idx + 1);
    }
  }

  /**
   * The item at position k (from 0) is numbered idx + k and occupies lines
   * 5k to 5k+4: its index line, type line, path line, public-URL line and an
   * empty line, in that order.
   */
  lemma {:induction false} ListingLinesShape(items: seq<Item>, idx: nat, k: nat)
    requires AllWellTyped(items)
    requires k < |items|
    ensures 5 * k + 5 <= |ListingLines(items, idx)|
    ensures ListingLines(items, idx)[5 * k..5 * k + 5]
         == BlockLines(idx + k, items[k].name.s, items[k].resourceType.s, items[k].path.s, UrlOf(items[k]))
  {
    var it := items[0];
    var head := BlockLines(idx, it.name.s, it.resourceType.s, it.path.s, UrlOf(it));
    ListingLinesLength(items, idx);
    if |items| == 1 {
      assert ListingLines(items, idx) == head + ListingLines([], idx + 1);
    } else {
      ListingLinesShape(items[1..], idx + 1, if k == 0 then 0 else k - 1);
      if k > 0 {
        assert ListingLines(items, idx)[5 * k..5 * k + 5] == ListingLines(items[1..], idx + 1)[5 * (k - 1)..5 * (k - 1) + 5];
      }
    }
  }

  lemma {:induction false} ListingLinesSingle(items: seq<Item>, idx: nat)
    requires AllNewlineFree(items)
    ensures SingleLines(ListingLines(items, idx))
  {
    if items != [] {
      var it := items[0];
      var head := BlockLines(idx, it.name.s, it.resourceType.s, it.path.s, UrlOf(it));
      assert '\n' !in Numeral(idx);
      assert SingleLines(head);
      ListingLinesSingle(items[1..], idx + 1);
    }
  }

  /**
   * When no field holds a newline, splitting the listing at its newlines
   * recovers its lines: five per item, as ListingLinesShape describes.
   */
  lemma ListingSplitsIntoBlocks(items: seq<Item>)
    requires AllNewlineFree(items)
    ensures RenderFrom(items, 1).Ok?
    ensures Lines(RenderFrom(items, 1).value) == ListingLines(items, 1)
  {
    RenderFromText(items, 1);
    ListingLinesSingle(items, 1);
    LinesOfUnlines(ListingLines(items, 1));
  }
}
