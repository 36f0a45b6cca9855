# Yandex.Disk C++ client: link lookup, resource listing and response buffering

This project models, in Dafny, the logic of the client's implementation file
`YandexDiskClient.cpp` that does not depend on the network:

- **WriteCallback**, the libcurl write callback that appends each received
  chunk to the `std::string` holding the response body
  (`YandexDiskClient.WriteCallback`, with the buffer as class `ResponseBuffer`).
- **getLinkByKey**, which requests `endpoint + escape(path) + extraParams` and
  reads one field of the JSON response: it returns the field when the field is
  present and not null, throws `"Yandex.Disk API error: " + error` when the
  response carries `error` instead, and otherwise throws the caller's message.
  Its three users are modelled as well: `getPublicDownloadLink` (field
  `public_url`), `getUploadUrl` (field `href`, extra `&overwrite=true`) and
  `getDownloadUrl` (field `href`).
- **formatResourceList**, which looks up `_embedded.items` and writes one
  numbered block per element, as imperative methods
  (`YandexDiskClient.FormatResourceList`, its loop `WriteListing` and one pass
  of it `WriteBlock`) proved equal to a recursive specification (`Listing`,
  `RenderFrom`), about which the listing's properties are proved. The
  response, `_embedded` and each element may be something other than an
  object, and `items` may be an array, an object, null or a scalar, as the
  range-for loop over a JSON value allows.

libcurl and the JSON library are outside the model. A value of type `Env`
stands for them: whether `curl_easy_init` returned a handle, the function
`curl_easy_escape` computes (`None` for its null result), and the step that
sends the request and parses its body (`performRequest` followed by
`nlohmann::json::parse`), which may fail with the transport's or the parser's
exception. A parsed response is an object mapping field names to `Null`, a
string, or any other JSON value, or a document that is not an object (on
which `contains` is false). Exceptions are the `Error` datatype: a
`std::runtime_error` with its message, the JSON library's type error when a
non-string value is read with `get<std::string>()` or when `operator[]` is
applied to a const value that is not an object, and its parse error.

Modules: `Wrappers` (Option, Result), `Json` (the abstract JSON values and
errors), `Text` (decimal numerals and newline-terminated lines, with their
inverses), `YandexDiskClient` (the three pieces above).

The later header `include/YandexDiskClient.h` also declares path-building,
recursive upload/download, name-search and move/rename operations.
`YandexDiskClient.cpp` has no bodies for them, so they are not modelled.

## Model

| member | source | states |
|---|---|---|
| YandexDiskClient.SizeMul | YandexDiskClient.cpp:6-7 | `size * nmemb` in 64-bit `size_t`: below 2^64, equal to the true product when that fits, 0 when either factor is 0 |
| YandexDiskClient.WriteCallback | YandexDiskClient.cpp:5-8 | appends exactly the first `size*nmemb` bytes of the chunk to the end of the buffer, leaves the old contents as a prefix, returns `size*nmemb` |
| YandexDiskClient.ResponseBuffer.constructor | YandexDiskClient.cpp:15 | the response buffer starts empty |
| Json.Contains | YandexDiskClient.cpp:98-100 | `contains` (here and on each listed item at line 125) is false on anything that is not an object, and on an object holds exactly for its keys |
| Json.Get | YandexDiskClient.cpp:98-101 | subscripting an object that contains the key yields the value stored under that key |
| Json.AsString | YandexDiskClient.cpp:99 | `get<std::string>()` succeeds exactly on strings and returns the string; anything else is a type error naming the value found |
| YandexDiskClient.CStr | YandexDiskClient.cpp:85 | the path handed to `curl_easy_escape` with length 0 is the longest NUL-free prefix of the `std::string`; the whole string when it holds no NUL |
| YandexDiskClient.RequestUrl | YandexDiskClient.cpp:91 | the URL splits back into endpoint, escaped path and extra parameters, in that order and with those lengths |
| YandexDiskClient.RequestedUrl | YandexDiskClient.cpp:82-91 | a request is made exactly when a curl handle and an escaped path are obtained, and then to `endpoint + escaped + extraParams` |
| YandexDiskClient.Decide | YandexDiskClient.cpp:98-103 | the branch taken: the field when present and not null, else the API error when `error` is present, else the caller's message; each branch characterised both ways |
| YandexDiskClient.Interpret | YandexDiskClient.cpp:96-103 | success exactly when the field is a string, and then its value unchanged even if `error` is present; `"Yandex.Disk API error: " + error` when the field is absent or null and `error` is a string; the caller's message when neither; type errors for a non-string field or `error` |
| YandexDiskClient.GetLinkByKey | YandexDiskClient.cpp:75-104 | the two libcurl failures throw their messages; otherwise the request goes to `endpoint + escape(path) + extraParams`, a failed request propagates its error, and the response is interpreted as above |
| YandexDiskClient.GetLinkByKeyWithDefaults | YandexDiskClient.cpp:79-80 | with the default arguments the URL has no extra parameters and the fallback message is `"Link not found for the given key"` |
| YandexDiskClient.LookupReadsOnlyRequestedUrl | YandexDiskClient.cpp:85-96 | two environments that agree on curl initialisation, the escaped path and the response at the one requested URL give the same lookup result |
| YandexDiskClient.GetPublicDownloadLink | YandexDiskClient.cpp:107-116 | requests the resource-metadata endpoint with no extra parameters, reads `public_url`, falls back to the not-published message |
| YandexDiskClient.GetUploadUrl | YandexDiskClient.cpp:134-142 | requests the upload endpoint with `&overwrite=true`, reads `href`, falls back to `"Upload URL not found in API response."` |
| YandexDiskClient.GetDownloadUrl | YandexDiskClient.cpp:144-152 | requests the download endpoint with no extra parameters, reads `href`, falls back to `"Download URL not found in API response."` |
| YandexDiskClient.PublicLinkOfUnpublished | YandexDiskClient.cpp:107-116 | metadata without a usable `public_url` and without `error` yields exactly the not-published error |
| YandexDiskClient.UploadUrlOutcomes | YandexDiskClient.cpp:134-142 | a string `href` in the upload response is returned as is; a response with neither `href` nor `error` yields the upload-specific message |
| YandexDiskClient.PublicUrlLine | YandexDiskClient.cpp:125-128 | the public-URL line is `"   Public URL: "` followed by the URL when there is one and by `"is missing"` otherwise |
| YandexDiskClient.BlockLines | YandexDiskClient.cpp:122-129 | an item's block is five lines: the index, `". "` and the name; `"   Type: "` and the type; `"   Path: "` and the path; the public-URL line; an empty line; each field recoverable from its line |
| YandexDiskClient.RenderItem | YandexDiskClient.cpp:122-129 | an item renders exactly when it is an object whose fields are strings, as the lines `"N. name"`, `"   Type: t"`, `"   Path: p"`, the public-URL line (`"   Public URL: is missing"` when `public_url` is absent) and an empty line, each ended by a newline; otherwise the type error of a non-object element, or of the first non-string field in the order name, type, path, public_url |
| YandexDiskClient.Elements | YandexDiskClient.cpp:121 | the elements the range-for visits: an array's elements, an object's values, nothing for null, the value itself for a scalar |
| YandexDiskClient.ItemsOf | YandexDiskClient.cpp:121 | subscripting a response or an `_embedded` that is not an object throws a type error; otherwise the elements of `items` |
| YandexDiskClient.Listing | YandexDiskClient.cpp:118-132 | a non-object response or `_embedded` throws a type error; a null `items` gives the empty string; a scalar `items` throws at its one element; otherwise the listing of the elements, numbered from 1 |
| YandexDiskClient.FormatResourceList | YandexDiskClient.cpp:118-132 | returns or throws exactly what `Listing` specifies; an empty element sequence gives the empty string |
| YandexDiskClient.RenderFrom | YandexDiskClient.cpp:119-131 | no items give the empty string, a listing of at least one item is non-empty, and the only error a listing can end in is a type error |
| YandexDiskClient.WriteListing | YandexDiskClient.cpp:119-131 | the loop's output equals the listing specification `RenderFrom(items, 1)`, including the first item's error |
| YandexDiskClient.WriteBlock | YandexDiskClient.cpp:122-129 | one pass appends exactly the item's rendered block after the text so far, or throws its first type error |
| YandexDiskClient.RenderFromSucceeds | YandexDiskClient.cpp:121-128 | the listing succeeds if and only if every item is well typed |
| YandexDiskClient.RenderFromFirstError | YandexDiskClient.cpp:121-130 | a failing listing fails with the error of its first ill-typed item; nothing after it matters |
| YandexDiskClient.RenderFromText | YandexDiskClient.cpp:119-131 | the listing of well-typed items is their blocks' lines, in list order, each followed by a newline |
| YandexDiskClient.ListingLinesLength | YandexDiskClient.cpp:121-129 | the listing of well-typed items has five lines per item |
| YandexDiskClient.ListingLinesShape | YandexDiskClient.cpp:120-129 | the item at position k is numbered `idx + k` (so from 1, consecutively) and occupies lines 5k to 5k+4 with its own block |
| YandexDiskClient.ListingSplitsIntoBlocks | YandexDiskClient.cpp:118-132 | when no field holds a newline, splitting the listing at newlines gives back exactly those lines |
| Text.Numeral | YandexDiskClient.cpp:122 | the index written by `oss << idx` is a non-empty digit string without a leading zero for positive numbers |
| Text.ParseNumeralOfNumeral | YandexDiskClient.cpp:122 | the written index reads back as the number it was written for |
| Text.NumeralInjective | YandexDiskClient.cpp:122 | distinct indices are written differently |
| Text.LinesOfUnlines | YandexDiskClient.cpp:122-129 | text written as newline-terminated lines splits back into those lines |

## Left out

- `performRequest` (YandexDiskClient.cpp:13-33): HTTP I/O through libcurl, including the OAuth header and the choice of PUT; it is the `fetch` field of `Env`, and its own `curl_easy_init` failure is one of the errors `fetch` may return.
- `getResourceList` and `publish` (YandexDiskClient.cpp:35-73): each escapes the path as the lookup does, appends it to its endpoint and sends the request. `getResourceList` parses and returns the body; `publish` sends a PUT and returns `true` whatever the body says.
- The constructor that stores the OAuth token (YandexDiskClient.cpp:10-11): the token is used only by the request step.
- The internals of `curl_easy_escape` and `nlohmann::json::parse`: foreign library code, kept as functions of `Env`.
- `uploadFile` and `downloadFile`, and the path-building, recursive upload/download, name-search and move/rename helpers: YandexDiskClient.cpp has no bodies for them; they are only declared in the headers.
- The header files and the example programs: declarations and drivers that print results.
- FormatResourceList: a response object without `_embedded`, an `_embedded` object without `items`, and an item object without `name`, `type` or `path` are undefined behaviour of `operator[]` on a const JSON object and are not modelled: the model assumes these keys are present.
- FormatResourceList: the JSON library's type errors are one `TypeError` carrying the value found; its error numbers and message texts (302 for `get`, 305 for `operator[]`) are not modelled.
- FormatResourceList: the counter `idx` is an `int`; its overflow after 2^31 - 1 items is not modelled (the index is an unbounded natural number).
- SizeMul: `size_t` is taken to be 64 bits wide.
- The exception raised by `std::string::append` when the buffer would exceed its maximum size is not modelled.
