# Melolo relay: a verified model of `TMTReaderAPI`

The repository is a small Flask relay in front of one upstream content API
(`api.tmtreader.com`). Its core, the class `TMTReaderAPI` in `api/app.py`,
does three things for each of three operations (novel search, video
details, video model):

- it builds the upstream request from two shared templates (`common_headers`,
  `common_params`), copying them and adding operation-specific keys and a
  per-call `_rticket`;
- it short-circuits a non-200 upstream status to an empty placeholder;
- it projects a 200 JSON body onto a few fields (`_extract_books_from_search`,
  `_extract_videos_from_details`, `_extract_video_urls`).

The Flask handlers add argument checks in front of the three operations.

The model, one module per component:

- `wrappers.dfy` (`Wrappers`) holds `Option` and a failure-compatible `Result`.
- `json_value.dfy` (`JsonValue`) holds parsed JSON values, Python's `dict.get(key, default)` (`Get`) and `for x in v` (`Elements`). A lookup on something that is not a dict, or iteration over null, a bool or a number, is a `Fault`, exactly where Python raises.
- `traversal.dfy` (`Traversal`) holds `Traverse`, a map over a list that stops at the first element that raises, and `Flatten`. These are the reference definitions the projector loops are proved against.
- `projector.dfy` (`Projector`) holds the three projectors. The two list projectors are methods with the source's loops, proved equal to specification functions. The lemmas state count, order, defaults and the empty cases.
- `rticket.dfy` (`Rticket`) holds `_rticket`: the upper 64 bits of a 128-bit UUID value, written in decimal.
- `requests.dfy` (`Requests`) holds the templates, a mutable `StrDict` class for the Python dicts the builders copy and update in place, and the three request specifications.
- `reader_api.dfy` (`ReaderApi`) holds the class `TmtReaderApi`, whose methods copy the templates, mutate the copies, and branch on the status. It also holds the status-handling functions.
- `endpoints.dfy` (`Endpoints`) holds the argument checks of the three handlers, and the handlers as functions of the arguments and of the upstream.

The network is an input: a method or handler receives the upstream's
`(status, parsed body)` or, for handlers, a function from request to
response. The UUID behind `_rticket` is an input as well.

Three points about the code that the model keeps as written:

- Only an ABSENT key takes the default in the projectors. A present value of the wrong shape makes `.get` or `for` raise, for example `"data": null` or a book that is a string. The model returns a `Fault` there.
- `_rticket` uniqueness rests on `uuid.uuid1()` and is not modelled. Only the 64-bit bound and the decimal form are proved.
- `Content-Length` is the literal `"157"` in the video-detail call, and so it is in the model.

## Model

| member | source | states |
|---|---|---|
| JsonValue.Get | api/app.py:89 | `v.get(key, default)`: fails, with the not-a-dict fault, exactly when `v` is not a dict; a present key's value is returned whatever its type; the default only when the key is absent |
| JsonValue.Elements | api/app.py:91-93 | iterating a list yields its items in order and a string its one-character strings; an empty dict yields nothing; null, bool and number raise the not-iterable fault; a non-empty dict fails (its keys are strings, whose `.get` raises) |
| Traversal.TraverseOk | api/app.py:144-151 | an append loop over a list succeeds iff every element succeeds, and then element k of the result is the projection of input element k |
| Traversal.TraverseFirstFault | api/app.py:144-151 | when the elements before `i` succeed and element `i` raises, the whole loop raises that fault |
| Traversal.FlattenIndex | api/app.py:91-100 | element j of inner list i lands at `Offset(lists, i) + j` of the flattened list |
| Projector.BookOf | api/app.py:94-99 | a book record fails iff the book is not a dict; `series_id`, `title`, `last_chapter_index`, `thumb_url` are the values of `book_id`, `book_name`, `last_chapter_index`, `thumb_url` when present, `""` when absent |
| Projector.BookJson | api/app.py:94-99 | a book record has exactly the four keys, holding the record's four values |
| Projector.ExtractBooksFromSearch | api/app.py:86-102 | the nested-loop extractor returns exactly `SearchBooks`, including which fault it raises |
| Projector.ProjectGroupsThenFlatten | api/app.py:91-100 | projecting group by group then flattening equals flattening the raw books then projecting; both succeed together |
| Projector.SearchBooksFlattens | api/app.py:88-102 | the search projection succeeds iff the nesting can be walked and every book is a dict; then record k is the projection of the k-th book of all groups |
| Projector.SearchBooksCount | api/app.py:88-102 | the number of records is the total number of `books` entries summed over all `search_data` groups |
| Projector.SearchBooksOrder | api/app.py:91-100 | book j of group i becomes record `Offset(lists, i) + j`: group order, then order within the group |
| Projector.SearchWithoutData | api/app.py:89 | a body with no `data`, or whose `data` has no `search_data`, gives no books |
| Projector.SearchGroupWithoutBooks | api/app.py:92 | a group without `books` contributes nothing: removing it leaves the result unchanged |
| Projector.SearchExample | api/app.py:86-102 | a two-group body flattens to two records in group order with `""` for the absent keys |
| Projector.VideoOf | api/app.py:145-150 | a video record fails iff the entry is not a dict; `duration`, `digged_count` default to 0, `video_id` (from `vid`) and `chapter` (from `vid_index`) to `""`; present values pass through |
| Projector.VideoJson | api/app.py:145-150 | a video record has exactly the keys `duration`, `digged_count`, `video_id`, `chapter` |
| Projector.ExtractVideosFromDetails | api/app.py:139-153 | the loop extractor returns exactly `VideosFromDetails`, including which fault it raises |
| Projector.VideosOneToOne | api/app.py:142-151 | the video projection is one-to-one and order-preserving over `data.video_data.video_list`, and succeeds iff every entry is a dict |
| Projector.VideosWithoutList | api/app.py:142 | a body with no `data`, `video_data` or `video_list` gives no videos |
| Projector.UrlsJson | api/app.py:194-197 | the URL pair has exactly the keys `backup_url` and `main_url` |
| Projector.ExtractVideoUrls | api/app.py:191-197 | fails iff the body or its `data` is not a dict; absent `data` gives `""` for both; otherwise each URL is copied when present and `""` when absent |
| Rticket.Decimal | api/app.py:59 | `str(n)`: at least one character, all decimal digits, no leading zero except for 0 itself |
| Rticket.ParseDecimalOfDecimal | api/app.py:59 | reading the decimal string back gives the number |
| Rticket.ShiftRight64 | api/app.py:59 | `x >> 64` of a value below 2^128 is below 2^64 |
| Rticket.Generate | api/app.py:57-59 | `_rticket` is a non-empty decimal string without leading zero (unless it is "0") whose value is the UUID's upper 64 bits, below 2^64 |
| Requests.SearchRequest | api/app.py:61-75 | GET to the search path; headers are the template; params are the template plus exactly the eight search keys, with `query`, `offset`, `limit` verbatim, `_rticket`, and the fixed auxiliary values; every other template key keeps its value |
| Requests.VideoDetailBody | api/app.py:117-128 | the detail body has exactly `biz_param` and `series_id`; `biz_param` has exactly seven flags: `detail_page_version` 0, `from_video_id` "", `need_all_video_definition` false, `need_mp4_align` false, `source` 4, `use_os_player` false, `video_id_type` 1 |
| Requests.VideoDetailRequest | api/app.py:104-128 | POST to the detail path; headers are the template plus `X-Ss-Stub`, gzip `Content-Encoding`, JSON `Content-Type`, `Content-Length: "157"`; params are the template plus `_rticket`; the body is `VideoDetailBody` of the series |
| Requests.VideoModelBody | api/app.py:167-179 | the model body has exactly `biz_param` and `video_id`; `biz_param` has exactly nine flags: `detail_page_version` 0, `device_level` 3, `from_video_id` "", `need_all_video_definition` true, `need_mp4_align` false, `source` 4, `use_os_player` false, `video_id_type` 0, `video_platform` 3 |
| Requests.VideoModelRequest | api/app.py:155-180 | POST to the model path; the other stub, no `Content-Length` added; params are the template plus `_rticket`; the body is `VideoModelBody` of the video |
| Requests.MeloloOverridesNothing | api/app.py:11-55 | the installed templates contain none of the keys any builder adds, so every template header and parameter goes out unchanged, and the model call sends no `Content-Length` |
| Requests.StrDict.Copy | api/app.py:64-65 | `dict.copy()`: a fresh dict with the same entries |
| Requests.StrDict.Update | api/app.py:66-75 | `dict.update(other)`: the keys of `other` take its values, all others are kept |
| Requests.StrDict.Put | api/app.py:115 | `d[key] = value` |
| ReaderApi.TmtReaderApi.constructor | api/app.py:9-55 | installs the base URL and the two templates as two distinct fresh dicts |
| ReaderApi.TmtReaderApi.SearchNovels | api/app.py:61-84 | sends exactly `SearchRequest` over the current templates and returns `SearchOutcome`; it may modify nothing, so the templates are unchanged |
| ReaderApi.TmtReaderApi.GetVideoDetails | api/app.py:104-137 | sends exactly `VideoDetailRequest` and returns `DetailsOutcome`; templates unchanged |
| ReaderApi.TmtReaderApi.GetVideoModel | api/app.py:155-189 | sends exactly `VideoModelRequest` and returns `ModelOutcome`; templates unchanged |
| ReaderApi.CallsLeaveTemplates | api/app.py:64-65 | after one call of each operation, every later call on the same object is still built from the original templates |
| ReaderApi.SearchOutcome | api/app.py:79-84 | status kept; a non-200 status gives `books: []`; a 200 gives the search projection or its fault |
| ReaderApi.DetailsOutcome | api/app.py:132-137 | status kept; a non-200 status gives `videos: []`; a 200 gives the video projection or its fault |
| ReaderApi.ModelOutcome | api/app.py:184-189 | status kept; a non-200 status gives `video_urls: {}`; a 200 gives the URL pair or its fault |
| ReaderApi.UrlsPayload | api/app.py:185 | the failed-call placeholder serialises to `{}`, a successful pair to a dict with exactly two keys |
| ReaderApi.SearchReplyJson | api/app.py:84 | the search reply serialises to `status_code` and `books`, book k being the four-key `BookJson` of record k |
| ReaderApi.DetailsReplyJson | api/app.py:137 | the details reply serialises to `status_code` and `videos`, video k being the four-key `VideoJson` of record k |
| ReaderApi.ModelReplyJson | api/app.py:189 | the model reply serialises to `status_code` and `video_urls` |
| ReaderApi.NonOkPayloads | api/app.py:79-80 | a non-200 status puts exactly `{"status_code": s, "books": []}`, `{"status_code": s, "videos": []}` or `{"status_code": s, "video_urls": {}}` on the wire, whatever the body |
| ReaderApi.SearchPayloadRecords | api/app.py:94-100 | each book a successful search reply sends is a dict with exactly the four keys, the projection of the matching raw book |
| ReaderApi.DetailsPayloadRecords | api/app.py:145-151 | each video a successful details reply sends is a dict with exactly the four keys, the projection of the matching list entry |
| ReaderApi.NonOkIgnoresBody | api/app.py:79-80 | for a non-200 status the reply does not depend on the body, so no projector runs, for all three operations |
| ReaderApi.ModelPlaceholderDistinct | api/app.py:184-197 | the `{}` of a failed model call differs from every successful reply, including the all-`""` one |
| Endpoints.CheckSearchArgs | api/app.py:205-210 | 400 exactly when `query` is given but empty; an absent `query` becomes "super keren"; `offset`/`limit` default to "0"/"10" and are otherwise passed verbatim |
| Endpoints.CheckRequiredArg | api/app.py:218-221 | 400 with "<name> parameter is required" exactly when the argument is absent or empty; otherwise the value itself |
| Endpoints.SearchEndpoint | api/app.py:202-213 | rejects exactly an empty `query`; otherwise sends the search request with the defaulted arguments and returns the search outcome of the upstream's answer |
| Endpoints.VideoDetailsEndpoint | api/app.py:215-224 | rejects exactly an absent or empty `series_id` with 400; otherwise sends the detail request for it and returns the detail outcome |
| Endpoints.VideoModelEndpoint | api/app.py:226-235 | rejects exactly an absent or empty `video_id` with 400; otherwise sends the model request for it and returns the model outcome |
| Endpoints.RejectedWithoutUpstreamCall | api/app.py:202-232 | a rejected request (empty `query` with any `offset`/`limit`, or an absent or empty `series_id`/`video_id`) gives the same reply whatever the upstream would answer: no upstream call is made |

## Left out

- The network calls `requests.get` / `requests.post` and `response.json()` are inputs. Transport faults and undecodable bodies are not modelled.
- The Flask application, route registration, `request.args` and `jsonify` are not modelled. The handlers are functions of the optional query arguments. They use the installed templates (`Melolo`), which no call can change (`CallsLeaveTemplates`, and the builders have no `modifies` clause).
- The uniqueness of `_rticket` is not modelled. It depends on `uuid.uuid1()` (clock and MAC address), which becomes a caller-supplied 128-bit number.
- JSON numbers are integers. Floats are not modelled, since the projectors only copy values through or default them to 0.
- Key order of JSON objects and of the outgoing header and parameter dicts is not modelled (maps).
- Elements: iterating a non-empty dict is reported as a fault at once. Python first yields the keys (in an order the model does not keep) and raises on the first `.get`, so the observable outcome is the same.
- Transport meaning of the headers is not modelled. Gzip `Content-Encoding` and the fixed `Content-Length: "157"` are literal strings, as the code sets them.
- Concurrency is not modelled. Each call is sequential, and the builders' frames show that the shared templates are never written.
- ReaderApi.TmtReaderApi.SearchNovels: the Python defaults `offset="0"` and `limit="10"` of `search_novels` are not modelled; the method takes all three arguments, as the only caller (the `/api/search` handler) always passes them.
