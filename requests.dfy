/**
 * Construction of the three upstream requests. The shared header and
 * parameter templates of `TMTReaderAPI.__init__`, the per-operation keys the
 * builders add, and the JSON bodies of the two POST calls.
 */
module Requests {
  import opened Wrappers
  import opened JsonValue

  const BaseUrl: string := "https://api.tmtreader.com"
  const SearchPath: string := "/i18n_novel/search/page/v1/"
  const VideoDetailPath: string := "/novel/player/video_detail/v1/"
  const VideoModelPath: string := "/novel/player/video_model/v1/"

  /** `common_headers`: sent with every upstream call. */
  const CommonHeaders: map<string, string> := map[
    "Host" := "api.tmtreader.com",
    "Accept" := "application/json; charset=utf-8,application/x-protobuf",
    "X-Xs-From-Web" := "false",
    "Age-Range" := "8",
    "Sdk-Version" := "2",
    "Passport-Sdk-Version" := "50357",
    "X-Vc-Bdturing-Sdk-Version" := "2.2.1.i18n",
    "User-Agent" := "com.worldance.drama/49819 (Linux; U; Android 9; in; SM-N976N; Build/QP1A.190711.020;tt-ok/3.12.13.17)"
  ]

  /** `common_params`: the device and app identity sent as query parameters with every call. */
  const CommonParams: map<string, string> := map[
    "iid" := "7549249992780367617",
    "device_id" := "6944790948585719298",
    "ac" := "wifi",
    "channel" := "gp",
    "aid" := "645713",
    "app_name" := "Melolo",
    "version_code" := "49819",
    "version_name" := "4.9.8",
    "device_platform" := "android",
    "os" := "android",
    "ssmix" := "a",
    "device_type" := "SM-N976N",
    "device_brand" := "samsung",
    "language" := "in",
    "os_api" := "28",
    "os_version" := "9",
    "openudid" := "707e4ef289dcc394",
    "manifest_version_code" := "49819",
    "resolution" := "900*1600",
    "dpi" := "320",
    "update_version_code" := "49819",
    "current_region" := "CN",
    "carrier_region" := "ID",
    "app_language" := "id",
    "sys_language" := "in",
    "app_region" := "CN",
    "sys_region" := "ID",
    "mcc_mnc" := "46002",
    "carrier_region_v2" := "460",
    "user_language" := "id",
    "time_zone" := "Asia/Bangkok",
    "ui_language" := "in",
    "cdid" := "a854d5a9-b6cd-4de7-9c43-8310f5bf513c"
  ]

  /**
   * A Python dict from strings to strings that the builders mutate in place:
   * `copy()`, `update(...)` and item assignment.
   */
  class StrDict {
    var entries: map<string, string>

    constructor (m: map<string, string>)
      ensures entries == m
    {
      entries := m;
    }

    /** `d.copy()`: a new dict with the same entries; later changes to either leave the other alone. */
    method Copy() returns (d: StrDict)
      ensures fresh(d) && d.entries == entries
    {
      d := new StrDict(entries);
    }

    /** `d.update(other)`: keys of `other` take its values, every other key keeps its own. */
    method Update(other: map<string, string>)
      modifies this
      ensures entries == old(entries) + other
    {
      entries := entries + other;
    }

    /** `d[key] = value`. */
    method Put(key: string, value: string)
      modifies this
      ensures entries == old(entries)[key := value]
    {
      entries := entries[key := value];
    }
  }

  datatype Verb = GET | POST

  /** One outbound call: what `requests.get` / `requests.post` is given. */
  datatype Request = Request(verb: Verb, url: string, headers: map<string, string>,
                             params: map<string, string>, body: Option<Json>)

  /** The shared, read-only part of every request: base URL and the two templates. */
  datatype Templates = Templates(baseUrl: string, headers: map<string, string>, params: map<string, string>)

  /** The templates `TMTReaderAPI.__init__` installs. */
  const Melolo: Templates := Templates(BaseUrl, CommonHeaders, CommonParams)

  /** The keys `search_novels` adds to the parameter template. */
  const SearchKeys: set<string> := {"search_source_id", "IsFetchDebug", "offset",
    "cancel_search_category_enhance", "query", "limit", "search_id", "_rticket"}

  function SearchExtras(query: string, offset: string, limit: string, rticket: string): (m: map<string, string>)
    ensures m.Keys == SearchKeys
  {
    map[
      "search_source_id" := "clks###",
      "IsFetchDebug" := "false",
      "offset" := offset,
      "cancel_search_category_enhance" := "false",
      "query" := query,
      "limit" := limit,
      "search_id" := "",
      "_rticket" := rticket
    ]
  }

  /** The headers `get_video_details` adds to the header template. */
  const VideoDetailHeaders: map<string, string> := map[
    "X-Ss-Stub" := "238B6268DE1F0B757306031C76B5397E",
    "Content-Encoding" := "gzip",
    "Content-Type" := "application/json; charset=utf-8",
    "Content-Length" := "157"
  ]

  /** The headers `get_video_model` adds to the header template. */
  const VideoModelHeaders: map<string, string> := map[
    "X-Ss-Stub" := "B7FB786F2CAA8B9EFB7C67A524B73AFB",
    "Content-Encoding" := "gzip",
    "Content-Type" := "application/json; charset=utf-8"
  ]

  /** The JSON body of the video-detail call. */
  function VideoDetailBody(seriesId: string): (b: Json)
    ensures b.Obj? && b.fields.Keys == {"biz_param", "series_id"}
    ensures b.fields["series_id"] == Str(seriesId)
    ensures b.fields["biz_param"].Obj?
    ensures b.fields["biz_param"].fields.Keys == {"detail_page_version", "from_video_id",
              "need_all_video_definition", "need_mp4_align", "source", "use_os_player", "video_id_type"}
    ensures b.fields["biz_param"].fields["detail_page_version"] == Num(0)
    ensures b.fields["biz_param"].fields["from_video_id"] == Str("")
    ensures b.fields["biz_param"].fields["need_all_video_definition"] == Bool(false)
    ensures b.fields["biz_param"].fields["need_mp4_align"] == Bool(false)
    ensures b.fields["biz_param"].fields["source"] == Num(4)
    ensures b.fields["biz_param"].fields["use_os_player"] == Bool(false)
    ensures b.fields["biz_param"].fields["video_id_type"] == Num(1)
  {
    Obj(map[
      "biz_param" := Obj(map[
        "detail_page_version" := Num(0),
        "from_video_id" := Str(""),
        "need_all_video_definition" := Bool(false),
        "need_mp4_align" := Bool(false),
        "source" := Num(4),
        "use_os_player" := Bool(false),
        "video_id_type" := Num(1)
      ]),
      "series_id" := Str(seriesId)
    ])
  }

  /** The JSON body of the video-model call. */
  function VideoModelBody(videoId: string): (b: Json)
    ensures b.Obj? && b.fields.Keys == {"biz_param", "video_id"}
    ensures b.fields["video_id"] == Str(videoId)
    ensures b.fields["biz_param"].Obj?
    ensures b.fields["biz_param"].fields.Keys == {"detail_page_version", "device_level", "from_video_id",
              "need_all_video_definition", "need_mp4_align", "source", "use_os_player", "video_id_type", "video_platform"}
    ensures b.fields["biz_param"].fields["detail_page_version"] == Num(0)
    ensures b.fields["biz_param"].fields["device_level"] == Num(3)
    ensures b.fields["biz_param"].fields["from_video_id"] == Str("")
    ensures b.fields["biz_param"].fields["need_all_video_definition"] == Bool(true)
    ensures b.fields["biz_param"].fields["need_mp4_align"] == Bool(false)
    ensures b.fields["biz_param"].fields["source"] == Num(4)
    ensures b.fields["biz_param"].fields["use_os_player"] == Bool(false)
    ensures b.fields["biz_param"].fields["video_id_type"] == Num(0)
    ensures b.fields["biz_param"].fields["video_platform"] == Num(3)
  {
    Obj(map[
      "biz_param" := Obj(map[
        "detail_page_version" := Num(0),
        "device_level" := Num(3),
        "from_video_id" := Str(""),
        "need_all_video_definition" := Bool(true),
        "need_mp4_align" := Bool(false),
        "source" := Num(4),
        "use_os_player" := Bool(false),
        "video_id_type" := Num(0),
        "video_platform" := Num(3)
      ]),
      "video_id" := Str(videoId)
    ])
  }

  /**
   * The request `search_novels` sends: a GET with the header template as is,
   * and the parameter template with the search keys added on top; every
   * other template key keeps its value.
   */
  function SearchRequest(t: Templates, query: string, offset: string, limit: string, rticket: string): (r: Request)
    ensures r.verb == GET && r.url == t.baseUrl + SearchPath && r.body == None
    ensures r.headers == t.headers
    ensures r.params.Keys == t.params.Keys + SearchKeys
    ensures forall k :: k in t.params && k !in SearchKeys ==> r.params[k] == t.params[k]
    ensures r.params["query"] == query && r.params["offset"] == offset && r.params["limit"] == limit
    ensures r.params["_rticket"] == rticket
    ensures r.params["search_source_id"] == "clks###" && r.params["IsFetchDebug"] == "false"
    ensures r.params["cancel_search_category_enhance"] == "false" && r.params["search_id"] == ""
  {
    Request(GET, t.baseUrl + SearchPath, t.headers, t.params + SearchExtras(query, offset, limit, rticket), None)
  }

  /**
   * The request `get_video_details` sends: a POST whose headers are the
   * template with the four content headers on top, whose parameters are the
   * template plus `_rticket`, and whose body asks for the series without
   * all video definitions.
   */
  function VideoDetailRequest(t: Templates, seriesId: string, rticket: string): (r: Request)
    ensures r.verb == POST && r.url == t.baseUrl + VideoDetailPath
    ensures r.headers.Keys == t.headers.Keys + VideoDetailHeaders.Keys
    ensures forall k :: k in t.headers && k !in VideoDetailHeaders ==> r.headers[k] == t.headers[k]
    ensures r.headers["X-Ss-Stub"] == "238B6268DE1F0B757306031C76B5397E"
    ensures r.headers["Content-Encoding"] == "gzip"
    ensures r.headers["Content-Type"] == "application/json; charset=utf-8"
    ensures r.headers["Content-Length"] == "157"
    ensures r.params.Keys == t.params.Keys + {"_rticket"}
    ensures forall k :: k in t.params && k != "_rticket" ==> r.params[k] == t.params[k]
    ensures r.params["_rticket"] == rticket
    ensures r.body == Some(VideoDetailBody(seriesId))
  {
    Request(POST, t.baseUrl + VideoDetailPath, t.headers + VideoDetailHeaders,
            t.params["_rticket" := rticket], Some(VideoDetailBody(seriesId)))
  }

  /**
   * The request `get_video_model` sends: a POST with a different stub and no
   * `Content-Length` of its own, the template parameters plus `_rticket`, and
   * a body that asks for all video definitions.
   */
  function VideoModelRequest(t: Templates, videoId: string, rticket: string): (r: Request)
    ensures r.verb == POST && r.url == t.baseUrl + VideoModelPath
    ensures r.headers.Keys == t.headers.Keys + VideoModelHeaders.Keys
    ensures "Content-Length" !in VideoModelHeaders
    ensures forall k :: k in t.headers && k !in VideoModelHeaders ==> r.headers[k] == t.headers[k]
    ensures r.headers["X-Ss-Stub"] == "B7FB786F2CAA8B9EFB7C67A524B73AFB"
    ensures r.headers["Content-Encoding"] == "gzip"
    ensures r.headers["Content-Type"] == "application/json; charset=utf-8"
    ensures r.params.Keys == t.params.Keys + {"_rticket"}
    ensures forall k :: k in t.params && k != "_rticket" ==> r.params[k] == t.params[k]
    ensures r.params["_rticket"] == rticket
    ensures r.body == Some(VideoModelBody(videoId))
  {
    Request(POST, t.baseUrl + VideoModelPath, t.headers + VideoModelHeaders,
            t.params["_rticket" := rticket], Some(VideoModelBody(videoId)))
  }

  /**
   * No builder overrides a key of `t`: then every template header and
   * parameter goes out with its template value, by the builders' contracts.
   */
  predicate OverridesNothing(t: Templates) {
    && (forall k :: k in SearchKeys ==> k !in t.params)
    && "_rticket" !in t.params
    && (forall k :: k in VideoDetailHeaders ==> k !in t.headers)
    && (forall k :: k in VideoModelHeaders ==> k !in t.headers)
  }

  /**
   * The templates `TMTReaderAPI` installs are never overridden, and carry
   * no `Content-Length`, so the video-model call sends none.
   */
  lemma MeloloOverridesNothing()
    ensures OverridesNothing(Melolo)
    ensures "Content-Length" !in Melolo.headers
  {
    SearchKeysNotInTemplate();
    DetailHeadersNotInTemplate();
    ModelHeadersNotInTemplate();
  }

  lemma SearchKeysNotInTemplate()
    ensures forall k :: k in SearchKeys ==> k !in CommonParams
  {
    CallerKeysNotInTemplate();
    RticketNotInTemplate();
    FixedKeysNotInTemplate();
    AuxiliaryKeysNotInTemplate();
  }

  lemma CallerKeysNotInTemplate()
    ensures "query" !in CommonParams && "offset" !in CommonParams && "limit" !in CommonParams
  {
  }

  lemma RticketNotInTemplate()
    ensures "_rticket" !in CommonParams
  {
  }

  lemma FixedKeysNotInTemplate()
    ensures "search_source_id" !in CommonParams && "IsFetchDebug" !in CommonParams
  {
  }

  lemma AuxiliaryKeysNotInTemplate()
    ensures "cancel_search_category_enhance" !in CommonParams && "search_id" !in CommonParams
  {
  }

  lemma DetailHeadersNotInTemplate()
    ensures forall k :: k in VideoDetailHeaders ==> k !in CommonHeaders
  {
  }

  lemma ModelHeadersNotInTemplate()
    ensures forall k :: k in VideoModelHeaders ==> k !in CommonHeaders
    ensures "Content-Length" !in CommonHeaders
  {
  }
}
