/**
 * `TMTReaderAPI`: the object that holds the shared templates and runs the
 * three operations. The network round trip is an input: the caller passes
 * the response (status and parsed body) the upstream would give.
 */
module ReaderApi {
  import opened Wrappers
  import opened JsonValue
  import opened Projector
  import opened Requests
  import Rticket

  /** What `requests.get` / `requests.post` and `response.json()` deliver. */
  datatype Response = Response(status: int, body: Json)

  /** `{"status_code": ..., "books": [...]}` */
  datatype SearchReply = SearchReply(statusCode: int, books: seq<BookInfo>)

  /** `{"status_code": ..., "videos": [...]}` */
  datatype DetailsReply = DetailsReply(statusCode: int, videos: seq<VideoInfo>)

  /** `{"status_code": ..., "video_urls": ...}`; `None` is the empty dict `{}` of a failed call. */
  datatype ModelReply = ModelReply(statusCode: int, videoUrls: Option<VideoUrls>)

  /** The `video_urls` value as the relay serialises it. */
  function UrlsPayload(urls: Option<VideoUrls>): (r: Json)
    ensures r.Obj?
    ensures urls.None? <==> r.fields == map[]
    ensures urls.Some? ==> r.fields.Keys == {"backup_url", "main_url"}
  {
    match urls
    case None => EmptyObj
    case Some(u) => UrlsJson(u)
  }

  /** A search reply as the relay serialises it: each book record as `BookJson` makes it, in order. */
  function SearchReplyJson(reply: SearchReply): (r: Json)
    ensures r.Obj? && r.fields.Keys == {"status_code", "books"}
    ensures r.fields["status_code"] == Num(reply.statusCode)
    ensures r.fields["books"].Arr? && |r.fields["books"].items| == |reply.books|
    ensures forall k :: 0 <= k < |reply.books| ==> r.fields["books"].items[k] == BookJson(reply.books[k])
  {
    Obj(map["status_code" := Num(reply.statusCode),
            "books" := Arr(seq(|reply.books|, k requires 0 <= k < |reply.books| => BookJson(reply.books[k])))])
  }

  /** A video-details reply as the relay serialises it. */
  function DetailsReplyJson(reply: DetailsReply): (r: Json)
    ensures r.Obj? && r.fields.Keys == {"status_code", "videos"}
    ensures r.fields["status_code"] == Num(reply.statusCode)
    ensures r.fields["videos"].Arr? && |r.fields["videos"].items| == |reply.videos|
    ensures forall k :: 0 <= k < |reply.videos| ==> r.fields["videos"].items[k] == VideoJson(reply.videos[k])
  {
    Obj(map["status_code" := Num(reply.statusCode),
            "videos" := Arr(seq(|reply.videos|, k requires 0 <= k < |reply.videos| => VideoJson(reply.videos[k])))])
  }

  /** A video-model reply as the relay serialises it. */
  function ModelReplyJson(reply: ModelReply): (r: Json)
    ensures r.Obj? && r.fields.Keys == {"status_code", "video_urls"}
    ensures r.fields["status_code"] == Num(reply.statusCode)
    ensures r.fields["video_urls"] == UrlsPayload(reply.videoUrls)
  {
    Obj(map["status_code" := Num(reply.statusCode), "video_urls" := UrlsPayload(reply.videoUrls)])
  }

  /** The tail of `search_novels`: a non-200 status short-circuits to no books; a 200 body is projected. */
  function SearchOutcome(response: Response): (r: Result<SearchReply, Fault>)
    ensures r.Ok? ==> r.value.statusCode == response.status
    ensures response.status != 200 ==> r == Ok(SearchReply(response.status, []))
    ensures response.status == 200 ==> (r.Ok? <==> SearchBooks(response.body).Ok?)
    ensures response.status == 200 && r.Ok? ==> r.value.books == SearchBooks(response.body).value
    ensures response.status == 200 && r.Err? ==> r.error == SearchBooks(response.body).error
  {
    if response.status != 200 then Ok(SearchReply(response.status, []))
    else
      var books :- SearchBooks(response.body);
      Ok(SearchReply(response.status, books))
  }

  /** The tail of `get_video_details`. */
  function DetailsOutcome(response: Response): (r: Result<DetailsReply, Fault>)
    ensures r.Ok? ==> r.value.statusCode == response.status
    ensures response.status != 200 ==> r == Ok(DetailsReply(response.status, []))
    ensures response.status == 200 ==> (r.Ok? <==> VideosFromDetails(response.body).Ok?)
    ensures response.status == 200 && r.Ok? ==> r.value.videos == VideosFromDetails(response.body).value
    ensures response.status == 200 && r.Err? ==> r.error == VideosFromDetails(response.body).error
  {
    if response.status != 200 then Ok(DetailsReply(response.status, []))
    else
      var videos :- VideosFromDetails(response.body);
      Ok(DetailsReply(response.status, videos))
  }

  /** The tail of `get_video_model`: `{}` on failure, the (possibly defaulted) pair on success. */
  function ModelOutcome(response: Response): (r: Result<ModelReply, Fault>)
    ensures r.Ok? ==> r.value.statusCode == response.status
    ensures response.status != 200 ==> r == Ok(ModelReply(response.status, None))
    ensures response.status == 200 ==> (r.Ok? <==> ExtractVideoUrls(response.body).Ok?)
    ensures response.status == 200 && r.Ok? ==> r.value.videoUrls == Some(ExtractVideoUrls(response.body).value)
    ensures response.status == 200 && r.Err? ==> r.error == ExtractVideoUrls(response.body).error
  {
    if response.status != 200 then Ok(ModelReply(response.status, None))
    else
      var urls :- ExtractVideoUrls(response.body);
      Ok(ModelReply(response.status, Some(urls)))
  }

  /**
   * On a non-200 status the body is never read: any two bodies give the
   * same reply, even ones the projectors would reject.
   */
  lemma NonOkIgnoresBody(status: int, body1: Json, body2: Json)
    requires status != 200
    ensures SearchOutcome(Response(status, body1)) == SearchOutcome(Response(status, body2))
    ensures DetailsOutcome(Response(status, body1)) == DetailsOutcome(Response(status, body2))
    ensures ModelOutcome(Response(status, body1)) == ModelOutcome(Response(status, body2))
  {
  }

  /** What a non-200 status puts on the wire for each operation, whatever the body. */
  lemma NonOkPayloads(status: int, body: Json)
    requires status != 200
    ensures SearchOutcome(Response(status, body)).Ok? && DetailsOutcome(Response(status, body)).Ok?
    ensures ModelOutcome(Response(status, body)).Ok?
    ensures SearchReplyJson(SearchOutcome(Response(status, body)).value)
            == Obj(map["status_code" := Num(status), "books" := Arr([])])
    ensures DetailsReplyJson(DetailsOutcome(Response(status, body)).value)
            == Obj(map["status_code" := Num(status), "videos" := Arr([])])
    ensures ModelReplyJson(ModelOutcome(Response(status, body)).value)
            == Obj(map["status_code" := Num(status), "video_urls" := EmptyObj])
  {
    var noBooks: seq<Json> := [];
    assert SearchReplyJson(SearchReply(status, [])).fields["books"] == Arr(noBooks);
    assert DetailsReplyJson(DetailsReply(status, [])).fields["videos"] == Arr(noBooks);
  }

  /**
   * Every record of a successful search reply goes out as a dict with exactly
   * the four keys, holding the projection of the matching raw book.
   */
  lemma SearchPayloadRecords(response: Response, k: nat)
    requires response.status == 200 && SearchOutcome(response).Ok?
    requires k < |SearchOutcome(response).value.books|
    ensures var items := SearchReplyJson(SearchOutcome(response).value).fields["books"].items;
            k < |items| && items[k].Obj?
            && items[k].fields.Keys == {"series_id", "title", "last_chapter_index", "thumb_url"}
            && items[k] == BookJson(SearchBooks(response.body).value[k])
  {
  }

  /**
   * Every record of a successful video-details reply goes out as a dict with
   * exactly the four keys, holding the projection of the matching list entry.
   */
  lemma DetailsPayloadRecords(response: Response, k: nat)
    requires response.status == 200 && DetailsOutcome(response).Ok?
    requires k < |DetailsOutcome(response).value.videos|
    ensures var items := DetailsReplyJson(DetailsOutcome(response).value).fields["videos"].items;
            k < |items| && items[k].Obj?
            && items[k].fields.Keys == {"duration", "digged_count", "video_id", "chapter"}
            && items[k] == VideoJson(VideosFromDetails(response.body).value[k])
  {
  }

  /**
   * The `{}` a failed video-model call returns is told apart from every
   * successful reply, even one whose body had no `data` and so carries
   * two empty strings.
   */
  lemma ModelPlaceholderDistinct(failed: Response, ok: Response)
    requires failed.status != 200 && ok.status == 200
    requires ModelOutcome(ok).Ok?
    ensures ModelOutcome(failed).Ok?
    ensures UrlsPayload(ModelOutcome(failed).value.videoUrls) == EmptyObj
    ensures UrlsPayload(ModelOutcome(ok).value.videoUrls).fields.Keys == {"backup_url", "main_url"}
  {
  }

  class TmtReaderApi {
    const baseUrl: string
    const commonHeaders: StrDict
    const commonParams: StrDict

    /** The templates as they currently stand. */
    function CurrentTemplates(): Templates
      reads commonHeaders, commonParams
    {
      Templates(baseUrl, commonHeaders.entries, commonParams.entries)
    }

    /** `__init__`: installs the base URL and the two templates. */
    constructor ()
      ensures CurrentTemplates() == Melolo
      ensures fresh(commonHeaders) && fresh(commonParams) && commonHeaders != commonParams
    {
      baseUrl := BaseUrl;
      commonHeaders := new StrDict(CommonHeaders);
      commonParams := new StrDict(CommonParams);
    }

    /**
     * `search_novels`: copies both templates, adds the search keys and a
     * fresh `_rticket` to the copy of the parameters, sends, and projects a
     * 200 body. No `modifies` clause: the templates are left as they were.
     */
    method SearchNovels(query: string, offset: string, limit: string, uuidInt: nat, response: Response)
      returns (request: Request, result: Result<SearchReply, Fault>)
      requires uuidInt < Rticket.TwoTo128
      ensures request == SearchRequest(CurrentTemplates(), query, offset, limit, Rticket.Generate(uuidInt))
      ensures result == SearchOutcome(response)
    {
      var url := baseUrl + SearchPath;
      var headers := commonHeaders.Copy();
      var params := commonParams.Copy();
      params.Update(SearchExtras(query, offset, limit, Rticket.Generate(uuidInt)));
      request := Request(GET, url, headers.entries, params.entries, None);
      if response.status != 200 {
        return request, Ok(SearchReply(response.status, []));
      }
      var books := ExtractBooksFromSearch(response.body);
      if books.Err? {
        return request, Err(books.error);
      }
      result := Ok(SearchReply(response.status, books.value));
    }

    /**
     * `get_video_details`: copies the header template and adds the content
     * headers, copies the parameter template and sets `_rticket`, posts the
     * series body, and projects a 200 body.
     */
    method GetVideoDetails(seriesId: string, uuidInt: nat, response: Response)
      returns (request: Request, result: Result<DetailsReply, Fault>)
      requires uuidInt < Rticket.TwoTo128
      ensures request == VideoDetailRequest(CurrentTemplates(), seriesId, Rticket.Generate(uuidInt))
      ensures result == DetailsOutcome(response)
    {
      var url := baseUrl + VideoDetailPath;
      var headers := commonHeaders.Copy();
      headers.Update(VideoDetailHeaders);
      var params := commonParams.Copy();
      params.Put("_rticket", Rticket.Generate(uuidInt));
      var data := VideoDetailBody(seriesId);
      request := Request(POST, url, headers.entries, params.entries, Some(data));
      if response.status != 200 {
        return request, Ok(DetailsReply(response.status, []));
      }
      var videos := ExtractVideosFromDetails(response.body);
      if videos.Err? {
        return request, Err(videos.error);
      }
      result := Ok(DetailsReply(response.status, videos.value));
    }

    /**
     * `get_video_model`: as `get_video_details` with the model headers and
     * body; a 200 body is reduced to the URL pair.
     */
    method GetVideoModel(videoId: string, uuidInt: nat, response: Response)
      returns (request: Request, result: Result<ModelReply, Fault>)
      requires uuidInt < Rticket.TwoTo128
      ensures request == VideoModelRequest(CurrentTemplates(), videoId, Rticket.Generate(uuidInt))
      ensures result == ModelOutcome(response)
    {
      var url := baseUrl + VideoModelPath;
      var headers := commonHeaders.Copy();
      headers.Update(VideoModelHeaders);
      var params := commonParams.Copy();
      params.Put("_rticket", Rticket.Generate(uuidInt));
      var data := VideoModelBody(videoId);
      request := Request(POST, url, headers.entries, params.entries, Some(data));
      if response.status != 200 {
        return request, Ok(ModelReply(response.status, None));
      }
      var urls := ExtractVideoUrls(response.body);
      if urls.Err? {
        return request, Err(urls.error);
      }
      result := Ok(ModelReply(response.status, Some(urls.value)));
    }
  }

  /**
   * Calls never disturb the templates: after any sequence of the three
   * operations the object still builds its requests from the templates it
   * was constructed with.
   */
  method CallsLeaveTemplates(query: string, seriesId: string, videoId: string,
                             u1: nat, u2: nat, u3: nat, response: Response)
    returns (search: Request, details: Request, model: Request)
    requires u1 < Rticket.TwoTo128 && u2 < Rticket.TwoTo128 && u3 < Rticket.TwoTo128
    ensures search == SearchRequest(Melolo, query, "0", "10", Rticket.Generate(u1))
    ensures details == VideoDetailRequest(Melolo, seriesId, Rticket.Generate(u2))
    ensures model == VideoModelRequest(Melolo, videoId, Rticket.Generate(u3))
  {
    var api := new TmtReaderApi();
    var r1, r2, r3;
    search, r1 := api.SearchNovels(query, "0", "10", u1, response);
    details, r2 := api.GetVideoDetails(seriesId, u2, response);
    model, r3 := api.GetVideoModel(videoId, u3, response);
  }
}
