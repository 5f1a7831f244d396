/**
 * The argument checks of the three Flask handlers, and the handlers as
 * functions of the query arguments and of the upstream, so that "rejected
 * without an upstream call" can be stated.
 */
module Endpoints {
  import opened Wrappers
  import opened JsonValue
  import opened Requests
  import opened ReaderApi
  import Rticket

  /** `jsonify({"error": message}), 400` */
  datatype BadRequest = BadRequest(status: int, message: string)

  /** The arguments `/api/search` passes on. */
  datatype SearchArgs = SearchArgs(query: string, offset: string, limit: string)

  /** What a handler returns: a 400, or the request it sent with the operation's reply (or fault). */
  datatype HandlerReply<T> = Rejected(bad: BadRequest) | Relayed(sent: Request, reply: Result<T, Fault>)

  /** `request.args.get(name, default=d)`: the default only when the argument is absent. */
  function ArgOr(arg: Option<string>, default: string): string {
    if arg.Some? then arg.value else default
  }

  /**
   * `/api/search`: an absent `query` becomes "super keren"; one given but
   * empty is refused; `offset` and `limit` default to "0" and "10" and are
   * passed on unchecked, even when empty.
   */
  function CheckSearchArgs(query: Option<string>, offset: Option<string>, limit: Option<string>)
    : (r: Result<SearchArgs, BadRequest>)
    ensures r.Err? <==> query == Some("")
    ensures r.Err? ==> r.error == BadRequest(400, "Query parameter is required")
    ensures r.Ok? ==> r.value.query != ""
    ensures r.Ok? && query.None? ==> r.value.query == "super keren"
    ensures r.Ok? && query.Some? ==> r.value.query == query.value
    ensures r.Ok? && offset.None? ==> r.value.offset == "0"
    ensures r.Ok? && offset.Some? ==> r.value.offset == offset.value
    ensures r.Ok? && limit.None? ==> r.value.limit == "10"
    ensures r.Ok? && limit.Some? ==> r.value.limit == limit.value
  {
    var q := ArgOr(query, "super keren");
    if q == "" then Err(BadRequest(400, "Query parameter is required"))
    else Ok(SearchArgs(q, ArgOr(offset, "0"), ArgOr(limit, "10")))
  }

  /** `series_id` / `video_id`: `request.args.get(name)` and `if not value`: absent or empty is refused. */
  function CheckRequiredArg(arg: Option<string>, name: string): (r: Result<string, BadRequest>)
    ensures r.Err? <==> arg.None? || arg == Some("")
    ensures r.Err? ==> r.error == BadRequest(400, name + " parameter is required")
    ensures r.Ok? ==> r.value == arg.value && r.value != ""
  {
    if arg.None? || arg.value == "" then Err(BadRequest(400, name + " parameter is required"))
    else Ok(arg.value)
  }

  /**
   * The `/api/search` handler: checks the arguments, then runs
   * `search_novels` against `upstream`.
   */
  function SearchEndpoint(query: Option<string>, offset: Option<string>, limit: Option<string>,
                          uuidInt: nat, upstream: Request -> Response): (r: HandlerReply<SearchReply>)
    requires uuidInt < Rticket.TwoTo128
    ensures r.Rejected? <==> query == Some("")
    ensures r.Rejected? ==> r.bad == BadRequest(400, "Query parameter is required")
    ensures r.Relayed? ==> r.sent == SearchRequest(Melolo, ArgOr(query, "super keren"), ArgOr(offset, "0"),
                                                   ArgOr(limit, "10"), Rticket.Generate(uuidInt))
    ensures r.Relayed? ==> r.reply == SearchOutcome(upstream(r.sent))
  {
    match CheckSearchArgs(query, offset, limit)
    case Err(bad) => Rejected(bad)
    case Ok(args) =>
      var sent := SearchRequest(Melolo, args.query, args.offset, args.limit, Rticket.Generate(uuidInt));
      Relayed(sent, SearchOutcome(upstream(sent)))
  }

  /** The two refusal messages `CheckRequiredArg` builds, spelled out. */
  lemma RequiredMessages()
    ensures "series_id" + " parameter is required" == "series_id parameter is required"
    ensures "video_id" + " parameter is required" == "video_id parameter is required"
  {
  }

  /** The `/api/video-details` handler. */
  function VideoDetailsEndpoint(seriesId: Option<string>, uuidInt: nat, upstream: Request -> Response)
    : (r: HandlerReply<DetailsReply>)
    requires uuidInt < Rticket.TwoTo128
    ensures r.Rejected? <==> seriesId.None? || seriesId == Some("")
    ensures r.Rejected? ==> r.bad == BadRequest(400, "series_id parameter is required")
    ensures r.Relayed? ==> r.sent == VideoDetailRequest(Melolo, seriesId.value, Rticket.Generate(uuidInt))
    ensures r.Relayed? ==> r.reply == DetailsOutcome(upstream(r.sent))
  {
    match CheckRequiredArg(seriesId, "series_id")
    case Err(bad) => RequiredMessages(); Rejected(bad)
    case Ok(id) =>
      var sent := VideoDetailRequest(Melolo, id, Rticket.Generate(uuidInt));
      Relayed(sent, DetailsOutcome(upstream(sent)))
  }

  /** The `/api/video-model` handler. */
  function VideoModelEndpoint(videoId: Option<string>, uuidInt: nat, upstream: Request -> Response)
    : (r: HandlerReply<ModelReply>)
    requires uuidInt < Rticket.TwoTo128
    ensures r.Rejected? <==> videoId.None? || videoId == Some("")
    ensures r.Rejected? ==> r.bad == BadRequest(400, "video_id parameter is required")
    ensures r.Relayed? ==> r.sent == VideoModelRequest(Melolo, videoId.value, Rticket.Generate(uuidInt))
    ensures r.Relayed? ==> r.reply == ModelOutcome(upstream(r.sent))
  {
    match CheckRequiredArg(videoId, "video_id")
    case Err(bad) => RequiredMessages(); Rejected(bad)
    case Ok(id) =>
      var sent := VideoModelRequest(Melolo, id, Rticket.Generate(uuidInt));
      Relayed(sent, ModelOutcome(upstream(sent)))
  }

  /**
   * A refused request never reaches the upstream: the handler's reply is
   * the same whatever the upstream would have answered.
   */
  lemma RejectedWithoutUpstreamCall(query: Option<string>, offset: Option<string>, limit: Option<string>,
                                    seriesId: Option<string>, videoId: Option<string>,
                                    uuidInt: nat, up1: Request -> Response, up2: Request -> Response)
    requires uuidInt < Rticket.TwoTo128
    ensures query == Some("") ==>
              SearchEndpoint(query, offset, limit, uuidInt, up1) == SearchEndpoint(query, offset, limit, uuidInt, up2)
    ensures seriesId.None? || seriesId == Some("") ==>
              VideoDetailsEndpoint(seriesId, uuidInt, up1) == VideoDetailsEndpoint(seriesId, uuidInt, up2)
    ensures videoId.None? || videoId == Some("") ==>
              VideoModelEndpoint(videoId, uuidInt, up1) == VideoModelEndpoint(videoId, uuidInt, up2)
  {
  }
}
