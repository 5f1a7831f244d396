/**
 * The three response projectors of `TMTReaderAPI`: each takes the parsed
 * upstream body and keeps a fixed handful of fields. Each is given as a
 * specification function and, where the source loops, as a method with
 * loop invariants proved equal to it.
 */
module Projector {
  import opened Wrappers
  import opened JsonValue
  import opened Traversal

  /** `key` present in `m`: `v` is the stored value, whatever its type; absent: `v` is `default`. */
  predicate CopiedOrDefault(m: map<string, Json>, key: string, default: Json, v: Json) {
    (key in m ==> v == m[key]) && (key !in m ==> v == default)
  }

  // ---------------------------------------------------------------- search

  /** One entry of the search result: `series_id`, `title`, `last_chapter_index`, `thumb_url`. */
  datatype BookInfo = BookInfo(seriesId: Json, title: Json, lastChapterIndex: Json, thumbUrl: Json)

  /** The dict the relay returns for one book. */
  function BookJson(b: BookInfo): (r: Json)
    ensures r.Obj? && r.fields.Keys == {"series_id", "title", "last_chapter_index", "thumb_url"}
    ensures r.fields["series_id"] == b.seriesId && r.fields["title"] == b.title
    ensures r.fields["last_chapter_index"] == b.lastChapterIndex && r.fields["thumb_url"] == b.thumbUrl
  {
    Obj(map["series_id" := b.seriesId, "title" := b.title,
            "last_chapter_index" := b.lastChapterIndex, "thumb_url" := b.thumbUrl])
  }

  /** The four `book.get(...)` calls that build one `book_info`. */
  function BookOf(book: Json): (r: Result<BookInfo, Fault>)
    ensures r.Ok? <==> book.Obj?
    ensures r.Err? ==> r.error == NotAnObject
    ensures r.Ok? ==> CopiedOrDefault(book.fields, "book_id", EmptyStr, r.value.seriesId)
    ensures r.Ok? ==> CopiedOrDefault(book.fields, "book_name", EmptyStr, r.value.title)
    ensures r.Ok? ==> CopiedOrDefault(book.fields, "last_chapter_index", EmptyStr, r.value.lastChapterIndex)
    ensures r.Ok? ==> CopiedOrDefault(book.fields, "thumb_url", EmptyStr, r.value.thumbUrl)
  {
    match book
    case Obj(m) =>
      Ok(BookInfo(Lookup(m, "book_id", EmptyStr), Lookup(m, "book_name", EmptyStr),
                  Lookup(m, "last_chapter_index", EmptyStr), Lookup(m, "thumb_url", EmptyStr)))
    case _ => Err(NotAnObject)
  }

  /** `json_data.get("data", {}).get("search_data", [])`, iterated. */
  function SearchGroups(json: Json): Result<seq<Json>, Fault> {
    var data :- Get(json, "data", EmptyObj);
    var searchData :- Get(data, "search_data", EmptyArr);
    Elements(searchData)
  }

  /** `item.get("books", [])`, iterated. */
  function GroupEntries(group: Json): Result<seq<Json>, Fault> {
    var items :- Get(group, "books", EmptyArr);
    Elements(items)
  }

  /** The books one group contributes, in order. */
  function BooksOfGroup(group: Json): Result<seq<BookInfo>, Fault> {
    var entries :- GroupEntries(group);
    Traverse(entries, BookOf)
  }

  /** What `_extract_books_from_search` returns (or the fault it raises). */
  function SearchBooks(json: Json): Result<seq<BookInfo>, Fault> {
    var groups :- SearchGroups(json);
    var lists :- Traverse(groups, BooksOfGroup);
    Ok(Flatten(lists))
  }

  /** The raw book objects of a search body, group after group: the reference the projection is compared with. */
  ghost function SearchEntryLists(json: Json): Result<seq<seq<Json>>, Fault> {
    var groups :- SearchGroups(json);
    Traverse(groups, GroupEntries)
  }

  /** `_extract_books_from_search`: nested loops appending one record per book. */
  method ExtractBooksFromSearch(json: Json) returns (r: Result<seq<BookInfo>, Fault>)
    ensures r == SearchBooks(json)
  {
    var data :- Get(json, "data", EmptyObj);
    var searchData :- Get(data, "search_data", EmptyArr);
    var groups :- Elements(searchData);
    var books: seq<BookInfo> := [];
    ghost var lists: seq<seq<BookInfo>> := [];
    for i := 0 to |groups|
      invariant Traverse(groups[..i], BooksOfGroup) == Ok(lists)
      invariant books == Flatten(lists)
    {
      var itemBooks := Get(groups[i], "books", EmptyArr);
      var entries := if itemBooks.Ok? then Elements(itemBooks.value) else Err(NotAnObject);
      if entries.Err? {
        TraverseFirstFault(groups, BooksOfGroup, i);
        return Err(entries.error);
      }
      ghost var group: seq<BookInfo> := [];
      ghost var before := books;
      for j := 0 to |entries.value|
        invariant Traverse(entries.value[..j], BookOf) == Ok(group)
        invariant books == before + group
      {
        var info := BookOf(entries.value[j]);
        if info.Err? {
          TraverseFirstFault(entries.value, BookOf, j);
          TraverseFirstFault(groups, BooksOfGroup, i);
          return Err(info.error);
        }
        TraverseStep(entries.value, BookOf, j, group, info.value);
        books := books + [info.value];
        group := group + [info.value];
      }
      assert entries.value[..|entries.value|] == entries.value;
      TraverseStep(groups, BooksOfGroup, i, lists, group);
      FlattenSnoc(lists, group);
      lists := lists + [group];
    }
    assert groups[..|groups|] == groups;
    r := Ok(books);
  }

  lemma {:induction false} FlattenConcat<T>(xs: seq<seq<T>>, ys: seq<seq<T>>)
    ensures Flatten(xs + ys) == Flatten(xs) + Flatten(ys)
    decreases |ys|
  {
    if ys == [] {
      assert xs + ys == xs;
    } else {
      var n := |ys| - 1;
      assert (xs + ys)[..|xs + ys| - 1] == xs + ys[..n];
      FlattenConcat(xs, ys[..n]);
    }
  }

  /** Projecting group by group and flattening is the same as flattening the raw books and projecting each. */
  lemma {:induction false} ProjectGroupsThenFlatten(gs: seq<Json>)
    ensures Traverse(gs, BooksOfGroup).Ok? <==>
              Traverse(gs, GroupEntries).Ok? && Traverse(Flatten(Traverse(gs, GroupEntries).value), BookOf).Ok?
    ensures Traverse(gs, BooksOfGroup).Ok? ==>
              Flatten(Traverse(gs, BooksOfGroup).value)
              == Traverse(Flatten(Traverse(gs, GroupEntries).value), BookOf).value
    decreases |gs|
  {
    if gs != [] {
      var n := |gs| - 1;
      var init, g := gs[..n], gs[n];
      ProjectGroupsThenFlatten(init);
      if Traverse(init, GroupEntries).Ok? && GroupEntries(g).Ok? {
        var lists := Traverse(init, GroupEntries).value;
        FlattenSnoc(lists, GroupEntries(g).value);
        TraverseConcat(Flatten(lists), GroupEntries(g).value, BookOf);
        if Traverse(init, BooksOfGroup).Ok? && BooksOfGroup(g).Ok? {
          FlattenSnoc(Traverse(init, BooksOfGroup).value, BooksOfGroup(g).value);
        }
      }
    }
  }

  /**
   * The search projection succeeds exactly when the body has the expected
   * nesting and every book is an object; then it has one record per book,
   * books of earlier groups first, and record k is the projection of book k.
   */
  lemma SearchBooksFlattens(json: Json)
    ensures SearchBooks(json).Ok? <==>
              SearchEntryLists(json).Ok? &&
              forall k :: 0 <= k < |Flatten(SearchEntryLists(json).value)| ==> Flatten(SearchEntryLists(json).value)[k].Obj?
    ensures SearchBooks(json).Ok? ==>
              var entries := Flatten(SearchEntryLists(json).value);
              var books := SearchBooks(json).value;
              |books| == |entries| && forall k :: 0 <= k < |entries| ==> BookOf(entries[k]) == Ok(books[k])
  {
    if SearchGroups(json).Ok? {
      var gs := SearchGroups(json).value;
      ProjectGroupsThenFlatten(gs);
      if Traverse(gs, GroupEntries).Ok? {
        TraverseOk(Flatten(Traverse(gs, GroupEntries).value), BookOf);
      }
    }
  }

  /**
   * The number of records is the total number of `books` entries over all
   * `search_data` groups.
   */
  lemma SearchBooksCount(json: Json, books: seq<BookInfo>, lists: seq<seq<Json>>)
    requires SearchBooks(json) == Ok(books)
    requires SearchEntryLists(json) == Ok(lists)
    ensures |books| == TotalLength(lists)
  {
    SearchBooksFlattens(json);
    FlattenLength(lists);
  }

  /**
   * Book `j` of group `i` becomes record `Offset(lists, i) + j`: group order
   * first, then order within the group.
   */
  lemma SearchBooksOrder(json: Json, books: seq<BookInfo>, lists: seq<seq<Json>>, i: nat, j: nat)
    requires SearchBooks(json) == Ok(books)
    requires SearchEntryLists(json) == Ok(lists)
    requires i < |lists| && j < |lists[i]|
    ensures Offset(lists, i) + j < |books|
    ensures BookOf(lists[i][j]) == Ok(books[Offset(lists, i) + j])
  {
    SearchBooksFlattens(json);
    FlattenIndex(lists, i, j);
  }

  /** A body without `data`, or whose `data` has no `search_data`, projects to no books. */
  lemma SearchWithoutData(json: Json)
    requires json.Obj?
    requires "data" !in json.fields || (json.fields["data"].Obj? && "search_data" !in json.fields["data"].fields)
    ensures SearchBooks(json) == Ok([])
  {
  }

  /** A group object without a `books` key projects to no books. */
  lemma GroupWithoutBooks(group: Json)
    requires group.Obj? && "books" !in group.fields
    ensures Traverse([group], BooksOfGroup) == Ok([[]])
  {
    assert BooksOfGroup(group) == Ok([]);
    assert [group][..0] == [];
    var none: seq<seq<BookInfo>> := [];
    assert none + [[]] == [[]];
  }

  /** A group without a `books` key contributes nothing: dropping it leaves the projection unchanged. */
  lemma SearchGroupWithoutBooks(before: seq<Json>, group: Json, after: seq<Json>)
    requires group.Obj? && "books" !in group.fields
    ensures Traverse(before + [group] + after, BooksOfGroup).Ok? <==> Traverse(before + after, BooksOfGroup).Ok?
    ensures Traverse(before + [group] + after, BooksOfGroup).Ok? ==>
              Flatten(Traverse(before + [group] + after, BooksOfGroup).value)
              == Flatten(Traverse(before + after, BooksOfGroup).value)
  {
    GroupWithoutBooks(group);
    TraverseConcat(before, [group], BooksOfGroup);
    TraverseConcat(before + [group], after, BooksOfGroup);
    TraverseConcat(before, after, BooksOfGroup);
    if Traverse(before, BooksOfGroup).Ok? && Traverse(after, BooksOfGroup).Ok? {
      var b := Traverse(before, BooksOfGroup).value;
      var a := Traverse(after, BooksOfGroup).value;
      assert Traverse(before + [group], BooksOfGroup).value == b + [[]];
      assert Traverse(before + [group] + after, BooksOfGroup).value == (b + [[]]) + a;
      assert Traverse(before + after, BooksOfGroup).value == b + a;
      calc {
        Flatten((b + [[]]) + a);
        { FlattenConcat(b + [[]], a); }
        Flatten(b + [[]]) + Flatten(a);
        { FlattenSnoc(b, []); }
        Flatten(b) + Flatten(a);
        { FlattenConcat(b, a); }
        Flatten(b + a);
      }
    }
  }

  /** A group whose `books` is a one-element list contributes that book's record alone. */
  lemma SingleBookGroup(book: Json, r: BookInfo)
    requires BookOf(book) == Ok(r)
    ensures BooksOfGroup(Obj(map["books" := Arr([book])])) == Ok([r])
  {
    var noBooks: seq<BookInfo> := [];
    assert GroupEntries(Obj(map["books" := Arr([book])])) == Ok([book]);
    TraverseStep([book], BookOf, 0, noBooks, r);
    assert [book][..1] == [book] && noBooks + [r] == [r];
  }

  /** Two groups project to their two lists of records, in order. */
  lemma TwoGroups(g1: Json, g2: Json, l1: seq<BookInfo>, l2: seq<BookInfo>)
    requires BooksOfGroup(g1) == Ok(l1) && BooksOfGroup(g2) == Ok(l2)
    ensures Traverse([g1, g2], BooksOfGroup) == Ok([l1, l2])
  {
    var noLists: seq<seq<BookInfo>> := [];
    TraverseStep([g1, g2], BooksOfGroup, 0, noLists, l1);
    assert noLists + [l1] == [l1] && [g1, g2][..1] == [g1];
    TraverseStep([g1, g2], BooksOfGroup, 1, [l1], l2);
    assert [g1, g2][..2] == [g1, g2] && [l1] + [l2] == [l1, l2];
  }

  /**
   * Two groups of one book each flatten into two records in group order;
   * keys a book lacks become "", and a `thumb_url` that is present is kept.
   */
  lemma SearchExample()
    ensures SearchBooks(Obj(map["data" := Obj(map["search_data" := Arr([
              Obj(map["books" := Arr([Obj(map["book_id" := Str("1"), "book_name" := Str("A")])])]),
              Obj(map["books" := Arr([Obj(map["book_id" := Str("2"), "book_name" := Str("B"), "thumb_url" := Str("x")])])])
            ])])]))
            == Ok([BookInfo(Str("1"), Str("A"), EmptyStr, EmptyStr), BookInfo(Str("2"), Str("B"), EmptyStr, Str("x"))])
  {
    var b1 := Obj(map["book_id" := Str("1"), "book_name" := Str("A")]);
    var b2 := Obj(map["book_id" := Str("2"), "book_name" := Str("B"), "thumb_url" := Str("x")]);
    var g1 := Obj(map["books" := Arr([b1])]);
    var g2 := Obj(map["books" := Arr([b2])]);
    var r1 := BookInfo(Str("1"), Str("A"), EmptyStr, EmptyStr);
    var r2 := BookInfo(Str("2"), Str("B"), EmptyStr, Str("x"));
    var json := Obj(map["data" := Obj(map["search_data" := Arr([g1, g2])])]);
    assert BookOf(b1) == Ok(r1) && BookOf(b2) == Ok(r2);
    SingleBookGroup(b1, r1);
    SingleBookGroup(b2, r2);
    TwoGroups(g1, g2, [r1], [r2]);
    assert SearchGroups(json) == Ok([g1, g2]);
    var noLists: seq<seq<BookInfo>> := [];
    FlattenSnoc(noLists, [r1]);
    FlattenSnoc([[r1]], [r2]);
    assert noLists + [[r1]] == [[r1]] && [[r1]] + [[r2]] == [[r1], [r2]];
    assert Flatten([[r1], [r2]]) == [r1, r2];
  }

  // ---------------------------------------------------------------- video details

  /** One entry of the video-detail result: `duration`, `digged_count`, `video_id`, `chapter`. */
  datatype VideoInfo = VideoInfo(duration: Json, diggedCount: Json, videoId: Json, chapter: Json)

  /** The dict the relay returns for one video. */
  function VideoJson(v: VideoInfo): (r: Json)
    ensures r.Obj? && r.fields.Keys == {"duration", "digged_count", "video_id", "chapter"}
    ensures r.fields["duration"] == v.duration && r.fields["digged_count"] == v.diggedCount
    ensures r.fields["video_id"] == v.videoId && r.fields["chapter"] == v.chapter
  {
    Obj(map["duration" := v.duration, "digged_count" := v.diggedCount,
            "video_id" := v.videoId, "chapter" := v.chapter])
  }

  /** The four `video.get(...)` calls that build one `video_info`. */
  function VideoOf(video: Json): (r: Result<VideoInfo, Fault>)
    ensures r.Ok? <==> video.Obj?
    ensures r.Err? ==> r.error == NotAnObject
    ensures r.Ok? ==> CopiedOrDefault(video.fields, "duration", Num(0), r.value.duration)
    ensures r.Ok? ==> CopiedOrDefault(video.fields, "digged_count", Num(0), r.value.diggedCount)
    ensures r.Ok? ==> CopiedOrDefault(video.fields, "vid", EmptyStr, r.value.videoId)
    ensures r.Ok? ==> CopiedOrDefault(video.fields, "vid_index", EmptyStr, r.value.chapter)
  {
    match video
    case Obj(m) =>
      Ok(VideoInfo(Lookup(m, "duration", Num(0)), Lookup(m, "digged_count", Num(0)),
                   Lookup(m, "vid", EmptyStr), Lookup(m, "vid_index", EmptyStr)))
    case _ => Err(NotAnObject)
  }

  /** `json_data.get("data", {}).get("video_data", {}).get("video_list", [])`, iterated. */
  function VideoList(json: Json): Result<seq<Json>, Fault> {
    var data :- Get(json, "data", EmptyObj);
    var videoData :- Get(data, "video_data", EmptyObj);
    var videoList :- Get(videoData, "video_list", EmptyArr);
    Elements(videoList)
  }

  /** What `_extract_videos_from_details` returns (or the fault it raises). */
  function VideosFromDetails(json: Json): Result<seq<VideoInfo>, Fault> {
    var entries :- VideoList(json);
    Traverse(entries, VideoOf)
  }

  /** `_extract_videos_from_details`: one loop appending one record per video. */
  method ExtractVideosFromDetails(json: Json) returns (r: Result<seq<VideoInfo>, Fault>)
    ensures r == VideosFromDetails(json)
  {
    var data :- Get(json, "data", EmptyObj);
    var videoData :- Get(data, "video_data", EmptyObj);
    var videoList :- Get(videoData, "video_list", EmptyArr);
    var entries :- Elements(videoList);
    var videos: seq<VideoInfo> := [];
    for i := 0 to |entries|
      invariant Traverse(entries[..i], VideoOf) == Ok(videos)
    {
      var info := VideoOf(entries[i]);
      if info.Err? {
        TraverseFirstFault(entries, VideoOf, i);
        return Err(info.error);
      }
      TraverseStep(entries, VideoOf, i, videos, info.value);
      videos := videos + [info.value];
    }
    assert entries[..|entries|] == entries;
    r := Ok(videos);
  }

  /**
   * The video-detail projection is a one-to-one, order-preserving map over
   * `data.video_data.video_list`; it succeeds exactly when the list can be
   * walked and every entry is an object.
   */
  lemma VideosOneToOne(json: Json)
    ensures VideosFromDetails(json).Ok? <==>
              VideoList(json).Ok? && forall k :: 0 <= k < |VideoList(json).value| ==> VideoList(json).value[k].Obj?
    ensures VideosFromDetails(json).Ok? ==>
              |VideosFromDetails(json).value| == |VideoList(json).value| &&
              forall k :: 0 <= k < |VideoList(json).value| ==>
                VideoOf(VideoList(json).value[k]) == Ok(VideosFromDetails(json).value[k])
  {
    if VideoList(json).Ok? {
      TraverseOk(VideoList(json).value, VideoOf);
    }
  }

  /** A body without `data`, `video_data` or `video_list` projects to no videos. */
  lemma VideosWithoutList(json: Json)
    requires json.Obj?
    requires "data" !in json.fields
             || (json.fields["data"].Obj? && "video_data" !in json.fields["data"].fields)
             || (json.fields["data"].Obj? && json.fields["data"].fields["video_data"].Obj?
                 && "video_list" !in json.fields["data"].fields["video_data"].fields)
    ensures VideosFromDetails(json) == Ok([])
  {
  }

  // ---------------------------------------------------------------- video model

  /** The pair returned by the video-model projection. */
  datatype VideoUrls = VideoUrls(backupUrl: Json, mainUrl: Json)

  /** The dict the relay returns for the pair. */
  function UrlsJson(u: VideoUrls): (r: Json)
    ensures r.Obj? && r.fields.Keys == {"backup_url", "main_url"}
    ensures r.fields["backup_url"] == u.backupUrl && r.fields["main_url"] == u.mainUrl
  {
    Obj(map["backup_url" := u.backupUrl, "main_url" := u.mainUrl])
  }

  /** `_extract_video_urls`: `data = json_data.get("data", {})`, then two lookups in it. */
  function ExtractVideoUrls(json: Json): (r: Result<VideoUrls, Fault>)
    ensures r.Ok? <==> json.Obj? && ("data" !in json.fields || json.fields["data"].Obj?)
    ensures r.Ok? && "data" !in json.fields ==> r.value == VideoUrls(EmptyStr, EmptyStr)
    ensures r.Ok? && "data" in json.fields ==>
              CopiedOrDefault(json.fields["data"].fields, "backup_url", EmptyStr, r.value.backupUrl) &&
              CopiedOrDefault(json.fields["data"].fields, "main_url", EmptyStr, r.value.mainUrl)
  {
    var data :- Get(json, "data", EmptyObj);
    match data
    case Obj(m) => Ok(VideoUrls(Lookup(m, "backup_url", EmptyStr), Lookup(m, "main_url", EmptyStr)))
    case _ => Err(NotAnObject)
  }
}
