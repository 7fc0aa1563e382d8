/** The `/board` routes: the page offset of post listings, the read-level
    check, the objects handed to the data layer for posts and documents,
    and the poster paths of a new exhibition. */
module Board {
  import opened Json

  /** Posts per page. */
  const RowNum := 10

  /** The offset for `?page=`: `page` is the number JavaScript compares the
      query text as, `None` when it is absent or not a number. */
  function Offset(page: Option<real>): (offset: real)
    ensures offset == 0.0 <==> page.None? || page.value <= 0.0 || page.value == 1.0
    ensures offset < 0.0 <==> page.Some? && 0.0 < page.value < 1.0
  {
    if page.Some? && page.value > 0.0 then (RowNum as real) * (page.value - 1.0) else 0.0
  }

  /** `offset` starts at 0 and is reassigned for a positive page. */
  method PostsOffset(page: Option<real>) returns (offset: real)
    ensures offset == Offset(page)
  {
    offset := 0.0;
    if page.Some? && page.value > 0.0 {
      offset := (RowNum as real) * (page.value - 1.0);
    }
  }

  /** Page k (k >= 1) starts after k - 1 full pages: its offset is a
      non-negative multiple of the page size, and the next page starts
      exactly one page size later. */
  lemma OffsetOfWholePages(k: int)
    requires k >= 1
    ensures Offset(Some(k as real)) == (RowNum * (k - 1)) as real
    ensures Offset(Some(k as real)) >= 0.0
    ensures Offset(Some((k + 1) as real)) == Offset(Some(k as real)) + RowNum as real
  {
  }

  /** A missing, non-numeric, zero or negative page reads from the start;
      a page strictly between 0 and 1 gives a negative offset. */
  lemma OffsetOfOtherPages(page: Option<real>)
    ensures page.None? || page.value <= 0.0 ==> Offset(page) == 0.0
    ensures page.Some? && 0.0 < page.value < 1.0 ==> Offset(page) < 0.0
  {
  }

  /** A board as `retrieveBoard` gives it. */
  datatype BoardInfo = BoardInfo(lvRead: int, details: Object)

  datatype BoardReply =
    | BoardShown(board: BoardInfo)   // 200 { boardInfo }
    | BoardNext(err: HttpError)      // handed to `next`
    | BoardServerError               // 500 { error: 'internal server error', code: 0 }

  /** GET `/:board_id`: `lookup` is the board, `None` when the query fails
      or finds nothing (reading `lv_read` of `null` throws into the same
      `.catch`). */
  function ReadBoard(lookup: Option<BoardInfo>, level: int): (r: BoardReply)
    ensures r.BoardNext? <==> lookup.Some? && ReadDenied(lookup.value.lvRead, level)
    ensures r.BoardNext? ==> r.err == Forbidden
    ensures r.BoardShown? <==> lookup.Some? && !ReadDenied(lookup.value.lvRead, level)
    ensures r.BoardShown? ==> r.board == lookup.value
    ensures r.BoardServerError? <==> lookup.None?
  {
    match lookup
    case None => BoardServerError
    case Some(board) => if board.lvRead > level then BoardNext(HttpError(403, 4001)) else BoardShown(board)
  }

  /** A board a reader may open stays open to every reader of a higher level. */
  lemma ReadBoardMonotone(lookup: Option<BoardInfo>, level: int, higher: int)
    requires level <= higher
    requires ReadBoard(lookup, level).BoardShown?
    ensures ReadBoard(lookup, higher) == ReadBoard(lookup, level)
  {
  }

  /** `{ ...req.body, author_id, board_id }`: the author is the token's
      user and the board the path's, whatever the body says; every other
      body field is passed on unchanged. */
  function PostPayload(body: Object, authorId: int, boardId: string): (p: Object)
    ensures p.Keys == body.Keys + {"author_id", "board_id"}
    ensures p["author_id"] == Num(authorId) && p["board_id"] == Str(boardId)
    ensures forall k :: k in body && k != "author_id" && k != "board_id" ==> p[k] == body[k]
  {
    body["author_id" := Num(authorId)]["board_id" := Str(boardId)]
  }

  /** The object handed to `createDocument`. */
  datatype DocumentData = DocumentData(
    contentUuid: string, authorId: int, boardId: string,
    categoryId: Value, title: Value, text: Value,
    docType: string, generation: Value)

  /** The document payload: author and board from the token and the path,
      type always 'DO', and `generation` the body's value when truthy and
      `null` otherwise. */
  function DocumentPayload(uuid: string, userId: int, boardId: string, body: Object): (d: DocumentData)
    ensures d.docType == "DO"
    ensures d.contentUuid == uuid && d.authorId == userId && d.boardId == boardId
    ensures d.categoryId == Get(body, "category_id") && d.title == Get(body, "title") && d.text == Get(body, "text")
    ensures d.generation == Null <==> !Truthy(Get(body, "generation"))
    ensures d.generation != Null ==> d.generation == Get(body, "generation")
  {
    var generation := Get(body, "generation");
    DocumentData(uuid, userId, boardId,
      Get(body, "category_id"), Get(body, "title"), Get(body, "text"),
      "DO", if Truthy(generation) then generation else Null)
  }

  /** Index of the last `c` in `s`, if any. */
  function LastIndexOf(s: string, c: char): (r: Option<nat>)
    ensures r.Some? ==> r.value < |s| && s[r.value] == c && c !in s[r.value + 1..]
    ensures r.None? ==> c !in s
  {
    if s == [] then None
    else if s[|s| - 1] == c then Some(|s| - 1)
    else
      var r := LastIndexOf(s[..|s| - 1], c);
      assert r.Some? ==> s[r.value + 1..] == s[..|s| - 1][r.value + 1..] + [s[|s| - 1]];
      r
  }

  /** `path.extname(name)` for a stored file name (which has no '/'): from
      the last '.' on, except that a dot that starts the name, and the name
      `..`, give no extension. */
  function ExtName(name: string): (ext: string)
    requires '/' !in name
    ensures ext == [] || (ext[0] == '.' && '.' !in ext[1..])
    ensures |ext| < |name| || ext == []
    ensures ext == name[|name| - |ext|..]
    ensures ext != [] <==> (exists i :: 0 < i < |name| && name[i] == '.') && name != ".."
  {
    match LastIndexOf(name, '.')
    case None => ""
    case Some(i) =>
      if i == 0 then
        assert forall j :: 0 < j < |name| ==> name[j] == name[1..][j - 1];
        ""
      else if name == ".." then ""
      else name[i..]
  }

  /** `path.basename(name, path.extname(name))`: the name without its
      extension; putting the extension back gives the name. */
  function Stem(name: string): (stem: string)
    requires '/' !in name
    ensures stem + ExtName(name) == name
    ensures ExtName(name) != [] ==> stem != []
  {
    name[..|name| - |ExtName(name)|]
  }

  /** `/exhibition/{no}/{filename}`. */
  function PosterPath(no: string, filename: string): string
  {
    "/exhibition/" + no + "/" + filename
  }

  /** `/exhibition/{no}/{name without extension}_thumb.jpeg`. */
  function ThumbnailPath(no: string, filename: string): string
    requires '/' !in filename
  {
    "/exhibition/" + no + "/" + Stem(filename) + "_thumb.jpeg"
  }

  /** The poster and its thumbnail sit in the same exhibition folder; the
      thumbnail's name is the poster's with its extension replaced by
      `_thumb.jpeg`. */
  lemma PosterAndThumbnailShareFolder(no: string, filename: string)
    requires '/' !in filename
    ensures var folder := "/exhibition/" + no + "/";
      && PosterPath(no, filename) == folder + Stem(filename) + ExtName(filename)
      && ThumbnailPath(no, filename) == folder + Stem(filename) + "_thumb.jpeg"
  {
  }

  /** The body of POST `/:board_id/exhibition`, which the handler extends in
      place with the poster paths. */
  class ExhibitionBody {
    var fields: Object

    constructor (fields: Object)
      ensures this.fields == fields
    {
      this.fields := fields;
    }
  }

  datatype ExhibitionReply =
    | PosterMissing       // 409 { error: 'POSTER IS NOT ATTACHED', code: 1 }
    | ExhibitionCreated   // 200 { success: true }
    | ExhibitionFailed    // 500 { success: false, error: 'CREATE EXHIBITION FAIL', code: 1 }

  /** POST `/:board_id/exhibition`. `poster` is the stored poster's file
      name, `resized` whether the thumbnail is made and `stored` whether the
      content and exhibition rows are created. Without a poster the handler
      sends 409 and then stops on reading `req.file.filename` of nothing. */
  method CreateExhibition(body: ExhibitionBody, poster: Option<string>, resized: bool, stored: bool)
    returns (reply: ExhibitionReply)
    requires poster.Some? ==> '/' !in poster.value
    modifies body
    ensures poster.None? ==> reply == PosterMissing && body.fields == old(body.fields)
    ensures poster.Some? && !resized ==> reply == ExhibitionFailed && body.fields == old(body.fields)
    ensures poster.Some? && resized ==>
      var no := Interpolate(Get(old(body.fields), "exhibition_no"));
      && body.fields == old(body.fields)
           ["poster_path" := Str(PosterPath(no, poster.value))]
           ["poster_thumbnail_path" := Str(ThumbnailPath(no, poster.value))]
      && reply == if stored then ExhibitionCreated else ExhibitionFailed
  {
    if poster.None? {
      reply := PosterMissing;
      return;
    }
    var filename := poster.value;
    var basename := Stem(filename);
    if !resized {
      reply := ExhibitionFailed;
      return;
    }
    body.fields := body.fields["poster_path" := Str("/exhibition/" + Interpolate(Get(body.fields, "exhibition_no")) + "/" + filename)];
    body.fields := body.fields["poster_thumbnail_path" := Str("/exhibition/" + Interpolate(Get(body.fields, "exhibition_no")) + "/" + basename + "_thumb.jpeg")];
    reply := if stored then ExhibitionCreated else ExhibitionFailed;
  }
}
