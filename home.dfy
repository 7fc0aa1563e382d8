/** The `/riseset` route: a cache-aside pipeline that serves one record of
    sun and moon times per day. A day's record is read from `./riseset`
    when present; otherwise the rise/set service (A) and then the lunar
    phase service (B) are asked, their items merged, and the record written
    under the day key and returned. */
module RiseSet {
  import opened Json
  import opened Decimal
  import opened DayKey

  /** Fields of one parsed `<item>` element, by name. */
  type Item = map<string, string>

  /** A body that passed `xmlParser.validate`, after `xmlParser.parse`. The
      handler reads only `response.body.items.item`, which either is there
      (and truthy) or is not. */
  datatype Document = Document(item: Option<Item>)

  /** What one upstream `request.get` callback ends up with: an `err`, a
      body for which `xmlParser.validate` answers a falsy value, or a body it
      lets through, after `parse`. A body that `validate` answers with a
      truthy error object goes on to `parse` and is a `Parsed` document. */
  datatype Fetch = TransportError | Malformed | Parsed(doc: Document)

  /** The stored and returned record, as a JSON object: a field whose source
      is `undefined` is absent, since `JSON.stringify` leaves it out. */
  type AstroInfo = map<string, string>

  /** The fields taken from the rise/set item. */
  const RiseSetFields: set<string> := {"sunrise", "sunset", "moonrise", "moonset", "astm", "aste"}

  /** The one field taken from the lunar phase item. */
  const LunAge := "lunAge"

  /** The location the rise/set service is asked about. */
  const Location := "서울"

  /** The query parameters of an upstream call; the service key comes from
      the environment and is the same in both. */
  datatype Query =
    | RiseSetQuery(locdate: string, location: string)
    | LunPhaseQuery(solYear: string, solMonth: string, solDay: string)

  /** One send on the response object. */
  datatype Reply =
    | ServerError        // 500 { success: false, code: 0 }
    | Record(info: AstroInfo)

  /** The item a record field is read from. */
  function SourceOf(name: string, riseSet: Item, moonPhase: Item): Item
  {
    if name == LunAge then moonPhase else riseSet
  }

  /** The `AstroInfo` object literal: the six rise/set fields come from
      service A's item, `lunAge` from service B's, each present exactly when
      its source item has it, and no other field appears. */
  function Merge(riseSet: Item, moonPhase: Item): (info: AstroInfo)
    ensures info.Keys <= RiseSetFields + {LunAge}
    ensures forall f :: f in RiseSetFields ==> (f in info <==> f in riseSet)
    ensures forall f :: f in RiseSetFields && f in riseSet ==> info[f] == riseSet[f]
    ensures LunAge in info <==> LunAge in moonPhase
    ensures LunAge in moonPhase ==> info[LunAge] == moonPhase[LunAge]
  {
    assert LunAge !in RiseSetFields;
    map name | name in RiseSetFields + {LunAge} && name in SourceOf(name, riseSet, moonPhase)
      :: SourceOf(name, riseSet, moonPhase)[name]
  }

  /** The item a parsed document yields: `{}` when the nested path is missing. */
  function ItemOf(doc: Document): Item
  {
    match doc.item
    case Some(item) => item
    case None => map[]
  }

  /** The 500 that a missing nested item sends before the handler goes on. */
  function MissingItemReplies(doc: Document): seq<Reply>
  {
    if doc.item.Some? then [] else [ServerError]
  }

  /** What one request does: the sends in order (the client receives the
      first), the upstream calls in order, and the cache afterwards. */
  datatype Outcome = Outcome(replies: seq<Reply>, queries: seq<Query>, files: map<string, AstroInfo>)

  /** The handler as a function of the cache, the day, and what the two
      upstream calls would answer. A send after the first throws (the
      headers are already sent) and ends the callback, so when both items
      are missing the second 500 comes before the write and nothing is
      stored. Every request sends at least once, asks at most both
      services, and writes at most the day's key. */
  function Handle(files: map<string, AstroInfo>, year: nat, month: nat, day: nat, a: Fetch, b: Fetch): (o: Outcome)
    ensures 1 <= |o.replies| <= 2 && |o.queries| <= 2
    ensures o.files.Keys <= files.Keys + {DayFormat(year, month, day)}
    ensures forall k :: k in files ==> k in o.files
  {
    var key := DayFormat(year, month, day);
    if key in files then Outcome([Record(files[key])], [], files)
    else
      var queryA := RiseSetQuery(key, Location);
      var queryB := LunPhaseQuery(Show(year), Pad2(month), Pad2(day));
      match a
      case TransportError => Outcome([ServerError], [queryA], files)
      case Malformed => Outcome([ServerError], [queryA], files)
      case Parsed(docA) =>
        match b
        case TransportError => Outcome(MissingItemReplies(docA) + [ServerError], [queryA, queryB], files)
        case Malformed => Outcome(MissingItemReplies(docA) + [ServerError], [queryA, queryB], files)
        case Parsed(docB) =>
          if docA.item.None? && docB.item.None? then
            Outcome([ServerError, ServerError], [queryA, queryB], files)
          else
          var info := Merge(ItemOf(docA), ItemOf(docB));
          Outcome(MissingItemReplies(docA) + MissingItemReplies(docB) + [Record(info)],
                  [queryA, queryB], files[key := info])
  }

  /** The `./riseset` directory: one JSON file per day key. */
  class Cache {
    var files: map<string, AstroInfo>

    constructor ()
      ensures files == map[]
    {
      files := map[];
    }

    /** `existsSync` then `readFileSync` and `JSON.parse`. */
    function Lookup(key: string): (r: Option<AstroInfo>)
      reads this
      ensures r.Some? <==> key in files
      ensures r.Some? ==> r.value == files[key]
    {
      if key in files then Some(files[key]) else None
    }

    /** `writeFileSync(riseSetJsonPath, JSON.stringify(info))`. */
    method Write(key: string, info: AstroInfo)
      modifies this
      ensures files == old(files)[key := info]
    {
      files := files[key := info];
    }
  }

  /** The `/riseset` handler. `a` and `b` are what the rise/set and the
      lunar phase services answer if they are asked. */
  method ServeRiseSet(cache: Cache, year: nat, month: nat, day: nat, a: Fetch, b: Fetch)
    returns (replies: seq<Reply>, queries: seq<Query>)
    modifies cache
    ensures var o := Handle(old(cache.files), year, month, day, a, b);
      replies == o.replies && queries == o.queries && cache.files == o.files
  {
    var yearText := Show(year);
    var monthText := Pad2(month);
    var dayText := Pad2(day);
    var dayformat := yearText + monthText + dayText;
    replies, queries := [], [];

    var stored := cache.Lookup(dayformat);
    if stored.Some? {
      replies := [Record(stored.value)];
      return;
    }

    queries := [RiseSetQuery(dayformat, Location)];
    if !a.Parsed? {
      replies := [ServerError];
      return;
    }
    var riseSetItem: Item := map[];
    if a.doc.item.Some? {
      riseSetItem := a.doc.item.value;
    } else {
      replies := replies + [ServerError];
    }

    queries := queries + [LunPhaseQuery(yearText, monthText, dayText)];
    if !b.Parsed? {
      replies := replies + [ServerError];
      return;
    }
    var moonPhaseItem: Item := map[];
    if b.doc.item.Some? {
      moonPhaseItem := b.doc.item.value;
    } else {
      replies := replies + [ServerError];
      if |replies| > 1 {
        // a second send throws: the write below is never reached
        return;
      }
    }

    var info := Merge(riseSetItem, moonPhaseItem);
    cache.Write(dayformat, info);
    replies := replies + [Record(info)];
  }

  /** A day already in the cache is answered with its stored record; no
      upstream service is asked and the cache is not written. */
  lemma CacheHitServesStored(files: map<string, AstroInfo>, year: nat, month: nat, day: nat, a: Fetch, b: Fetch)
    requires DayFormat(year, month, day) in files
    ensures var o := Handle(files, year, month, day, a, b);
      o.replies == [Record(files[DayFormat(year, month, day)])] && o.queries == [] && o.files == files
  {
  }

  /** A transport error or invalid XML from the rise/set service ends the
      request with a 500: the lunar phase service is not asked and nothing
      is written. */
  lemma RiseSetFailureWritesNothing(files: map<string, AstroInfo>, year: nat, month: nat, day: nat, a: Fetch, b: Fetch)
    requires DayFormat(year, month, day) !in files
    requires !a.Parsed?
    ensures var o := Handle(files, year, month, day, a, b);
      o.replies == [ServerError] && |o.queries| == 1 && o.queries[0].RiseSetQuery? && o.files == files
  {
  }

  /** A transport error or invalid XML from the lunar phase service ends the
      request with a 500 and nothing is written. */
  lemma LunPhaseFailureWritesNothing(files: map<string, AstroInfo>, year: nat, month: nat, day: nat, a: Fetch, b: Fetch)
    requires DayFormat(year, month, day) !in files
    requires a.Parsed? && !b.Parsed?
    ensures var o := Handle(files, year, month, day, a, b);
      o.replies[|o.replies| - 1] == ServerError && !(exists r :: r in o.replies && r.Record?)
      && |o.queries| == 2 && o.files == files
  {
  }

  /** The cache changes only on a miss after both services answered with
      valid XML, and then only at the day's key, which receives the merged
      record that is also the last reply. */
  lemma WriteOnlyAfterBothParsed(files: map<string, AstroInfo>, year: nat, month: nat, day: nat, a: Fetch, b: Fetch)
    ensures var o := Handle(files, year, month, day, a, b);
      var key := DayFormat(year, month, day);
      && (o.files != files <==>
            key !in files && a.Parsed? && b.Parsed? && (a.doc.item.Some? || b.doc.item.Some?))
      && (o.files != files ==>
            && o.files == files[key := Merge(ItemOf(a.doc), ItemOf(b.doc))]
            && o.replies[|o.replies| - 1] == Record(o.files[key]))
      && (forall k :: k != key ==> (k in o.files <==> k in files))
      && (forall k :: k != key && k in files ==> o.files[k] == files[k])
  {
    var key := DayFormat(year, month, day);
    var o := Handle(files, year, month, day, a, b);
    if key !in files && a.Parsed? && b.Parsed? && (a.doc.item.Some? || b.doc.item.Some?) {
      assert key in o.files;
    }
  }

  /** Once a request has stored the day's record, the next request for the
      same day is answered with that record unchanged, asks no service and
      leaves the cache as it is, whatever the services would now answer. */
  lemma StoredRecordIsServedAgain(files: map<string, AstroInfo>, year: nat, month: nat, day: nat,
                                  a: Fetch, b: Fetch, a': Fetch, b': Fetch)
    ensures var first := Handle(files, year, month, day, a, b);
      var key := DayFormat(year, month, day);
      key in first.files ==>
        var second := Handle(first.files, year, month, day, a', b');
        && second.replies == [Record(first.files[key])]
        && second.queries == []
        && second.files == first.files
  {
  }

  /** A rise/set document without `response.body.items.item` is not an
      abort: the client is sent a 500, yet the lunar phase service is still
      asked and, if it answers, a record without any rise/set field is
      written and every later request for the day is served it. */
  lemma MissingItemStillWrites(files: map<string, AstroInfo>, year: nat, month: nat, day: nat, moonPhase: Item,
                               a': Fetch, b': Fetch)
    requires DayFormat(year, month, day) !in files
    ensures var key := DayFormat(year, month, day);
      var o := Handle(files, year, month, day, Parsed(Document(None)), Parsed(Document(Some(moonPhase))));
      && o.replies[0] == ServerError
      && |o.queries| == 2
      && key in o.files && o.files[key].Keys <= {LunAge}
      && Handle(o.files, year, month, day, a', b').replies == [Record(o.files[key])]
  {
    var key := DayFormat(year, month, day);
    var o := Handle(files, year, month, day, Parsed(Document(None)), Parsed(Document(Some(moonPhase))));
    assert o.files[key] == Merge(map[], moonPhase);
  }

  /** When neither document has its nested item, the second 500 throws
      before the write: both services were asked, nothing is stored, and the
      next request for the day asks them again. */
  lemma BothItemsMissingWritesNothing(files: map<string, AstroInfo>, year: nat, month: nat, day: nat,
                                      a': Fetch, b': Fetch)
    requires DayFormat(year, month, day) !in files
    ensures var o := Handle(files, year, month, day, Parsed(Document(None)), Parsed(Document(None)));
      && o.replies == [ServerError, ServerError]
      && |o.queries| == 2
      && o.files == files
      && Handle(o.files, year, month, day, a', b').queries != []
  {
  }

  /** A lunar phase document without the nested item still yields a record
      whose rise/set fields are filled from service A; only `lunAge` is
      absent. */
  lemma MissingLunAgeKeepsRiseSetFields(files: map<string, AstroInfo>, year: nat, month: nat, day: nat, riseSet: Item)
    requires DayFormat(year, month, day) !in files
    ensures var key := DayFormat(year, month, day);
      var o := Handle(files, year, month, day, Parsed(Document(Some(riseSet))), Parsed(Document(None)));
      && key in o.files
      && LunAge !in o.files[key]
      && (forall f :: f in RiseSetFields ==> (f in o.files[key] <==> f in riseSet))
      && o.replies == [ServerError, Record(o.files[key])]
  {
    var key := DayFormat(year, month, day);
    var o := Handle(files, year, month, day, Parsed(Document(Some(riseSet))), Parsed(Document(None)));
    assert o.files[key] == Merge(riseSet, map[]);
  }

  /** The lunar phase query is made only after the rise/set query, and its
      year, month and day, put together, spell the rise/set `locdate`. */
  lemma QueriesAgreeOnTheDay(files: map<string, AstroInfo>, year: nat, month: nat, day: nat, a: Fetch, b: Fetch)
    ensures var o := Handle(files, year, month, day, a, b);
      && |o.queries| <= 2
      && (|o.queries| >= 1 ==> o.queries[0] == RiseSetQuery(DayFormat(year, month, day), Location))
      && (|o.queries| == 2 ==>
            o.queries[1].LunPhaseQuery?
            && o.queries[1].solYear + o.queries[1].solMonth + o.queries[1].solDay == o.queries[0].locdate)
  {
  }

  /** The reply the client receives is the record exactly when the day was
      cached, or both services answered with their nested items. */
  lemma DeliveredReply(files: map<string, AstroInfo>, year: nat, month: nat, day: nat, a: Fetch, b: Fetch)
    ensures var o := Handle(files, year, month, day, a, b);
      |o.replies| >= 1 &&
      (o.replies[0].Record? <==>
         DayFormat(year, month, day) in files
         || (a.Parsed? && a.doc.item.Some? && b.Parsed? && b.doc.item.Some?))
  {
  }
}
