/** The `/photo` routes: viewing a photo behind its board's read level,
    with the album branch, and the tag update of a photo edit. */
module Photo {
  import opened Json

  /** What `retrievePhoto` gives: the board's read level and id, the
      `photo.album_id` value (`undefined` when there is no `photo`), and the
      rest of the record. */
  datatype PhotoInfo = PhotoInfo(lvRead: int, boardId: int, albumId: Value, details: Object)

  /** The data-layer calls that viewing a photo makes. */
  datatype Call =
    | CheckLike(photoId: string, userId: int)
    | TagsOnBoard(boardId: int)
    | PhotosInAlbum(albumId: Value)
    | IncreaseViewNum(photoId: string)

  datatype PhotoReply =
    | PhotoShown(photo: PhotoInfo, likeInfo: Value, boardTagInfo: Value, albumPhotosInfo: Value)
    | PhotoNext(err: HttpError)   // handed to `next`
    | PhotoServerError            // 500 { error: 'internal server error', code: 0 }

  /** The calls and the sends of one GET, in order; the client receives the
      first send. */
  datatype ViewOutcome = ViewOutcome(calls: seq<Call>, replies: seq<PhotoReply>)

  /** The `Promise.all` batch: the album's photos only when the photo has an album. */
  function BatchCalls(info: PhotoInfo, photoId: string, userId: int): seq<Call>
  {
    if Truthy(info.albumId) then
      [CheckLike(photoId, userId), TagsOnBoard(info.boardId), PhotosInAlbum(info.albumId), IncreaseViewNum(photoId)]
    else
      [CheckLike(photoId, userId), TagsOnBoard(info.boardId), IncreaseViewNum(photoId)]
  }

  predicate AllAnswered(calls: seq<Call>, answer: Call -> Option<Value>)
  {
    forall i :: 0 <= i < |calls| ==> answer(calls[i]).Some?
  }

  /** GET `/:photo_id`. `lookup` is the photo (`None` when the query fails),
      `answer` what each data-layer call resolves with (`None`: it rejects).
      After a denial the chain goes on with no results, reading `infos[0]`
      throws, and the `.catch` sends a 500 as well. */
  function ViewPhoto(lookup: Option<PhotoInfo>, photoId: string, userId: int, level: int,
                     answer: Call -> Option<Value>): (o: ViewOutcome)
    ensures 1 <= |o.replies| <= 2
    ensures o.calls != [] ==> o.calls[0] == CheckLike(photoId, userId) && o.calls[|o.calls| - 1] == IncreaseViewNum(photoId)
    ensures o.replies[0].PhotoShown? <==> o.calls != [] && AllAnswered(o.calls, answer)
    ensures o.replies[0].PhotoShown? ==> lookup.Some? && o.replies[0].photo == lookup.value
  {
    match lookup
    case None => ViewOutcome([], [PhotoServerError])
    case Some(info) =>
      if info.lvRead > level then ViewOutcome([], [PhotoNext(HttpError(403, 4001)), PhotoServerError])
      else
        var calls := BatchCalls(info, photoId, userId);
        if AllAnswered(calls, answer) then
          ViewOutcome(calls, [PhotoShown(info, answer(calls[0]).value, answer(calls[1]).value, answer(calls[2]).value)])
        else
          ViewOutcome(calls, [PhotoServerError])
  }

  /** A photo is refused with 403, code 4001 exactly when its board's read
      level is above the reader's, and then nothing is fetched and the view
      is not counted. */
  lemma PhotoReadDeniedExactly(lookup: Option<PhotoInfo>, photoId: string, userId: int, level: int,
                               answer: Call -> Option<Value>)
    ensures var o := ViewPhoto(lookup, photoId, userId, level, answer);
      && |o.replies| >= 1
      && (o.replies[0] == PhotoNext(Forbidden) <==> lookup.Some? && ReadDenied(lookup.value.lvRead, level))
      && (o.replies[0] == PhotoNext(Forbidden) ==> o.calls == [])
  {
  }

  /** The album's photos are fetched exactly when the reader may see the
      photo and it has an album; the view count goes up exactly when the
      reader may see it. */
  lemma AlbumFetchedOnlyWithAlbum(lookup: Option<PhotoInfo>, photoId: string, userId: int, level: int,
                                  answer: Call -> Option<Value>)
    ensures var o := ViewPhoto(lookup, photoId, userId, level, answer);
      var allowed := lookup.Some? && !ReadDenied(lookup.value.lvRead, level);
      && ((exists i :: 0 <= i < |o.calls| && o.calls[i].PhotosInAlbum?) <==> allowed && Truthy(lookup.value.albumId))
      && (IncreaseViewNum(photoId) in o.calls <==> allowed)
  {
    var o := ViewPhoto(lookup, photoId, userId, level, answer);
    if lookup.Some? && !ReadDenied(lookup.value.lvRead, level) && Truthy(lookup.value.albumId) {
      assert o.calls[2].PhotosInAlbum?;
    }
  }

  /** The third result shown as `albumPhotosInfo` is the album's photos
      when there is an album, and otherwise what `increaseViewNum` resolved
      with. */
  lemma ThirdSlotOfTheBatch(lookup: Option<PhotoInfo>, photoId: string, userId: int, level: int,
                            answer: Call -> Option<Value>)
    ensures var o := ViewPhoto(lookup, photoId, userId, level, answer);
      o.replies[0].PhotoShown? ==>
        && lookup.Some? && o.replies[0].photo == lookup.value
        && o.replies[0].likeInfo == answer(CheckLike(photoId, userId)).value
        && o.replies[0].boardTagInfo == answer(TagsOnBoard(lookup.value.boardId)).value
        && o.replies[0].albumPhotosInfo ==
             if Truthy(lookup.value.albumId) then answer(PhotosInAlbum(lookup.value.albumId)).value
             else answer(IncreaseViewNum(photoId)).value
  {
  }

  /** The tag calls that editing a photo issues. */
  datatype TagCall = DeleteContentTag(photoId: string, tagId: int) | CreateContentTag(photoId: string, tagId: int)

  /** One delete per previous tag that the new list lacks, in order. */
  function DeleteCalls(photoId: string, prevTags: seq<int>, newTags: seq<int>): seq<TagCall>
  {
    if prevTags == [] then []
    else
      var tag := prevTags[|prevTags| - 1];
      DeleteCalls(photoId, prevTags[..|prevTags| - 1], newTags)
        + (if tag !in newTags then [DeleteContentTag(photoId, tag)] else [])
  }

  /** One create per new tag that the previous list lacks, in order. */
  function CreateCalls(photoId: string, prevTags: seq<int>, newTags: seq<int>): seq<TagCall>
  {
    if newTags == [] then []
    else
      var tag := newTags[|newTags| - 1];
      CreateCalls(photoId, prevTags, newTags[..|newTags| - 1])
        + (if tag !in prevTags then [CreateContentTag(photoId, tag)] else [])
  }

  /** The tag update of PATCH `/:photo_id`: the two `forEach` loops issue
      the calls, while `updateTag.concat(...)` returns a new array that is
      dropped, so `updateTag`, the list `Promise.all` waits for, stays empty. */
  method UpdateTags(photoId: string, prevTags: seq<int>, newTags: seq<int>)
    returns (issued: seq<TagCall>, awaited: seq<TagCall>)
    ensures issued == DeleteCalls(photoId, prevTags, newTags) + CreateCalls(photoId, prevTags, newTags)
    ensures awaited == []
  {
    issued := [];
    var updateTag: seq<TagCall> := [];
    if |prevTags| > 0 {
      var i := 0;
      while i < |prevTags|
        invariant 0 <= i <= |prevTags|
        invariant issued == DeleteCalls(photoId, prevTags[..i], newTags)
      {
        assert prevTags[..i + 1][..i] == prevTags[..i];
        if prevTags[i] !in newTags {
          var call := DeleteContentTag(photoId, prevTags[i]);
          issued := issued + [call];
          var concatenated := updateTag + [call];
        }
        i := i + 1;
      }
      assert prevTags[..|prevTags|] == prevTags;
    }
    var deletes := issued;
    if |newTags| > 0 {
      var j := 0;
      while j < |newTags|
        invariant 0 <= j <= |newTags|
        invariant issued == deletes + CreateCalls(photoId, prevTags, newTags[..j])
      {
        assert newTags[..j + 1][..j] == newTags[..j];
        if newTags[j] !in prevTags {
          var call := CreateContentTag(photoId, newTags[j]);
          issued := issued + [call];
          var concatenated := updateTag + [call];
        }
        j := j + 1;
      }
      assert newTags[..|newTags|] == newTags;
    }
    awaited := updateTag;
  }

  datatype PatchReply =
    | PatchSucceeded     // 200 { success: true }
    | PatchServerError   // 500 { error: 'internal server error', code: 0 }

  /** The first batch of an edit: the photo's current tags, and the updates
      of the content's title and text and of the photo record. */
  datatype EditCall =
    | RetrieveTagsByContent(photoId: string)
    | UpdateContent(photoId: string, title: Value, text: Value)
    | UpdatePhoto(photoId: string, photo: Value)

  /** PATCH `/:photo_id`. `body` is the request body; `prevTags` holds the
      tag ids on the photo (`None` when the first batch rejects) and `tags`
      the ids in the body's `tags` (`None` when the body has none, so that
      mapping over it throws). The first batch is issued whatever follows,
      and the reply does not wait for the tag calls. */
  method PatchPhoto(photoId: string, body: Object, prevTags: Option<seq<int>>, tags: Option<seq<int>>)
    returns (edits: seq<EditCall>, issued: seq<TagCall>, reply: PatchReply)
    ensures edits == [RetrieveTagsByContent(photoId),
                      UpdateContent(photoId, Get(body, "title"), Get(body, "text")),
                      UpdatePhoto(photoId, Get(body, "photo"))]
    ensures prevTags.None? || tags.None? ==> issued == [] && reply == PatchServerError
    ensures prevTags.Some? && tags.Some? ==>
      && issued == DeleteCalls(photoId, prevTags.value, tags.value) + CreateCalls(photoId, prevTags.value, tags.value)
      && reply == PatchSucceeded
  {
    edits := [RetrieveTagsByContent(photoId),
              UpdateContent(photoId, Get(body, "title"), Get(body, "text")),
              UpdatePhoto(photoId, Get(body, "photo"))];
    if prevTags.None? || tags.None? {
      issued, reply := [], PatchServerError;
      return;
    }
    var awaited;
    issued, awaited := UpdateTags(photoId, prevTags.value, tags.value);
    reply := PatchSucceeded;
  }

  /** The set of tags a list holds. */
  function Elems(tags: seq<int>): set<int>
  {
    set t | t in tags
  }

  /** A content's tags after the calls, applied in order. */
  function ApplyTagCalls(tags: set<int>, calls: seq<TagCall>): set<int>
  {
    if calls == [] then tags
    else
      var before := ApplyTagCalls(tags, calls[..|calls| - 1]);
      match calls[|calls| - 1]
      case DeleteContentTag(_, t) => before - {t}
      case CreateContentTag(_, t) => before + {t}
  }

  lemma {:induction false} ApplyTagCallsAppend(tags: set<int>, first: seq<TagCall>, second: seq<TagCall>)
    ensures ApplyTagCalls(tags, first + second) == ApplyTagCalls(ApplyTagCalls(tags, first), second)
  {
    if second != [] {
      var all := first + second;
      assert all[..|all| - 1] == first + second[..|second| - 1];
      ApplyTagCallsAppend(tags, first, second[..|second| - 1]);
    } else {
      assert first + second == first;
    }
  }

  lemma {:induction false} ApplyDeleteCalls(tags: set<int>, photoId: string, prevTags: seq<int>, newTags: seq<int>)
    ensures ApplyTagCalls(tags, DeleteCalls(photoId, prevTags, newTags)) == tags - (Elems(prevTags) - Elems(newTags))
  {
    if prevTags != [] {
      var init := prevTags[..|prevTags| - 1];
      var tag := prevTags[|prevTags| - 1];
      var rest := DeleteCalls(photoId, init, newTags);
      ApplyDeleteCalls(tags, photoId, init, newTags);
      ElemsSnoc(init, tag);
      assert prevTags == init + [tag];
      if tag !in newTags {
        var call := DeleteContentTag(photoId, tag);
        assert DeleteCalls(photoId, prevTags, newTags) == rest + [call];
        ApplyTagCallsAppend(tags, rest, [call]);
        ApplyOne(ApplyTagCalls(tags, rest), call);
        RemoveOneMore(tags, Elems(init), Elems(newTags), tag);
      } else {
        assert DeleteCalls(photoId, prevTags, newTags) == rest;
        assert Elems(prevTags) - Elems(newTags) == Elems(init) - Elems(newTags);
      }
    }
  }

  lemma {:induction false} ApplyCreateCalls(tags: set<int>, photoId: string, prevTags: seq<int>, newTags: seq<int>)
    ensures ApplyTagCalls(tags, CreateCalls(photoId, prevTags, newTags)) == tags + (Elems(newTags) - Elems(prevTags))
  {
    if newTags != [] {
      var init := newTags[..|newTags| - 1];
      var tag := newTags[|newTags| - 1];
      var rest := CreateCalls(photoId, prevTags, init);
      ApplyCreateCalls(tags, photoId, prevTags, init);
      ElemsSnoc(init, tag);
      assert newTags == init + [tag];
      if tag !in prevTags {
        var call := CreateContentTag(photoId, tag);
        assert CreateCalls(photoId, prevTags, newTags) == rest + [call];
        ApplyTagCallsAppend(tags, rest, [call]);
        ApplyOne(ApplyTagCalls(tags, rest), call);
        AddOneMore(tags, Elems(init), Elems(prevTags), tag);
      } else {
        assert CreateCalls(photoId, prevTags, newTags) == rest;
        assert Elems(newTags) - Elems(prevTags) == Elems(init) - Elems(prevTags);
      }
    }
  }

  lemma ElemsSnoc(tags: seq<int>, tag: int)
    ensures Elems(tags + [tag]) == Elems(tags) + {tag}
  {
  }

  lemma ApplyOne(tags: set<int>, call: TagCall)
    ensures ApplyTagCalls(tags, [call]) ==
      if call.DeleteContentTag? then tags - {call.tagId} else tags + {call.tagId}
  {
    assert [call][..0] == [];
  }

  lemma RemoveOneMore(tags: set<int>, removed: set<int>, kept: set<int>, tag: int)
    requires tag !in kept
    ensures tags - (removed - kept) - {tag} == tags - (removed + {tag} - kept)
  {
  }

  lemma AddOneMore(tags: set<int>, added: set<int>, present: set<int>, tag: int)
    requires tag !in present
    ensures tags + (added - present) + {tag} == tags + (added + {tag} - present)
  {
  }

  /** Applying the issued deletes and creates to the previous tags gives
      exactly the new tags. */
  lemma TagUpdateReachesNewTags(photoId: string, prevTags: seq<int>, newTags: seq<int>)
    ensures ApplyTagCalls(Elems(prevTags),
      DeleteCalls(photoId, prevTags, newTags) + CreateCalls(photoId, prevTags, newTags)) == Elems(newTags)
  {
    var deletes := DeleteCalls(photoId, prevTags, newTags);
    var creates := CreateCalls(photoId, prevTags, newTags);
    ApplyTagCallsAppend(Elems(prevTags), deletes, creates);
    ApplyDeleteCalls(Elems(prevTags), photoId, prevTags, newTags);
    ApplyCreateCalls(ApplyTagCalls(Elems(prevTags), deletes), photoId, prevTags, newTags);
  }

  /** How often a delete for `tag` is issued: once per occurrence in the
      previous list, unless the new list keeps the tag. */
  lemma {:induction false} DeleteCallCount(photoId: string, prevTags: seq<int>, newTags: seq<int>, tag: int)
    ensures multiset(DeleteCalls(photoId, prevTags, newTags))[DeleteContentTag(photoId, tag)]
      == if tag in newTags then 0 else multiset(prevTags)[tag]
  {
    if prevTags != [] {
      var init := prevTags[..|prevTags| - 1];
      var last := prevTags[|prevTags| - 1];
      DeleteCallCount(photoId, init, newTags, tag);
      var calls := DeleteCalls(photoId, init, newTags);
      var step := if last !in newTags then [DeleteContentTag(photoId, last)] else [];
      assert multiset(DeleteCalls(photoId, prevTags, newTags))[DeleteContentTag(photoId, tag)]
          == if tag in newTags then 0 else multiset(prevTags)[tag] by {
        assert DeleteCalls(photoId, prevTags, newTags) == calls + step;
        CountAppend(calls, step, DeleteContentTag(photoId, tag));
        CountSnoc(prevTags, tag);
      }
    }
  }

  /** At most one delete per previous tag, each for this photo and for a
      previous tag that the new list lacks. */
  lemma {:induction false} DeletesOnlyDroppedTags(photoId: string, prevTags: seq<int>, newTags: seq<int>)
    ensures |DeleteCalls(photoId, prevTags, newTags)| <= |prevTags|
    ensures forall call :: call in DeleteCalls(photoId, prevTags, newTags) ==>
      call.DeleteContentTag? && call.photoId == photoId && call.tagId in prevTags && call.tagId !in newTags
  {
    if prevTags != [] {
      var init := prevTags[..|prevTags| - 1];
      DeletesOnlyDroppedTags(photoId, init, newTags);
      assert forall t :: t in init ==> t in prevTags;
    }
  }

  /** At most one create per new tag, each for this photo and for a new
      tag that the previous list lacks. */
  lemma {:induction false} CreatesOnlyAddedTags(photoId: string, prevTags: seq<int>, newTags: seq<int>)
    ensures |CreateCalls(photoId, prevTags, newTags)| <= |newTags|
    ensures forall call :: call in CreateCalls(photoId, prevTags, newTags) ==>
      call.CreateContentTag? && call.photoId == photoId && call.tagId in newTags && call.tagId !in prevTags
  {
    if newTags != [] {
      var init := newTags[..|newTags| - 1];
      CreatesOnlyAddedTags(photoId, prevTags, init);
      assert forall t :: t in init ==> t in newTags;
    }
  }

  /** How often a create for `tag` is issued: once per occurrence in the
      new list, unless the previous list has the tag. */
  lemma {:induction false} CreateCallCount(photoId: string, prevTags: seq<int>, newTags: seq<int>, tag: int)
    ensures multiset(CreateCalls(photoId, prevTags, newTags))[CreateContentTag(photoId, tag)]
      == if tag in prevTags then 0 else multiset(newTags)[tag]
  {
    if newTags != [] {
      var init := newTags[..|newTags| - 1];
      var last := newTags[|newTags| - 1];
      CreateCallCount(photoId, prevTags, init, tag);
      var calls := CreateCalls(photoId, prevTags, init);
      var step := if last !in prevTags then [CreateContentTag(photoId, last)] else [];
      assert multiset(CreateCalls(photoId, prevTags, newTags))[CreateContentTag(photoId, tag)]
          == if tag in prevTags then 0 else multiset(newTags)[tag] by {
        assert CreateCalls(photoId, prevTags, newTags) == calls + step;
        CountAppend(calls, step, CreateContentTag(photoId, tag));
        CountSnoc(newTags, tag);
      }
    }
  }

  lemma CountAppend<T>(xs: seq<T>, ys: seq<T>, x: T)
    ensures multiset(xs + ys)[x] == multiset(xs)[x] + multiset(ys)[x]
  {
  }

  lemma CountSnoc(xs: seq<int>, x: int)
    requires xs != []
    ensures multiset(xs)[x] == multiset(xs[..|xs| - 1])[x] + (if xs[|xs| - 1] == x then 1 else 0)
  {
    assert xs == xs[..|xs| - 1] + [xs[|xs| - 1]];
  }

  predicate Distinct(tags: seq<int>)
  {
    forall i, j :: 0 <= i < j < |tags| ==> tags[i] != tags[j]
  }

  lemma {:induction false} DistinctCountAtMostOne(tags: seq<int>, tag: int)
    requires Distinct(tags)
    ensures multiset(tags)[tag] == if tag in tags then 1 else 0
  {
    if tags != [] {
      var init := tags[..|tags| - 1];
      DistinctCountAtMostOne(init, tag);
      assert tags == init + [tags[|tags| - 1]];
    }
  }

  /** With tag lists free of repeats: a tag only in the previous list is
      deleted exactly once, a tag only in the new list is created exactly
      once, and a tag in both or neither sees no call. */
  lemma TagCallsExactlyOnce(photoId: string, prevTags: seq<int>, newTags: seq<int>, tag: int)
    requires Distinct(prevTags) && Distinct(newTags)
    ensures var issued := DeleteCalls(photoId, prevTags, newTags) + CreateCalls(photoId, prevTags, newTags);
      && multiset(issued)[DeleteContentTag(photoId, tag)] == (if tag in prevTags && tag !in newTags then 1 else 0)
      && multiset(issued)[CreateContentTag(photoId, tag)] == (if tag in newTags && tag !in prevTags then 1 else 0)
  {
    var deletes := DeleteCalls(photoId, prevTags, newTags);
    var creates := CreateCalls(photoId, prevTags, newTags);
    DeleteCallCount(photoId, prevTags, newTags, tag);
    CreateCallCount(photoId, prevTags, newTags, tag);
    DeletesOnlyDroppedTags(photoId, prevTags, newTags);
    CreatesOnlyAddedTags(photoId, prevTags, newTags);
    DistinctCountAtMostOne(prevTags, tag);
    DistinctCountAtMostOne(newTags, tag);
    assert CreateContentTag(photoId, tag) !in deletes;
    assert DeleteContentTag(photoId, tag) !in creates;
    assert multiset(deletes + creates) == multiset(deletes) + multiset(creates);
  }
}
