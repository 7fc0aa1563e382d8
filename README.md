# snuaaa-express route core, modelled in Dafny

This project models the decision logic of five Express route files of the
SNUAAA club server and proves properties about it:

- **`/riseset`** (`home.dfy`, module `RiseSet`). The handler builds the
  `YYYYMMDD` day key and looks the day up in the per-day cache. On a miss it
  asks the rise/set service and then the lunar phase service, merges the two
  items into one record, writes the record and sends it. The cache is a class
  holding a map from day key to record. The handler is a method, proved equal
  to the specification function `Handle`.
- **`/userinfo`** (`userinfo.dfy`, module `UserInfo`):
  - the profile update, which derives a nickname and a level from the AAA
    membership number and changes the request body in place;
  - the ordered checks of a password change, and how its errors are forwarded;
  - the text of the "find my id" mail, built in a loop;
  - the identity match of the password reset.
- **`/board`** (`board.dfy`, module `Board`):
  - the page offset of post listings;
  - the read-level check;
  - the objects handed to the data layer for posts and documents;
  - the poster and thumbnail paths of a new exhibition, written into the
    request body.
- **`/photo`** (`photo.dfy`, module `Photo`):
  - the read-level check and the album branch of viewing a photo;
  - the tag update of a photo edit, whose two loops issue delete and create
    calls.
- **`/image`** (`image.dfy`, module `Image`):
  - the day folder an attached image is stored in;
  - the URL path rebuilt from the stored path by a loop.

`common.dfy` holds what the routes share:

- `Json`: JSON values, JavaScript truthiness, template-string interpolation and
  the `{ status, code }` error.
- `Decimal`: decimal text of numbers.
- `DayKey`: the day key, used by both the cache and the image folders.
- `Upload`: the `timestamp_originalname` naming of stored uploads.

## Modelling conventions

Data-layer results are parameters of the handlers. So are upstream HTTP
answers, bcrypt's verdicts, random passwords, the clock, and whether a resize
succeeds.

A handler that can send more than once is modelled with the sequence of sends
it attempts; the client receives the first. In the source a missing `return`
or a chain that continues after `next(err)` makes this happen. A second send
on the same response throws, so a handler's sends end with the one that
throws: nothing after it in the same callback runs.

The upstream XML answers are abstracted as a transport error, a body for which
`xmlParser.validate` answers a falsy value, or a parsed document that may or
may not have `response.body.items.item`.

`req.query.page` is compared and subtracted as a JavaScript number, so the page
is an optional real. `None` stands for an absent or non-numeric page (NaN).

The model follows the code where it departs from what the routes are meant
to do:

- A rise/set or lunar phase document without its nested item does not abort
  the request. A 500 is sent, yet when the other document has its item the
  record (without the missing fields) is still written; the send of the
  record after it throws. `MissingItemStillWrites` states this. When both
  items are missing, the second 500 throws before the write and nothing is
  stored (`BothItemsMissingWritesNothing`).
- A fractional page between 0 and 1 gives a negative offset, and other
  fractional pages give offsets that are not multiples of 10. The intended
  non-negative multiple of 10 is proved, by `OffsetOfWholePages`, for whole
  page numbers only.
- A cache read or write that fails is not reported as a storage failure. A failed read is swallowed by the handler's outer `catch`, which
  sends nothing. A failed write happens inside a callback, outside that
  `try`. Neither is modelled; see below.

## Model

| member | source | states |
|---|---|---|
| Decimal.Show | server/routes/home.js:89 | the year text is all digits, reads back as the year, and has no leading zero |
| DayKey.Pad2 | server/routes/home.js:92-93 | a month or day below 100 becomes two digits that read back as the value, with a leading '0' exactly when it is below 10 |
| DayKey.DayFormat | server/routes/home.js:88-95 | the day key is all digits, at least five of them, and four more than the year's digits when month and day are below 100 |
| DayKey.DayFormatLayout | server/routes/home.js:88-95 | the key is the year text followed by two month and two day digits, '0'-padded exactly below 10, eight characters for a four-digit year |
| DayKey.DayFormatRoundTrip | server/routes/home.js:95 | reading the key back (year, then two digits, then two digits) gives the day it was built from |
| DayKey.DayFormatInjective | server/routes/home.js:106 | two different calendar days never share a cache file name |
| Upload.StoredFileName | server/routes/board.js:27-30 | the stored name is the timestamp's digits (which read back as the timestamp), then '_', then the original name unchanged |
| Upload.StoredFileNameRoundTrip | server/routes/board.js:27-30 | a stored name splits at its first '_' into the timestamp and the original name, whatever the original name contains |
| RiseSet.Merge | server/routes/home.js:190-198 | the record has the six rise/set fields of service A's item and `lunAge` of service B's, each present exactly when its source has it, and no other field |
| RiseSet.Cache.Lookup | server/routes/home.js:108-109 | a file exists exactly when the day key is cached, and reading it gives the stored record |
| RiseSet.Cache.Write | server/routes/home.js:199 | writing a day's file replaces that key's record and leaves every other file as it was |
| RiseSet.Handle | server/routes/home.js:85-213 | every request attempts one or two sends and at most the two upstream queries, never drops a cached day, and adds at most the day's key |
| RiseSet.ServeRiseSet | server/routes/home.js:85-213 | the imperative handler performs exactly the sends, upstream queries and cache update of the specification `Handle` |
| RiseSet.CacheHitServesStored | server/routes/home.js:106-110 | a cached day is answered with its stored record, with no upstream query and no write |
| RiseSet.RiseSetFailureWritesNothing | server/routes/home.js:118-132 | a transport error or a falsy `validate` answer from the rise/set service sends a 500; only that service was asked and the cache is unchanged |
| RiseSet.LunPhaseFailureWritesNothing | server/routes/home.js:157-171 | a transport error or a falsy `validate` answer from the lunar phase service ends with a 500, sends no record and leaves the cache unchanged |
| RiseSet.WriteOnlyAfterBothParsed | server/routes/home.js:134-200 | the cache changes exactly on a miss where both services gave documents and at least one has its item, only at the day's key, to the merged record that is also the last send; other keys keep their records |
| RiseSet.StoredRecordIsServedAgain | server/routes/home.js:106-200 | after a request stored the day's record, the next request for that day gets that record unchanged, whatever the services would answer |
| RiseSet.MissingItemStillWrites | server/routes/home.js:135-149 | a rise/set document without its item sends a 500 first, yet the lunar phase service is asked and a record without rise/set fields is written and served from then on |
| RiseSet.BothItemsMissingWritesNothing | server/routes/home.js:143-188 | when neither document has its item, two 500s are attempted and the second throws before the write: both services were asked, nothing is stored, and the next request for the day asks again |
| RiseSet.MissingLunAgeKeepsRiseSetFields | server/routes/home.js:174-188 | a lunar phase document without its item still writes the rise/set fields; only `lunAge` is absent, and the sends are a 500 then the record |
| RiseSet.QueriesAgreeOnTheDay | server/routes/home.js:113-155 | the rise/set query comes first, for the day key and Seoul; the lunar phase query's year, month and day, joined, equal its `locdate` |
| RiseSet.DeliveredReply | server/routes/home.js:108-200 | the client receives the record exactly when the day was cached or both services returned documents with their items |
| UserInfo.Normalize | server/routes/userinfo.js:82-101 | the AAA number is kept exactly when it is non-empty and matches one of the two patterns (`GenerationFirst`: two digits, three `A`/`a`, a hyphen and one to three digits; `GenerationAfterLetters`: three `A`/`a`, two digits, a hyphen and one to three digits), and then the nickname is two digits followed by the user name; otherwise the nickname is the user name and the number is cleared |
| UserInfo.PatternsExclusive | server/routes/userinfo.js:85-89 | no AAA number matches both patterns |
| UserInfo.NicknameFromGenerationFirst | server/routes/userinfo.js:85-87 | for `00AAA-000` numbers the nickname is the first two characters followed by the user name |
| UserInfo.NicknameFromGenerationAfterLetters | server/routes/userinfo.js:89-91 | for `AAA00-000` numbers the nickname is the fourth and fifth characters followed by the user name |
| UserInfo.NormalizeIdempotent | server/routes/userinfo.js:84-101 | normalising the stored number again changes neither nickname nor number |
| UserInfo.Level | server/routes/userinfo.js:103-113 | the level is at least 1 and never lowered; a level above 1 is kept; otherwise it is 2 exactly when a recognised AAA number remains |
| UserInfo.LevelIsMaxOfEarned | server/routes/userinfo.js:103-113 | the level is the larger of the current level and the one the AAA number earns |
| UserInfo.RecognisedNumberGrantsLevelTwo | server/routes/userinfo.js:84-113 | a member at level 1 or below with a recognised AAA number ends at level 2 |
| UserInfo.PatchProfile | server/routes/userinfo.js:66-127 | the body's profile path becomes the uploaded image's or the stored one; its AAA number becomes the normalised one; the written row carries the derived nickname and level and the body's other fields |
| UserInfo.PasswordChangeError | server/routes/userinfo.js:150-177 | every failed check is a 403 with a code from 1011 to 1014, and a current password that does not match is 1011 whatever else the form holds |
| UserInfo.PasswordChecksRunInOrder | server/routes/userinfo.js:150-177 | the password error is the first failing check of the list (current password 1011, new password given 1012, confirmation 1013, length 8..20 1014), with status 403 |
| UserInfo.PasswordAcceptedExactly | server/routes/userinfo.js:150-181 | no check fails exactly when the current password matches and the new one is given, equals its confirmation and is 8 to 20 characters long |
| UserInfo.ForwardError | server/routes/userinfo.js:190-201 | an error with a non-zero status reaches `next` unchanged; any other becomes status 500, code 1010 |
| UserInfo.ChangePassword | server/routes/userinfo.js:142-203 | only the given new password is ever hashed, and only after the current one matched; every error reaches `next` with status 403 or 500 |
| UserInfo.PasswordUpdatedOnlyWhenValid | server/routes/userinfo.js:142-201 | the password is replaced exactly when the comparison answers and every check passes, and then by the new password; failed checks reach `next` with their own 403 code, a non-matching password with 1011; a throw in the lookup or in `compareSync`, or a failed update, with 500/1010 |
| UserInfo.JoinIdsLength | server/routes/userinfo.js:425-432 | the joined ids hold every id's characters plus two per separator |
| UserInfo.FoundIdTextLayout | server/routes/userinfo.js:424-433 | the mail text starts with the greeting and the first id, and its length is the greeting, every id, two characters per separator and the closing |
| UserInfo.FoundIdText | server/routes/userinfo.js:424-433 | the mail text is the fixed prefix, the ids in order separated by ", ", and the fixed suffix |
| UserInfo.FindId | server/routes/userinfo.js:413-462 | a failed query answers 500 and an empty result 400, both without mail; otherwise success and one mail to the given address with all found ids |
| UserInfo.FindPassword | server/routes/userinfo.js:466-525 | a mail goes out exactly when success is answered, to the account's address, carrying the password that was set |
| UserInfo.UpdateIssuedOnlyForMatchingUser | server/routes/userinfo.js:466-523 | the password update is issued exactly for an existing user whose email and name both match, and then with the temporary password; every other case answers 400 without mail; a failed update sends nothing |
| Board.Offset | server/routes/board.js:88-93 | the offset is 0 exactly for a missing, non-numeric, non-positive or first page, and negative exactly for a page strictly between 0 and 1 |
| Board.PostsOffset | server/routes/board.js:88-93 | the offset is 10 times (page - 1) for a positive page and 0 otherwise |
| Board.OffsetOfWholePages | server/routes/board.js:88-93 | for a whole page k >= 1 the offset is the non-negative multiple 10(k - 1), and the next page starts 10 later |
| Board.OffsetOfOtherPages | server/routes/board.js:88-93 | a missing, non-numeric, zero or negative page reads from 0; a page strictly between 0 and 1 gives a negative offset |
| Board.ReadBoard | server/routes/board.js:55-66 | the board is refused with 403/4001 exactly when its read level exceeds the reader's, shown unchanged exactly otherwise, and a failed lookup answers 500 |
| Board.ReadBoardMonotone | server/routes/board.js:55 | a board a reader may open stays open, with the same reply, to every reader of a higher level |
| Board.PostPayload | server/routes/board.js:161-165 | the payload has the body's fields plus `author_id` and `board_id`, which come from the token and the path whatever the body says; the other fields pass unchanged |
| Board.DocumentPayload | server/routes/board.js:191-200 | the type is always 'DO', author and board come from the token and the path, and `generation` is null exactly when the body's is falsy |
| Board.ExtName | server/routes/board.js:259 | the extension is empty or a '.' followed by no other '.', is a proper suffix of the name, and ends it; it is non-empty exactly when a '.' occurs after the first character and the name is not `..` |
| Board.Stem | server/routes/board.js:259 | the name without its extension, followed by the extension, is the name |
| Board.PosterAndThumbnailShareFolder | server/routes/board.js:262-263 | poster and thumbnail (`PosterPath`, `ThumbnailPath`) sit in `/exhibition/{no}/`; the thumbnail's name is the poster's with its extension replaced by `_thumb.jpeg` |
| Board.CreateExhibition | server/routes/board.js:252-276 | without a poster the reply is 409 and the body is unchanged; a failed resize answers 500 with the body unchanged; otherwise the body gains the two paths and the reply depends on storing |
| Photo.ViewPhoto | server/routes/photo.js:13-62 | one or two sends; the batch (`BatchCalls`: like check, board tags, the album's photos only with an album, view count), when issued, starts with the like check and ends with the view count; the photo is shown exactly when a batch was issued and every call in it answered, and then with the looked-up record |
| Photo.PhotoReadDeniedExactly | server/routes/photo.js:22-28 | the photo is refused with 403/4001 exactly when the board's read level exceeds the reader's, and then nothing is fetched and the view is not counted |
| Photo.AlbumFetchedOnlyWithAlbum | server/routes/photo.js:30-44 | the album's photos are fetched exactly when the reader may see the photo and it has an album; the view count goes up exactly when the reader may see it |
| Photo.ThirdSlotOfTheBatch | server/routes/photo.js:47-53 | a shown photo carries the looked-up record, the like result and the board tags; its `albumPhotosInfo` is the album's photos with an album and the view-count result without one |
| Photo.DeletesOnlyDroppedTags | server/routes/photo.js:85-91 | the first loop issues at most one call per previous tag, each a delete for this photo of a previous tag the new list lacks |
| Photo.CreatesOnlyAddedTags | server/routes/photo.js:92-98 | the second loop issues at most one call per new tag, each a create for this photo of a new tag the previous list lacks |
| Photo.UpdateTags | server/routes/photo.js:83-99 | the loops issue one delete per previous tag missing from the new list, then one create per new tag missing from the previous list; the awaited list stays empty |
| Photo.PatchPhoto | server/routes/photo.js:64-122 | the first batch is always issued; a failed batch or a body without tags answers 500 with no tag call; otherwise the tag calls are issued and the reply is success |
| Photo.ApplyDeleteCalls | server/routes/photo.js:85-91 | applying the deletes removes exactly the previous tags that the new list lacks |
| Photo.ApplyCreateCalls | server/routes/photo.js:92-98 | applying the creates adds exactly the new tags that the previous list lacks |
| Photo.TagUpdateReachesNewTags | server/routes/photo.js:81-98 | applying the issued deletes and creates to the previous tags gives exactly the new tags |
| Photo.DeleteCallCount | server/routes/photo.js:85-91 | a tag is deleted once per occurrence in the previous list unless the new list keeps it |
| Photo.CreateCallCount | server/routes/photo.js:92-98 | a tag is created once per occurrence in the new list unless the previous list has it |
| Photo.TagCallsExactlyOnce | server/routes/photo.js:85-98 | with repeat-free lists, a removed tag is deleted exactly once, an added tag created exactly once, and a kept tag sees no call |
| Image.DestinationNamesTheDay | server/routes/image.js:15-23 | the folder (`Destination`) is `upload/attachedImage/` followed by the day key of the rise/set cache, which reads back as the upload's day |
| Image.Split | server/routes/image.js:58-59 | the pieces hold no '/', and there is one more piece than there are slashes |
| Image.Rooted | server/routes/image.js:57-62 | the URL path has at least one character per component and starts with '/' when there is a component |
| Image.ImgPath | server/routes/image.js:57-62 | the loop builds '/' followed by each component, in order |
| Image.RootedSplit | server/routes/image.js:57-62 | splitting a relative path at '/' and rebuilding it gives the path with one '/' in front |
| Image.RootedSlashes | server/routes/image.js:57-62 | the URL path starts with '/' and, for components without '/', has exactly one '/' per component |
| Image.UploadedImagePath | server/routes/image.js:23-62 | a stored image's components are `attachedImage`, the day key and the stored name, and its URL path is those three, each after a '/' |
| Image.UploadImage | server/routes/image.js:46-77 | without a file the reply is 409 and nothing is resized; a failed resize answers 500; otherwise the URL path is the stored path relative to `upload/` (`RelativeToUpload`), rooted |

## Left out

- The filesystem around the cache: creating `./riseset` and `./upload/attachedImage`, and the swallowed `catch` around creating them. A cache read that throws leaves the request without a response; a cache write that throws escapes the handler. Neither is modelled.
- The clock (`new Date()`), the service key from the environment and the URL encoding of the queries. The day, the timestamp and the query fields are parameters.
- The XML parser's coercion of numeric text and any item that arrives as an array. Items are maps from field name to text.
- bcrypt hashing and comparison, the mailer, the random temporary password, multer's internals and the image resizers. Their answers are parameters.
- Concurrency. Two requests for the same uncached day can both ask the services and both write; each request is modelled on its own.
- What follows a refused second send (`ERR_HTTP_HEADERS_SENT`): the throw ends the callback, which the model follows, but its effect on the process (an uncaught exception in a request callback, an unhandled rejection in a promise chain) is not modelled.
- JavaScript number details: Infinity pages (an `Infinity` page gives an infinite offset), and UTF-16 `.length` of passwords. Lengths are counted in characters.
- RiseSet.Handle: a `lunAge` or rise/set value is kept as text, not as the number the XML parser may produce.
- RiseSet.Handle: `Malformed` stands for a falsy answer of `xmlParser.validate`. A parser whose `validate` answers invalid XML with a truthy error object (as fast-xml-parser 3.x does) lets that body through to `parse`; the model then sees a `Parsed` document, normally without its item, a case it covers.
- UserInfo.ChangePassword: a new password that is truthy but not a string passes the length check and makes `hashSync` throw (500, code 1010); the model's passwords are strings. A data-layer error that carries a `status` of its own would be forwarded as is; data-layer errors are modelled as `Thrown`.
- UserInfo.PatchProfile: the resize of an uploaded profile image and the reply after `updateUser` are not modelled. A missing `username` (interpolated as "undefined") is not modelled; the user name is text.
- UserInfo.FindId: the mail's sender address and the delivery outcome are not modelled.
- UserInfo.UpdateIssuedOnlyForMatchingUser: the temporary password mail's text is not modelled, only its recipient and password.
- Board.ExtName: only file names without '/' are covered, which multer's stored names are.
- Board.CreateExhibition: without a poster the handler sends 409 and then throws on `req.file.filename`; the model stops after the 409. The content and exhibition rows are one success flag.
- The replies of post and document creation (the new content id, or 403 with code 1) are not modelled; only the payloads are.
- Photo.PatchPhoto: the body's `tags` is modelled by the ids it maps to; the content and photo update payloads are the body's values.
- Photo deletion, comment and listing routes, the board listings, `check.js` and the data-access controllers and models are outside this model.
