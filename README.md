# Network1service site adapter

A Dafny model of the `Network1service` site adapter of the PhoenixAdult metadata
plugin for Jellyfin. The adapter talks to the catalog API shared by the
"network 1 service" sites and has three operations:

- **Search** takes a site and a title. It obtains a session token from the
  `instance_token` cookie of a `HEAD` request to the site. It then queries the
  buckets `scene`, `movie` and `serie` in that order, either by release id (when
  the title's first word is an `Int32`) or by the full title. It stops at the first
  bucket whose response is absent. Every item of an answered bucket becomes one
  hit. A hit carries the provider id `siteNum[0]#siteNum[1]#id#bucket`, the title,
  the poster (the last `xx.url` seen in `poster`, then `cover`) and the release date.
- **Update** resolves a provider id (release id and bucket) into the host's
  metadata record: title, description, title-cased studio, release date, one genre
  per tag, and one cast member per actor whose lookup answers.
- **GetImages** lists every image of `poster`, then `cover`, of the same release
  twice: once as `Primary` and once as `Backdrop`.

Every network call is an input. The `Env` datatype (`api.dfy`) holds the host's URL
lookups, the title casing, the cookie list of a `HEAD`, and the `result` list of a
`GET` whose status is OK (`None` exactly when the status is not OK, which is when
`GetDataFromAPI` returns null). Each operation is an imperative method
with the source's loops. It returns its result and the trace of calls it made,
as a `seq<Call>`. Its `ensures` ties both to specification functions
(`SearchHits`, `SearchCalls`, `UpdateResult`, `UpdateCalls`, `ImagesResult`,
`DetailCalls`). The lemmas of `properties.dfy` prove the adapter's promises about
those functions.

Files:

- `wrappers.dfy` has `Option`.
- `text.dfy` has `string.Split`, `int.TryParse` for an `Int32`, and decimal formatting.
- `api.dfy` has the JSON records, the host records, the calls and `Env`.
- `network1service.dfy` has the three operations and their specification functions.
- `properties.dfy` has the properties.

## Model

| member | source | states |
|---|---|---|
| Text.WhiteSpace | Jellyfin.Plugin.PhoenixAdult/Sites/Network1service.cs:54 | definition: the characters `char.IsWhiteSpace` accepts, on which `.Split()` with no arguments splits |
| Text.SplitFirstPiece | Jellyfin.Plugin.PhoenixAdult/Sites/Network1service.cs:54 | the first piece is a prefix of the text, followed by a separator when it is shorter |
| Text.SplitFirstPieceOf | Jellyfin.Plugin.PhoenixAdult/Sites/Network1service.cs:54 | the first piece of `piece + rest` is `piece` when `piece` has no separator and `rest` is empty or starts with one |
| Text.SplitNoSeparator | Jellyfin.Plugin.PhoenixAdult/Sites/Network1service.cs:54 | a text without separators splits into itself alone |
| Text.SplitAfterPiece | Jellyfin.Plugin.PhoenixAdult/Sites/Network1service.cs:54 | splitting `a`, a separator, then `rest` gives `a` followed by the pieces of `rest`, when `a` has no separator |
| Text.Split | Jellyfin.Plugin.PhoenixAdult/Sites/Network1service.cs:54 | `Split` always yields at least one piece, and no piece contains a separator |
| Text.FirstToken | Jellyfin.Plugin.PhoenixAdult/Sites/Network1service.cs:54 | `searchTitle.Split()[0]` is a prefix of the title with no white space, followed by white space or by the end of the title |
| Text.ParseInt32 | Jellyfin.Plugin.PhoenixAdult/Sites/Network1service.cs:56 | `int.TryParse` succeeds only on an optionally signed non-empty run of digits whose value is in the `Int32` range, and its result is that signed value |
| Text.SignedDigitsParse | Jellyfin.Plugin.PhoenixAdult/Sites/Network1service.cs:56 | conversely, every optionally signed non-empty run of digits with a value in the `Int32` range parses to that value (a leading `+` and leading zeros included) |
| Text.OutOfRangeFails | Jellyfin.Plugin.PhoenixAdult/Sites/Network1service.cs:56-59 | a run of digits whose signed value is outside the `Int32` range does not parse |
| Text.DigitsValue | Jellyfin.Plugin.PhoenixAdult/Sites/Network1service.cs:56 | definition: the decimal value of a run of digits, most significant first |
| Text.Magnitude | Jellyfin.Plugin.PhoenixAdult/Sites/Network1service.cs:56 | definition: the text after an optional leading `+` or `-` |
| Text.SignedValue | Jellyfin.Plugin.PhoenixAdult/Sites/Network1service.cs:56 | definition: the value of the digits after the sign, negated when the sign is `-` |
| Text.DigitChar | Jellyfin.Plugin.PhoenixAdult/Sites/Network1service.cs:89 | the digit character of a number below ten has that value |
| Text.Pow10 | Jellyfin.Plugin.PhoenixAdult/Sites/Network1service.cs:56 | a power of ten is at least one |
| Text.Pow10Monotone | Jellyfin.Plugin.PhoenixAdult/Sites/Network1service.cs:56 | powers of ten grow with the exponent |
| Text.DigitsAppend | Jellyfin.Plugin.PhoenixAdult/Sites/Network1service.cs:56 | one more digit at the end gives ten times the value plus that digit |
| Text.IntToString | Jellyfin.Plugin.PhoenixAdult/Sites/Network1service.cs:89 | an interpolated `int` is digits with at most a leading `-`, and it starts with `-` exactly when the number is negative |
| Text.IntToStringCanonical | Jellyfin.Plugin.PhoenixAdult/Sites/Network1service.cs:89 | an interpolated `int` is its canonical decimal form: `-` exactly when negative, then the digits of the magnitude, with no leading zero, so that zero is exactly `0`, whose value is the magnitude |
| Text.NatToDigits | Jellyfin.Plugin.PhoenixAdult/Sites/Network1service.cs:89 | the digits of a natural number are a non-empty run of digits; the first is `0` only for zero, and then it is the only digit |
| Text.ParseFormattedInt32 | Jellyfin.Plugin.PhoenixAdult/Sites/Network1service.cs:89 | every formatted `Int32` parses back to itself |
| Text.ShortDigitStringParses | Jellyfin.Plugin.PhoenixAdult/Sites/Network1service.cs:56-59 | any string of 1 to 9 ASCII digits parses, to its decimal value |
| Text.DigitsOfNat | Jellyfin.Plugin.PhoenixAdult/Sites/Network1service.cs:89 | the decimal digits of a natural number have that number as their value |
| Text.DigitsValueBound | Jellyfin.Plugin.PhoenixAdult/Sites/Network1service.cs:56 | a run of `k` digits has a value below `10^k` |
| Network1service.WithName | Jellyfin.Plugin.PhoenixAdult/Sites/Network1service.cs:62-63 | the filtered cookie list holds only cookies of that name, and it is empty exactly when no cookie has that name |
| Network1service.Searchable | Jellyfin.Plugin.PhoenixAdult/Sites/Network1service.cs:49-52 | definition: a search goes ahead only with a non-null site and a non-null, non-empty title |
| Network1service.IsIdQuery | Jellyfin.Plugin.PhoenixAdult/Sites/Network1service.cs:54-59 | definition: a title is an id lookup exactly when its first white-space-delimited word parses as an `Int32` |
| Network1service.BucketResponses | Jellyfin.Plugin.PhoenixAdult/Sites/Network1service.cs:80 | definition: the answer, for each bucket in order, to that bucket's URL with the token |
| Network1service.BucketCalls | Jellyfin.Plugin.PhoenixAdult/Sites/Network1service.cs:80 | definition: the data calls for the first `n` buckets, in bucket order, each with the token |
| Network1service.DataCalls | Jellyfin.Plugin.PhoenixAdult/Sites/Network1service.cs:80-84 | definition: the data calls a search makes stop after the first absent response, or after the last bucket |
| Network1service.SlotImages | Jellyfin.Plugin.PhoenixAdult/Sites/Network1service.cs:97-99 | definition: the entries of an image slot, none for a null slot |
| Network1service.ImagesIn | Jellyfin.Plugin.PhoenixAdult/Sites/Network1service.cs:94-99 | definition: the entries of the given slots, slot after slot |
| Network1service.LastUrl | Jellyfin.Plugin.PhoenixAdult/Sites/Network1service.cs:99-102 | definition: the `xx.url` of the last entry scanned, or the starting value when there is none |
| Network1service.ItemHits | Jellyfin.Plugin.PhoenixAdult/Sites/Network1service.cs:86-115 | definition: one hit per item of a response, in response order, built by `HitOf` |
| Network1service.PresentPrefix | Jellyfin.Plugin.PhoenixAdult/Sites/Network1service.cs:68-84 | the bucket loop runs over the longest prefix of present responses: all before it are present, and the one at it, if any, is absent |
| Network1service.PosterOf | Jellyfin.Plugin.PhoenixAdult/Sites/Network1service.cs:91-104 | the poster is the last `cover` entry when `cover` has entries, else the last `poster` entry, else the empty string |
| Network1service.ScannedSlots | Jellyfin.Plugin.PhoenixAdult/Sites/Network1service.cs:94-99 | the scanned images are those of `poster` followed by those of `cover` |
| Network1service.PickPoster | Jellyfin.Plugin.PhoenixAdult/Sites/Network1service.cs:91-104 | the nested slot and entry loops leave `scenePoster` equal to `PosterOf` |
| Network1service.MakeHit | Jellyfin.Plugin.PhoenixAdult/Sites/Network1service.cs:88-112 | the hit built from an item is `HitOf`: composite id, title, poster and date |
| Network1service.ItemHitsNext | Jellyfin.Plugin.PhoenixAdult/Sites/Network1service.cs:86-115 | the hits of `j + 1` items are those of `j` items followed by the hit of item `j` |
| Network1service.AddItemHits | Jellyfin.Plugin.PhoenixAdult/Sites/Network1service.cs:86-115 | the item loop appends exactly one hit per item, in response order, and keeps the earlier hits |
| Network1service.QueryId | Jellyfin.Plugin.PhoenixAdult/Sites/Network1service.cs:54-59 | `searchSceneID` is kept exactly when the title is an id query, and it is then the title's first word |
| Network1service.RequestPath | Jellyfin.Plugin.PhoenixAdult/Sites/Network1service.cs:70-78 | the request path is the `&id=` form for an id query and the `&search=` form with the whole title otherwise |
| Network1service.QueryBuckets | Jellyfin.Plugin.PhoenixAdult/Sites/Network1service.cs:68-116 | the bucket loop returns the hits of the present prefix of responses, concatenated in bucket order. It makes one data call per bucket up to and including the first absent one |
| Network1service.SearchCalls | Jellyfin.Plugin.PhoenixAdult/Sites/Network1service.cs:49-80 | a search calls nothing exactly when it is refused, and otherwise first primes the base URL |
| Network1service.Search | Jellyfin.Plugin.PhoenixAdult/Sites/Network1service.cs:46-119 | the method returns `SearchHits` and makes the calls `SearchCalls` |
| Network1service.BucketCallsNext | Jellyfin.Plugin.PhoenixAdult/Sites/Network1service.cs:80 | the data calls for `n + 1` buckets are those for `n` buckets followed by the call for bucket `n` |
| Network1service.BucketResponseAt | Jellyfin.Plugin.PhoenixAdult/Sites/Network1service.cs:80 | the response used for bucket `i` is the answer to that bucket's URL with the token |
| Network1service.BucketHitsNext | Jellyfin.Plugin.PhoenixAdult/Sites/Network1service.cs:86-115 | a present response for bucket `i` extends the hits by that bucket's item hits |
| Network1service.Detail | Jellyfin.Plugin.PhoenixAdult/Sites/Network1service.cs:129-148 | there is a detail record exactly when there is a scene id, a token and a present detail response, and it is then the first element of that response's `result` |
| Network1service.Doubled | Jellyfin.Plugin.PhoenixAdult/Sites/Network1service.cs:219-231 | two images are offered per entry |
| Network1service.DoubledAppend | Jellyfin.Plugin.PhoenixAdult/Sites/Network1service.cs:219-231 | one more entry adds its `Primary` image and then its `Backdrop` image at the end |
| Network1service.AddSlotImages | Jellyfin.Plugin.PhoenixAdult/Sites/Network1service.cs:219-231 | the entry loop of a slot appends the doubled entries of that slot |
| Network1service.CollectImages | Jellyfin.Plugin.PhoenixAdult/Sites/Network1service.cs:214-233 | the slot loop yields the doubled entries of `poster` then `cover`, and skips a null slot |
| Network1service.GetImages | Jellyfin.Plugin.PhoenixAdult/Sites/Network1service.cs:189-236 | the method returns `ImagesResult` and makes the calls `DetailCalls` |
| Network1service.Portrait | Jellyfin.Plugin.PhoenixAdult/Sites/Network1service.cs:177-180 | a portrait is set exactly when the actor's `images` is an object, and it is then the first profile entry's `xs.url` |
| Network1service.GenresOf | Jellyfin.Plugin.PhoenixAdult/Sites/Network1service.cs:157-162 | there is one genre per tag: genre `i` is the name of tag `i` |
| Network1service.AddGenres | Jellyfin.Plugin.PhoenixAdult/Sites/Network1service.cs:157-162 | the tag loop appends `GenresOf(tags)` to the item's genres and changes nothing else |
| Network1service.AddCast | Jellyfin.Plugin.PhoenixAdult/Sites/Network1service.cs:164-184 | the actor loop appends `CastOf(actors)` to the people and makes one actor lookup per actor link, in order |
| Network1service.Update | Jellyfin.Plugin.PhoenixAdult/Sites/Network1service.cs:121-187 | the method returns `UpdateResult` and makes the calls `UpdateCalls` |
| Properties.RefusedSearchCallsNothing | Jellyfin.Plugin.PhoenixAdult/Sites/Network1service.cs:49-52 | with a null site, or a null or empty title, a search returns no hits and makes no call |
| Properties.InstanceTokenIsFirstNamed | Jellyfin.Plugin.PhoenixAdult/Sites/Network1service.cs:62-80 | the token sent is the value of the first `instance_token` cookie |
| Properties.InstanceTokenPresence | Jellyfin.Plugin.PhoenixAdult/Sites/Network1service.cs:62-66 | there is no token exactly when no cookie is named `instance_token` |
| Properties.NoTokenNoDataCall | Jellyfin.Plugin.PhoenixAdult/Sites/Network1service.cs:134-139 | without a token, no operation makes a data call: search has no hits, update returns the empty record and images are empty |
| Properties.SearchCallsCarryToken | Jellyfin.Plugin.PhoenixAdult/Sites/Network1service.cs:80 | every data call of a search carries the session token |
| Properties.UpdateCallsCarryToken | Jellyfin.Plugin.PhoenixAdult/Sites/Network1service.cs:142-167 | every data call of an update, for the detail record and for each actor, carries the session token |
| Properties.FirstTokenOf | Jellyfin.Plugin.PhoenixAdult/Sites/Network1service.cs:54 | the first word is everything before the first white space |
| Properties.FormattedNumberIsIdQuery | Jellyfin.Plugin.PhoenixAdult/Sites/Network1service.cs:54-77 | a title starting with a formatted `Int32`, then white space or nothing, looks up that number by id |
| Properties.DigitTokenIsIdQuery | Jellyfin.Plugin.PhoenixAdult/Sites/Network1service.cs:54-77 | a title starting with 1 to 9 digits, then white space or nothing, looks up those digits by id |
| Properties.NonNumericTokenIsTitleSearch | Jellyfin.Plugin.PhoenixAdult/Sites/Network1service.cs:56-73 | a first word with a character that is neither a digit nor a leading sign makes a search on the whole title |
| Properties.OverflowIsTitleSearch | Jellyfin.Plugin.PhoenixAdult/Sites/Network1service.cs:54-73 | a title whose first word is a run of digits too large for an `Int32` makes a search on the whole title |
| Properties.UnsignedOutOfRange | Jellyfin.Plugin.PhoenixAdult/Sites/Network1service.cs:56-59 | an unsigned run of digits above the `Int32` range does not parse |
| Properties.NoSpaceInDigits | Jellyfin.Plugin.PhoenixAdult/Sites/Network1service.cs:54 | a run of digits holds no white space |
| Properties.OverflowToken | Jellyfin.Plugin.PhoenixAdult/Sites/Network1service.cs:56 | `2147483648` is one more than the largest `Int32` |
| Properties.ZeroFormatsAsOneDigit | Jellyfin.Plugin.PhoenixAdult/Sites/Network1service.cs:89 | zero is interpolated as the single digit `0` |
| Properties.OverflowExample | Jellyfin.Plugin.PhoenixAdult/Sites/Network1service.cs:54-73 | `2147483648 Some Scene` is a title search, not an id lookup |
| Properties.IdQueryExample | Jellyfin.Plugin.PhoenixAdult/Sites/Network1service.cs:54-77 | `12345 Some Scene` asks for `&id=12345` |
| Properties.TitleSearchExample | Jellyfin.Plugin.PhoenixAdult/Sites/Network1service.cs:56-73 | `Some Scene 12345` asks for `&search=` with the whole title |
| Properties.ConcatLength | Jellyfin.Plugin.PhoenixAdult/Sites/Network1service.cs:68-116 | the concatenated hits are as long as the sum of the block lengths |
| Properties.CountMonotone | Jellyfin.Plugin.PhoenixAdult/Sites/Network1service.cs:68-116 | the blocks before block `k`, plus block `k`, take no more than the first `n` blocks, for `k < n` |
| Properties.ConcatAt | Jellyfin.Plugin.PhoenixAdult/Sites/Network1service.cs:68-116 | element `j` of block `k` sits at offset `Count(k) + j` of the concatenation |
| Properties.BucketHitsCount | Jellyfin.Plugin.PhoenixAdult/Sites/Network1service.cs:86-115 | the hits of the first `n` buckets number as many as their response items |
| Properties.AbsentBucketEndsSearch | Jellyfin.Plugin.PhoenixAdult/Sites/Network1service.cs:68-84 | an absent response for bucket `k` ends the search. The hits are those of the buckets before `k`, and the data calls are those for buckets 0 to `k`, in order |
| Properties.SearchCallsOfSession | Jellyfin.Plugin.PhoenixAdult/Sites/Network1service.cs:61-84 | with a token, a search primes the base URL and then makes the bucket calls of the present prefix |
| Properties.SceneAbsentStopsSearch | Jellyfin.Plugin.PhoenixAdult/Sites/Network1service.cs:68-84 | when `scene` answers nothing, the search has no hits and never asks for `movie` or `serie` |
| Properties.AllBucketsAnswered | Jellyfin.Plugin.PhoenixAdult/Sites/Network1service.cs:55-116 | when all buckets answer, the hits are those of `scene`, then `movie`, then `serie`, after three data calls |
| Properties.SearchHitsCount | Jellyfin.Plugin.PhoenixAdult/Sites/Network1service.cs:68-116 | a search returns one hit per item of the answered buckets before the first absent one |
| Properties.SearchHitsLayout | Jellyfin.Plugin.PhoenixAdult/Sites/Network1service.cs:68-116 | item `j` of answered bucket `k` is hit `HitCount(k) + j`, built from that item and bucket |
| Properties.BucketHitsAt | Jellyfin.Plugin.PhoenixAdult/Sites/Network1service.cs:68-116 | item `j` of bucket `k` is hit `HitCount(k) + j` of the first `n` buckets' hits, for `k < n` |
| Properties.ResponseHitsAt | Jellyfin.Plugin.PhoenixAdult/Sites/Network1service.cs:86-115 | hit `j` of a present response is built from its item `j` |
| Properties.SearchHitsOfSession | Jellyfin.Plugin.PhoenixAdult/Sites/Network1service.cs:61-116 | with a token, the hits are the concatenated item hits of the present prefix |
| Properties.CompositeIdSplits | Jellyfin.Plugin.PhoenixAdult/Sites/Network1service.cs:89 | a provider id splits on `#` into the two site numbers, the release id and the bucket, when neither the id nor the bucket contains `#` |
| Properties.HitLeadsToItsRelease | Jellyfin.Plugin.PhoenixAdult/Sites/Network1service.cs:89-141 | the provider id of a hit, used as the scene id of an update, asks for that hit's release in that hit's bucket |
| Properties.DoubledAt | Jellyfin.Plugin.PhoenixAdult/Sites/Network1service.cs:219-230 | entry `i` is offered at `2i` as `Primary` and at `2i + 1` as `Backdrop` |
| Properties.ImagesOfRelease | Jellyfin.Plugin.PhoenixAdult/Sites/Network1service.cs:193-233 | the image list is empty without a detail record. Otherwise it holds every `poster` entry and then every `cover` entry, each twice (`Primary`, then `Backdrop`), and nothing else |
| Properties.SinglePosterExample | Jellyfin.Plugin.PhoenixAdult/Sites/Network1service.cs:214-233 | a single poster `A` yields `A` as `Primary` and then `A` as `Backdrop` |
| Properties.CastSize | Jellyfin.Plugin.PhoenixAdult/Sites/Network1service.cs:164-184 | the cast plus the failed lookups number as many as the actor links |
| Properties.CastWhenAllAnswer | Jellyfin.Plugin.PhoenixAdult/Sites/Network1service.cs:164-184 | when every lookup answers, cast member `i` has the name of actor link `i` and that actor's portrait |
| Properties.OneLookupOfThreeFails | Jellyfin.Plugin.PhoenixAdult/Sites/Network1service.cs:167-183 | with three actors of which one lookup fails, the cast is the other two, in order |
| Properties.CastOfLast | Jellyfin.Plugin.PhoenixAdult/Sites/Network1service.cs:164-184 | the cast of a list is the cast of all but the last actor, then the last actor, named by its link, if its lookup answered |
| Properties.UpdateOfRelease | Jellyfin.Plugin.PhoenixAdult/Sites/Network1service.cs:141-184 | without a detail record, an update is the empty record. Otherwise every field comes from the record, the studio is title-cased, there is one genre per tag in order, and the people are `CastOf` the actor links. The calls are the `HEAD`, the detail `GET`, then `CastCalls`: one lookup per actor link, in order |
| Network1service.InstanceToken | Jellyfin.Plugin.PhoenixAdult/Sites/Network1service.cs:62-80 | definition: the value of the first `instance_token` cookie, if any |
| Network1service.Session | Jellyfin.Plugin.PhoenixAdult/Sites/Network1service.cs:61-66 | definition: the token from the cookies of a `HEAD` to the site's base URL |
| Network1service.BucketPath | Jellyfin.Plugin.PhoenixAdult/Sites/Network1service.cs:70-78 | definition: the `&id=` path for an id query, else the `&search=` path with the whole title |
| Network1service.BucketURL | Jellyfin.Plugin.PhoenixAdult/Sites/Network1service.cs:80 | definition: the site's search URL followed by the bucket's path |
| Network1service.CompositeId | Jellyfin.Plugin.PhoenixAdult/Sites/Network1service.cs:89 | definition: `siteNum[0]#siteNum[1]#id#bucket` |
| Network1service.HitOf | Jellyfin.Plugin.PhoenixAdult/Sites/Network1service.cs:88-112 | definition: the hit of one item: composite id, title, poster and release date |
| Network1service.ResponseHits | Jellyfin.Plugin.PhoenixAdult/Sites/Network1service.cs:81-115 | definition: no hits for an absent response, else one hit per item, in item order |
| Network1service.BucketHits | Jellyfin.Plugin.PhoenixAdult/Sites/Network1service.cs:68-116 | definition: the response hits of each bucket, in bucket order |
| Network1service.Concat | Jellyfin.Plugin.PhoenixAdult/Sites/Network1service.cs:68-116 | definition: the hits of the first `n` buckets, one block after the other |
| Properties.Size | Jellyfin.Plugin.PhoenixAdult/Sites/Network1service.cs:81-86 | definition: the number of items of a response, none when it is absent |
| Properties.HitCount | Jellyfin.Plugin.PhoenixAdult/Sites/Network1service.cs:68-115 | definition: the items of the first `n` responses, added up |
| Properties.Count | Jellyfin.Plugin.PhoenixAdult/Sites/Network1service.cs:68-116 | definition: the lengths of the first `n` blocks of hits, added up |
| Properties.AbsentLookups | Jellyfin.Plugin.PhoenixAdult/Sites/Network1service.cs:167-168 | definition: the number of actor links whose lookup did not answer |
| Network1service.SearchHits | Jellyfin.Plugin.PhoenixAdult/Sites/Network1service.cs:46-119 | definition: no hits when refused or without a token, else the concatenated hits of the present prefix of bucket responses |
| Network1service.DetailURL | Jellyfin.Plugin.PhoenixAdult/Sites/Network1service.cs:141 | definition: the release request for bucket `sceneID[1]` and id `sceneID[0]` |
| Network1service.DetailCalls | Jellyfin.Plugin.PhoenixAdult/Sites/Network1service.cs:129-142 | definition: no call without a scene id, else the `HEAD` and, given a token, the detail `GET` |
| Network1service.ImagesResult | Jellyfin.Plugin.PhoenixAdult/Sites/Network1service.cs:189-236 | definition: no images without a detail record, else its `poster` and `cover` entries, doubled |
| Network1service.ActorURL | Jellyfin.Plugin.PhoenixAdult/Sites/Network1service.cs:166 | definition: the actor request for one actor link's id |
| Network1service.PersonOf | Jellyfin.Plugin.PhoenixAdult/Sites/Network1service.cs:167-182 | definition: the person of an actor link whose lookup answered: the link's name and the portrait |
| Network1service.CastOf | Jellyfin.Plugin.PhoenixAdult/Sites/Network1service.cs:164-184 | definition: the persons of the actor links whose lookups answered, in link order |
| Network1service.CastCalls | Jellyfin.Plugin.PhoenixAdult/Sites/Network1service.cs:164-167 | definition: one actor lookup per actor link, in order |
| Network1service.UpdateResult | Jellyfin.Plugin.PhoenixAdult/Sites/Network1service.cs:121-187 | definition: the empty record without a detail record, else the fields, genres and cast taken from it |
| Network1service.UpdateCalls | Jellyfin.Plugin.PhoenixAdult/Sites/Network1service.cs:121-187 | definition: the detail calls, then, given a detail record, the actor lookups |

## Left out

- The network is not modelled. This covers `HTTP.Request`, the `HEAD` request, the
  `Instance` header and the HTTP status (`GetCookies`, `GetDataFromAPI`, lines 22-44).
  They are the `cookiesAt`, `releasesAt` and `actorsAt` functions of `Env`.
  `releasesAt` and `actorsAt` are `None` exactly when the status is not OK.
- A body that `JObject.Parse` rejects (line 40) throws, and nothing catches it. The
  whole `Search`, `Update` or `GetImages` then fails. The model does not represent
  this exception: every OK body is taken to parse into the typed records.
- `JObject.Parse` and dynamic JSON indexing are replaced by typed records. These hold
  exactly the fields the adapter reads. `result` is a list of records, and a null
  image slot is a slot missing from the map.
- Runtime failures of casts and of `.First` are preconditions:
  - `DetailWellFormed` requires that a present detail response is non-empty.
  - `CastWellFormed` and `UpdateWellFormed` require that a present actor response is
    non-empty and that an object `images` has a non-empty `profile`.
  - `Search` requires that a non-null `siteNum` has at least two elements.
  - `ValidSceneID` requires that a non-null `sceneID` has at least two elements.
  - A missing or ill-typed `dateReleased` is not modelled; dates are strings.
- `Helper.GetSearchBaseURL`, `Helper.GetSearchSearchURL` and
  `TextInfo.ToTitleCase` are functions of `Env`. They are not part of this model.
- `int[] siteNum` holds `Int32` values, but `SiteNum` holds unbounded integers. This is
  why `Properties.HitLeadsToItsRelease` requires both site numbers to be in the
  `Int32` range.
- Text.IntToString: the interpolation of `siteNum[0]` and `siteNum[1]` (line 89)
  assumes the invariant culture, as does `Text.ParseInt32`. A culture with a different
  negative sign is not modelled.
- `Plugin.Instance.Name`, the key of the provider id, is not modelled. A hit holds
  the provider id value only.
- `DateTime` is carried as the release's date string.
- `async`/`await` and cancellation are not modelled; each operation is a sequential method.
- `Search` ignores its `searchDate` and `GetImages` its `item`, as the source does.
- `Movie.AddStudio` and `Movie.AddGenre` are host code and not part of this model.
  `AddGenres` and `Update` record each call as an append, so any de-duplication the
  host does is not captured.
- The host's objects are updated in place in the source. The model returns new
  record values instead, built field by field in the same order.
- Text.ParseInt32: only the strings `searchTitle.Split()[0]` can produce are
  modelled. These hold no white space, so `int.TryParse`'s trimming of surrounding
  white space does not arise. Its acceptance of trailing NUL characters and
  culture-specific signs is not modelled: the invariant culture with ASCII `+`/`-`
  is assumed.
- A failed actor lookup drops that actor. Line 168 wraps the whole `PersonInfo`
  construction in `if (actorData != null)`, so the actor is not kept with a name only.
  `CastOf`, `AddCast` and `Properties.OneLookupOfThreeFails` state this.
