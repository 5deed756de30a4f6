/**
 What the adapter promises, stated over the functions that specify its three
 operations: the guards and the session token, how a title becomes an id lookup,
 the order and early stop of the bucket loop, the shape of the hits and of their
 provider ids, the doubled image list, and the cast of an update.
 */
module Properties {
  import opened Wrappers
  import opened Text
  import opened Api
  import opened Network1service

  // ---------------------------------------------------------------------------
  // Guards and the session token

  /** Without a site, or with a null or empty title, a search returns nothing and calls nothing. */
  lemma RefusedSearchCallsNothing(env: Env, siteNum: SiteNum, searchTitle: Option<string>)
    requires siteNum.Some? ==> |siteNum.value| >= 2
    requires siteNum.None? || searchTitle.None? || searchTitle == Some("")
    ensures SearchHits(env, siteNum, searchTitle) == [] && SearchCalls(env, siteNum, searchTitle) == []
  {
  }

  /** The token sent is the value of the first cookie named `instance_token`. */
  lemma {:induction false} InstanceTokenIsFirstNamed(cookies: seq<Cookie>, k: nat)
    requires k < |cookies| && cookies[k].name == InstanceCookie
    requires forall i :: 0 <= i < k ==> cookies[i].name != InstanceCookie
    ensures InstanceToken(cookies) == Some(cookies[k].value)
  {
    if k > 0 {
      InstanceTokenIsFirstNamed(cookies[1..], k - 1);
    }
  }

  /** There is a token exactly when some cookie is named `instance_token`. */
  lemma InstanceTokenPresence(cookies: seq<Cookie>)
    ensures InstanceToken(cookies).None? <==> forall i :: 0 <= i < |cookies| ==> cookies[i].name != InstanceCookie
  {
  }

  /** Without a token no operation makes a data call, and each returns its empty value. */
  lemma NoTokenNoDataCall(env: Env, siteNum: SiteNum, searchTitle: Option<string>, sceneID: Option<seq<string>>)
    requires Session(env, siteNum).None?
    requires siteNum.Some? ==> |siteNum.value| >= 2
    requires ValidSceneID(sceneID)
    ensures SearchHits(env, siteNum, searchTitle) == []
    ensures SearchCalls(env, siteNum, searchTitle) == if Searchable(siteNum, searchTitle) then [Head(env.searchBaseURL(siteNum))] else []
    ensures DetailWellFormed(env, siteNum, sceneID) && UpdateWellFormed(env, siteNum, sceneID)
    ensures ImagesResult(env, siteNum, sceneID) == []
    ensures UpdateResult(env, siteNum, sceneID) == EmptyResult
    ensures UpdateCalls(env, siteNum, sceneID) == DetailCalls(env, siteNum, sceneID)
         == if sceneID.Some? then [Head(env.searchBaseURL(siteNum))] else []
  {
  }

  /** Every data call of a search carries the session token. */
  lemma SearchCallsCarryToken(env: Env, siteNum: SiteNum, searchTitle: Option<string>, token: string)
    requires Session(env, siteNum) == Some(token)
    ensures forall c :: c in SearchCalls(env, siteNum, searchTitle) && c.Get? ==> c.instance == token
  {
    if Searchable(siteNum, searchTitle) {
      var rs := BucketResponses(env, siteNum, searchTitle.value, token);
      var data := BucketCalls(env, siteNum, searchTitle.value, token, DataCalls(PresentPrefix(rs)));
      assert SearchCalls(env, siteNum, searchTitle) == [Head(env.searchBaseURL(siteNum))] + data;
      assert forall i :: 0 <= i < |data| ==> data[i].instance == token;
    }
  }

  /** Every data call of an update carries the session token. */
  lemma UpdateCallsCarryToken(env: Env, siteNum: SiteNum, sceneID: Option<seq<string>>, token: string)
    requires Session(env, siteNum) == Some(token)
    requires ValidSceneID(sceneID) && DetailWellFormed(env, siteNum, sceneID)
    ensures forall c :: c in UpdateCalls(env, siteNum, sceneID) && c.Get? ==> c.instance == token
  {
    if sceneID.Some? {
      var detail := [Head(env.searchBaseURL(siteNum)), Get(DetailURL(env, siteNum, sceneID.value), token)];
      assert DetailCalls(env, siteNum, sceneID) == detail;
      match Detail(env, siteNum, sceneID)
      case None =>
      case Some(scene) =>
        var cast := CastCalls(env, siteNum, token, scene.actors);
        assert UpdateCalls(env, siteNum, sceneID) == detail + cast;
        assert forall i :: 0 <= i < |cast| ==> cast[i].instance == token;
    }
  }

  // ---------------------------------------------------------------------------
  // Id lookups and title searches

  /** The first token is fixed by where the first white space stands. */
  lemma FirstTokenOf(token: string, rest: string)
    requires forall i :: 0 <= i < |token| ==> token[i] !in WhiteSpace
    requires rest == [] || rest[0] in WhiteSpace
    ensures FirstToken(token + rest) == token
  {
    SplitFirstPieceOf(token, rest, WhiteSpace);
  }

  /** A title that starts with a formatted `Int32`, followed by white space or by
      nothing, is an id lookup for that number's text. */
  lemma FormattedNumberIsIdQuery(n: int, rest: string, bucket: string)
    requires Int32Min <= n <= Int32Max
    requires rest == [] || rest[0] in WhiteSpace
    ensures IsIdQuery(IntToString(n) + rest)
    ensures BucketPath(IntToString(n) + rest, bucket) == "/v2/releases?type=" + bucket + "&id=" + IntToString(n)
  {
    var s := IntToString(n);
    assert forall i :: 0 <= i < |s| ==> s[i] !in WhiteSpace;
    FirstTokenOf(s, rest);
    ParseFormattedInt32(n);
  }

  /** A title that starts with one to nine digits, followed by white space or by
      nothing, is an id lookup for those digits. */
  lemma DigitTokenIsIdQuery(token: string, rest: string, bucket: string)
    requires 1 <= |token| <= 9 && AllDigits(token)
    requires rest == [] || rest[0] in WhiteSpace
    ensures IsIdQuery(token + rest)
    ensures BucketPath(token + rest, bucket) == "/v2/releases?type=" + bucket + "&id=" + token
  {
    assert forall i :: 0 <= i < |token| ==> token[i] !in WhiteSpace;
    FirstTokenOf(token, rest);
    ShortDigitStringParses(token);
  }

  /** A first token with a character that is neither a digit nor a leading sign
      makes the title a free-text search on the whole title. */
  lemma NonNumericTokenIsTitleSearch(title: string, k: nat, bucket: string)
    requires k < |FirstToken(title)|
    requires !IsDigit(FirstToken(title)[k])
    requires k > 0 || (FirstToken(title)[0] != '-' && FirstToken(title)[0] != '+')
    ensures !IsIdQuery(title)
    ensures BucketPath(title, bucket) == "/v2/releases?type=" + bucket + "&search=" + title
  {
    var t := FirstToken(title);
    var signed := t[0] == '-' || t[0] == '+';
    var body := if signed then t[1..] else t;
    if signed {
      assert body[k - 1] == t[k];
    } else {
      assert body[k] == t[k];
    }
    assert !AllDigits(body);
  }

  /** A title whose first word is a run of digits too large for an `Int32`, followed
      by white space or by nothing, is a free-text search on the whole title. */
  lemma OverflowIsTitleSearch(token: string, rest: string, bucket: string)
    requires token != [] && AllDigits(token) && DigitsValue(token) > Int32Max
    requires rest == [] || rest[0] in WhiteSpace
    ensures ParseInt32(token) == None
    ensures !IsIdQuery(token + rest)
    ensures BucketPath(token + rest, bucket) == "/v2/releases?type=" + bucket + "&search=" + (token + rest)
  {
    NoSpaceInDigits(token);
    FirstTokenOf(token, rest);
    UnsignedOutOfRange(token);
  }

  lemma UnsignedOutOfRange(token: string)
    requires token != [] && AllDigits(token) && DigitsValue(token) > Int32Max
    ensures ParseInt32(token) == None
  {
    assert Magnitude(token) == token;
    OutOfRangeFails(token);
  }

  lemma NoSpaceInDigits(token: string)
    requires AllDigits(token)
    ensures forall i :: 0 <= i < |token| ==> token[i] !in WhiteSpace
  {
  }

  /** The example of an out-of-range number: `2147483648 Some Scene` is a title search. */
  lemma OverflowExample()
    ensures !IsIdQuery("2147483648 Some Scene")
  {
    var token, rest := "2147483648", " Some Scene";
    assert token + rest == "2147483648 Some Scene";
    OverflowToken();
    OverflowIsTitleSearch(token, rest, "scene");
  }

  /** Zero is formatted as the single digit `0`. */
  lemma ZeroFormatsAsOneDigit()
    ensures IntToString(0) == "0"
  {
    IntToStringCanonical(0);
  }

  /** `2147483648` is one more than the largest `Int32`. */
  lemma OverflowToken()
    ensures AllDigits("2147483648") && DigitsValue("2147483648") == Int32Max + 1
  {
    var token := DigitsAppend(DigitsAppend(DigitsAppend(DigitsAppend(DigitsAppend(
                 DigitsAppend(DigitsAppend(DigitsAppend(DigitsAppend(['2'], '1'), '4'), '7'), '4'), '8'), '3'), '6'), '4'), '8');
    assert token == "2147483648";
  }

  /** The example of an id lookup: `12345 Some Scene` asks for release id 12345. */
  lemma IdQueryExample()
    ensures IsIdQuery("12345 Some Scene")
    ensures BucketPath("12345 Some Scene", "scene") == "/v2/releases?type=" + "scene" + "&id=" + "12345"
  {
    var token, rest := "12345", " Some Scene";
    assert token + rest == "12345 Some Scene";
    DigitTokenIsIdQuery(token, rest, "scene");
  }

  /** The example of a title search: `Some Scene 12345` searches for the whole title. */
  lemma TitleSearchExample()
    ensures !IsIdQuery("Some Scene 12345")
    ensures BucketPath("Some Scene 12345", "movie") == "/v2/releases?type=" + "movie" + "&search=" + "Some Scene 12345"
  {
    var token, rest := "Some", " Scene 12345";
    assert token + rest == "Some Scene 12345";
    FirstTokenOf(token, rest);
    NonNumericTokenIsTitleSearch("Some Scene 12345", 0, "movie");
  }

  // ---------------------------------------------------------------------------
  // The bucket loop

  /** The number of items of a response; an absent response has none. */
  function Size(r: Option<seq<Release>>): nat {
    if r.Some? then |r.value| else 0
  }

  /** The number of hits the first `n` buckets contribute. */
  function HitCount(rs: seq<Option<seq<Release>>>, n: nat): nat
    requires n <= |rs|
  {
    if n == 0 then 0 else HitCount(rs, n - 1) + Size(rs[n - 1])
  }

  /** The number of elements in the first `n` blocks. */
  function Count<T>(blocks: seq<seq<T>>, n: nat): nat
    requires n <= |blocks|
  {
    if n == 0 then 0 else Count(blocks, n - 1) + |blocks[n - 1]|
  }

  lemma {:induction false} ConcatLength<T>(blocks: seq<seq<T>>, n: nat)
    requires n <= |blocks|
    ensures |Concat(blocks, n)| == Count(blocks, n)
  {
    if n > 0 {
      ConcatLength(blocks, n - 1);
    }
  }

  /** Block `k` ends within the first `n` blocks, for `k < n`. */
  lemma {:induction false} CountMonotone<T>(blocks: seq<seq<T>>, k: nat, n: nat)
    requires k < n <= |blocks|
    ensures Count(blocks, k) + |blocks[k]| <= Count(blocks, n)
  {
    if k < n - 1 {
      CountMonotone(blocks, k, n - 1);
    }
  }

  /** Element `j` of block `k` is element `Count(blocks, k) + j` of the concatenation. */
  lemma {:induction false} ConcatAt<T>(blocks: seq<seq<T>>, n: nat, k: nat, j: nat)
    requires n <= |blocks| && k < n && j < |blocks[k]|
    ensures Count(blocks, k) + j < Count(blocks, n) == |Concat(blocks, n)|
    ensures Concat(blocks, n)[Count(blocks, k) + j] == blocks[k][j]
  {
    var prev := Concat(blocks, n - 1);
    assert Concat(blocks, n) == prev + blocks[n - 1];
    ConcatLength(blocks, n - 1);
    ConcatLength(blocks, n);
    CountMonotone(blocks, k, n);
    if k < n - 1 {
      ConcatAt(blocks, n - 1, k, j);
    }
  }

  /** Each bucket contributes one hit per item. */
  lemma {:induction false} BucketHitsCount(site: seq<int>, rs: seq<Option<seq<Release>>>, n: nat)
    requires |site| >= 2 && n <= |rs| <= |Buckets|
    ensures Count(BucketHits(site, rs), n) == HitCount(rs, n)
  {
    if n > 0 {
      BucketHitsCount(site, rs, n - 1);
      assert |BucketHits(site, rs)[n - 1]| == Size(rs[n - 1]);
    }
  }

  /** The first absent response, for bucket `k`, ends the search: the hits are
      those of the buckets before it and the data calls are those for buckets 0 to
      `k`, in bucket order. */
  lemma AbsentBucketEndsSearch(env: Env, siteNum: SiteNum, searchTitle: Option<string>, token: string, k: nat)
    requires siteNum.Some? ==> |siteNum.value| >= 2
    requires Searchable(siteNum, searchTitle) && Session(env, siteNum) == Some(token)
    requires k < |Buckets|
    requires BucketResponses(env, siteNum, searchTitle.value, token)[k].None?
    requires forall j :: 0 <= j < k ==> BucketResponses(env, siteNum, searchTitle.value, token)[j].Some?
    ensures SearchHits(env, siteNum, searchTitle)
         == Concat(BucketHits(siteNum.value, BucketResponses(env, siteNum, searchTitle.value, token)), k)
    ensures |SearchCalls(env, siteNum, searchTitle)| == k + 2
    ensures forall j :: 0 <= j <= k ==>
      SearchCalls(env, siteNum, searchTitle)[j + 1] == Get(BucketURL(env, siteNum, searchTitle.value, Buckets[j]), token)
  {
    var rs := BucketResponses(env, siteNum, searchTitle.value, token);
    assert PresentPrefix(rs) == k;
    SearchHitsOfSession(env, siteNum, searchTitle, token);
    SearchCallsOfSession(env, siteNum, searchTitle, token);
  }

  lemma SearchCallsOfSession(env: Env, siteNum: SiteNum, searchTitle: Option<string>, token: string)
    requires Searchable(siteNum, searchTitle) && Session(env, siteNum) == Some(token)
    ensures var rs := BucketResponses(env, siteNum, searchTitle.value, token);
      SearchCalls(env, siteNum, searchTitle)
      == [Head(env.searchBaseURL(siteNum))] + BucketCalls(env, siteNum, searchTitle.value, token, DataCalls(PresentPrefix(rs)))
  {
  }

  /** When the `scene` bucket answers nothing, the search returns nothing and never
      asks for `movie` or `serie`. */
  lemma SceneAbsentStopsSearch(env: Env, siteNum: SiteNum, searchTitle: Option<string>, token: string)
    requires siteNum.Some? ==> |siteNum.value| >= 2
    requires Searchable(siteNum, searchTitle) && Session(env, siteNum) == Some(token)
    requires env.releasesAt(BucketURL(env, siteNum, searchTitle.value, "scene"), token).None?
    ensures SearchHits(env, siteNum, searchTitle) == []
    ensures SearchCalls(env, siteNum, searchTitle)
         == [Head(env.searchBaseURL(siteNum)), Get(BucketURL(env, siteNum, searchTitle.value, "scene"), token)]
  {
    AbsentBucketEndsSearch(env, siteNum, searchTitle, token, 0);
  }

  /** When every bucket answers, the hits are those of `scene`, then `movie`, then
      `serie`, and there are three data calls. */
  lemma AllBucketsAnswered(env: Env, siteNum: SiteNum, searchTitle: Option<string>, token: string)
    requires siteNum.Some? ==> |siteNum.value| >= 2
    requires Searchable(siteNum, searchTitle) && Session(env, siteNum) == Some(token)
    requires forall j :: 0 <= j < |Buckets| ==> BucketResponses(env, siteNum, searchTitle.value, token)[j].Some?
    ensures var rs := BucketResponses(env, siteNum, searchTitle.value, token);
      SearchHits(env, siteNum, searchTitle)
      == ItemHits(siteNum.value, "scene", rs[0].value)
       + ItemHits(siteNum.value, "movie", rs[1].value)
       + ItemHits(siteNum.value, "serie", rs[2].value)
    ensures |SearchCalls(env, siteNum, searchTitle)| == 1 + |Buckets|
  {
    var rs := BucketResponses(env, siteNum, searchTitle.value, token);
    var site := siteNum.value;
    var blocks := BucketHits(site, rs);
    assert PresentPrefix(rs) == |Buckets|;
    assert Concat(blocks, 1) == ItemHits(site, "scene", rs[0].value);
    assert Concat(blocks, 2) == Concat(blocks, 1) + ItemHits(site, "movie", rs[1].value);
    assert Concat(blocks, 3) == Concat(blocks, 2) + ItemHits(site, "serie", rs[2].value);
  }

  /** A search returns one hit per item of the answered buckets before the first
      absent one, and no others. */
  lemma SearchHitsCount(env: Env, siteNum: SiteNum, searchTitle: Option<string>, token: string)
    requires siteNum.Some? ==> |siteNum.value| >= 2
    requires Searchable(siteNum, searchTitle) && Session(env, siteNum) == Some(token)
    ensures var rs := BucketResponses(env, siteNum, searchTitle.value, token);
      |SearchHits(env, siteNum, searchTitle)| == HitCount(rs, PresentPrefix(rs))
  {
    var rs := BucketResponses(env, siteNum, searchTitle.value, token);
    ConcatLength(BucketHits(siteNum.value, rs), PresentPrefix(rs));
    BucketHitsCount(siteNum.value, rs, PresentPrefix(rs));
  }

  /** Item `j` of bucket `k`, an answered bucket before the first absent one, is
      hit number `HitCount(rs, k) + j` of the search: the hits are laid out bucket
      by bucket, in item order. */
  lemma SearchHitsLayout(env: Env, siteNum: SiteNum, searchTitle: Option<string>, token: string, k: nat, j: nat)
    requires siteNum.Some? ==> |siteNum.value| >= 2
    requires Searchable(siteNum, searchTitle) && Session(env, siteNum) == Some(token)
    requires var rs := BucketResponses(env, siteNum, searchTitle.value, token);
      k < PresentPrefix(rs) && j < Size(rs[k])
    ensures var rs := BucketResponses(env, siteNum, searchTitle.value, token);
      HitCount(rs, k) + j < |SearchHits(env, siteNum, searchTitle)| &&
      SearchHits(env, siteNum, searchTitle)[HitCount(rs, k) + j] == HitOf(siteNum.value, Buckets[k], rs[k].value[j])
  {
    var rs := BucketResponses(env, siteNum, searchTitle.value, token);
    SearchHitsOfSession(env, siteNum, searchTitle, token);
    BucketHitsAt(siteNum.value, rs, PresentPrefix(rs), k, j);
  }

  /** Item `j` of bucket `k` is hit number `HitCount(rs, k) + j` of the first `n`
      buckets' hits, for `k < n`. */
  lemma BucketHitsAt(site: seq<int>, rs: seq<Option<seq<Release>>>, n: nat, k: nat, j: nat)
    requires |site| >= 2 && n <= |rs| <= |Buckets|
    requires k < n && j < Size(rs[k])
    ensures HitCount(rs, k) + j < |Concat(BucketHits(site, rs), n)|
    ensures Concat(BucketHits(site, rs), n)[HitCount(rs, k) + j] == HitOf(site, Buckets[k], rs[k].value[j])
  {
    var blocks := BucketHits(site, rs);
    ResponseHitsAt(site, Buckets[k], rs[k], j);
    assert blocks[k] == ResponseHits(site, Buckets[k], rs[k]);
    ConcatAt(blocks, n, k, j);
    BucketHitsCount(site, rs, k);
  }

  lemma ResponseHitsAt(site: seq<int>, bucket: string, r: Option<seq<Release>>, j: nat)
    requires |site| >= 2 && j < Size(r)
    ensures |ResponseHits(site, bucket, r)| == Size(r)
    ensures ResponseHits(site, bucket, r)[j] == HitOf(site, bucket, r.value[j])
  {
  }

  lemma SearchHitsOfSession(env: Env, siteNum: SiteNum, searchTitle: Option<string>, token: string)
    requires siteNum.Some? ==> |siteNum.value| >= 2
    requires Searchable(siteNum, searchTitle) && Session(env, siteNum) == Some(token)
    ensures var rs := BucketResponses(env, siteNum, searchTitle.value, token);
      SearchHits(env, siteNum, searchTitle) == Concat(BucketHits(siteNum.value, rs), PresentPrefix(rs))
  {
  }

  // ---------------------------------------------------------------------------
  // Provider ids

  /** A provider id splits on `#` into the two site numbers, the release id and the
      bucket, as long as neither the id nor the bucket contains `#`. */
  lemma CompositeIdSplits(siteA: int, siteB: int, sceneID: string, bucket: string)
    requires forall i :: 0 <= i < |sceneID| ==> sceneID[i] != '#'
    requires forall i :: 0 <= i < |bucket| ==> bucket[i] != '#'
    ensures Split(CompositeId(siteA, siteB, sceneID, bucket), {'#'})
         == [IntToString(siteA), IntToString(siteB), sceneID, bucket]
  {
    var a, b := IntToString(siteA), IntToString(siteB);
    assert CompositeId(siteA, siteB, sceneID, bucket) == a + ['#'] + (b + ['#'] + (sceneID + ['#'] + bucket));
    SplitAfterPiece(a, '#', b + ['#'] + (sceneID + ['#'] + bucket), {'#'});
    SplitAfterPiece(b, '#', sceneID + ['#'] + bucket, {'#'});
    SplitAfterPiece(sceneID, '#', bucket, {'#'});
    SplitNoSeparator(bucket, {'#'});
  }

  /** The provider id of a hit leads back to the same release: its first two pieces
      parse to the site numbers, and the rest, taken as the scene id of an update
      or an image listing, asks for the hit's release in the hit's bucket. */
  lemma HitLeadsToItsRelease(env: Env, site: seq<int>, bucket: string, item: Release)
    requires |site| >= 2 && Int32Min <= site[0] <= Int32Max && Int32Min <= site[1] <= Int32Max
    requires forall i :: 0 <= i < |item.id| ==> item.id[i] != '#'
    requires forall i :: 0 <= i < |bucket| ==> bucket[i] != '#'
    ensures var pieces := Split(HitOf(site, bucket, item).providerId, {'#'});
      |pieces| == 4 &&
      ParseInt32(pieces[0]) == Some(site[0]) && ParseInt32(pieces[1]) == Some(site[1]) &&
      DetailURL(env, Some(site), pieces[2..])
      == env.searchSearchURL(Some(site)) + "/v2/releases?type=" + bucket + "&id=" + item.id
  {
    CompositeIdSplits(site[0], site[1], item.id, bucket);
    ParseFormattedInt32(site[0]);
    ParseFormattedInt32(site[1]);
  }

  // ---------------------------------------------------------------------------
  // Images

  /** Image `i` appears twice, at `2i` as `Primary` and at `2i + 1` as `Backdrop`. */
  lemma {:induction false} DoubledAt(images: seq<ImageEntry>, i: nat)
    requires i < |images|
    ensures Doubled(images)[2 * i] == RemoteImage(images[i].xxUrl, Primary)
    ensures Doubled(images)[2 * i + 1] == RemoteImage(images[i].xxUrl, Backdrop)
  {
    if i < |images| - 1 {
      DoubledAt(images[..|images| - 1], i);
    }
  }

  /** The image listing of a release holds every image of `poster` and then of
      `cover` twice, and nothing else; it is empty when there is no scene id, no
      token or no detail record. */
  lemma ImagesOfRelease(env: Env, siteNum: SiteNum, sceneID: Option<seq<string>>)
    requires ValidSceneID(sceneID) && DetailWellFormed(env, siteNum, sceneID)
    ensures Detail(env, siteNum, sceneID).None? ==> ImagesResult(env, siteNum, sceneID) == []
    ensures Detail(env, siteNum, sceneID).Some? ==>
      var images := Detail(env, siteNum, sceneID).value.images;
      var found := SlotImages(images, "poster") + SlotImages(images, "cover");
      |ImagesResult(env, siteNum, sceneID)| == 2 * |found| &&
      forall i :: 0 <= i < |found| ==>
        ImagesResult(env, siteNum, sceneID)[2 * i] == RemoteImage(found[i].xxUrl, Primary) &&
        ImagesResult(env, siteNum, sceneID)[2 * i + 1] == RemoteImage(found[i].xxUrl, Backdrop)
  {
    if Detail(env, siteNum, sceneID).Some? {
      var images := Detail(env, siteNum, sceneID).value.images;
      ScannedSlots(images);
      var found := SlotImages(images, "poster") + SlotImages(images, "cover");
      forall i | 0 <= i < |found|
        ensures ImagesResult(env, siteNum, sceneID)[2 * i] == RemoteImage(found[i].xxUrl, Primary)
        ensures ImagesResult(env, siteNum, sceneID)[2 * i + 1] == RemoteImage(found[i].xxUrl, Backdrop)
      {
        DoubledAt(found, i);
      }
    }
  }

  /** The example of a single poster `A`: two images, `A` as `Primary` and `A` as `Backdrop`. */
  lemma SinglePosterExample()
    ensures Doubled(ImagesIn(map["poster" := [ImageEntry("A")]], ImageTypes))
         == [RemoteImage("A", Primary), RemoteImage("A", Backdrop)]
  {
    var images := map["poster" := [ImageEntry("A")]];
    ScannedSlots(images);
    assert SlotImages(images, "poster") + SlotImages(images, "cover") == [ImageEntry("A")];
    assert [ImageEntry("A")][..0] == [];
  }

  // ---------------------------------------------------------------------------
  // Cast

  /** The number of actor lookups that did not answer. */
  function AbsentLookups(env: Env, siteNum: SiteNum, token: string, actors: seq<ActorLink>): nat {
    if actors == [] then 0
    else
      AbsentLookups(env, siteNum, token, actors[..|actors| - 1]) +
      if env.actorsAt(ActorURL(env, siteNum, actors[|actors| - 1].id), token).None? then 1 else 0
  }

  /** Each actor whose lookup did not answer is left out of the cast, and only those. */
  lemma {:induction false} CastSize(env: Env, siteNum: SiteNum, token: string, actors: seq<ActorLink>)
    requires CastWellFormed(env, siteNum, token, actors)
    ensures |CastOf(env, siteNum, token, actors)| + AbsentLookups(env, siteNum, token, actors) == |actors|
  {
    if actors != [] {
      var prefix := actors[..|actors| - 1];
      assert forall i :: 0 <= i < |prefix| ==> prefix[i] == actors[i];
      CastSize(env, siteNum, token, prefix);
    }
  }

  /** When every lookup answers, the cast has one person per actor link, in order,
      named by the link. */
  lemma {:induction false} CastWhenAllAnswer(env: Env, siteNum: SiteNum, token: string, actors: seq<ActorLink>)
    requires CastWellFormed(env, siteNum, token, actors)
    requires forall i :: 0 <= i < |actors| ==> env.actorsAt(ActorURL(env, siteNum, actors[i].id), token).Some?
    ensures |CastOf(env, siteNum, token, actors)| == |actors|
    ensures forall i :: 0 <= i < |actors| ==>
      CastOf(env, siteNum, token, actors)[i]
      == Person(actors[i].name, Portrait(env.actorsAt(ActorURL(env, siteNum, actors[i].id), token).value[0]))
  {
    if actors != [] {
      var prefix := actors[..|actors| - 1];
      assert forall i :: 0 <= i < |prefix| ==> prefix[i] == actors[i];
      CastWhenAllAnswer(env, siteNum, token, prefix);
    }
  }

  /** With three actors of which exactly one lookup fails, the cast has the other
      two, in order: a failed lookup drops the actor rather than keeping a name
      without a portrait. */
  lemma OneLookupOfThreeFails(env: Env, siteNum: SiteNum, token: string, actors: seq<ActorLink>, failed: nat)
    requires |actors| == 3 && failed < 3
    requires CastWellFormed(env, siteNum, token, actors)
    requires forall i :: 0 <= i < 3 ==>
      (env.actorsAt(ActorURL(env, siteNum, actors[i].id), token).None? <==> i == failed)
    ensures |CastOf(env, siteNum, token, actors)| == 2
    ensures CastOf(env, siteNum, token, actors)[0].name == actors[if failed == 0 then 1 else 0].name
    ensures CastOf(env, siteNum, token, actors)[1].name == actors[if failed == 2 then 1 else 2].name
  {
    var a2 := actors[..2];
    var a1 := actors[..1];
    assert a2[..1] == a1 && a1[..0] == [];
    var p0 := PersonOf(env, siteNum, token, actors[0]);
    var p1 := PersonOf(env, siteNum, token, actors[1]);
    var p2 := PersonOf(env, siteNum, token, actors[2]);
    CastOfLast(env, siteNum, token, actors);
    CastOfLast(env, siteNum, token, a2);
    CastOfLast(env, siteNum, token, a1);
    assert p0.None? <==> failed == 0;
    assert p1.None? <==> failed == 1;
    assert p2.None? <==> failed == 2;
  }

  /** The cast of a non-empty actor list is the cast of all but the last actor,
      followed by the last actor's person if its lookup answered. */
  lemma CastOfLast(env: Env, siteNum: SiteNum, token: string, actors: seq<ActorLink>)
    requires actors != [] && CastWellFormed(env, siteNum, token, actors)
    ensures CastWellFormed(env, siteNum, token, actors[..|actors| - 1])
    ensures var p := PersonOf(env, siteNum, token, actors[|actors| - 1]);
      CastOf(env, siteNum, token, actors)
      == CastOf(env, siteNum, token, actors[..|actors| - 1]) + (if p.Some? then [p.value] else [])
    ensures var p := PersonOf(env, siteNum, token, actors[|actors| - 1]);
      p.Some? ==> p.value.name == actors[|actors| - 1].name
  {
    var prefix := actors[..|actors| - 1];
    assert forall i :: 0 <= i < |prefix| ==> prefix[i] == actors[i];
  }

  /** An update of an available record fills every field from it, adds its studio
      title-cased, one genre per tag in tag order, and its cast; otherwise it
      returns the empty record. */
  lemma UpdateOfRelease(env: Env, siteNum: SiteNum, sceneID: Option<seq<string>>)
    requires ValidSceneID(sceneID) && UpdateWellFormed(env, siteNum, sceneID)
    ensures Detail(env, siteNum, sceneID).None? ==> UpdateResult(env, siteNum, sceneID) == EmptyResult
    ensures Detail(env, siteNum, sceneID).Some? ==>
      var scene := Detail(env, siteNum, sceneID).value;
      var item := UpdateResult(env, siteNum, sceneID).item;
      item.name == Some(scene.title) && item.overview == Some(scene.description) &&
      item.studios == [env.titleCase(scene.brand)] && item.premiereDate == Some(scene.dateReleased) &&
      |item.genres| == |scene.tags| &&
      (forall i :: 0 <= i < |scene.tags| ==> item.genres[i] == scene.tags[i].name) &&
      UpdateResult(env, siteNum, sceneID).people == CastOf(env, siteNum, Session(env, siteNum).value, scene.actors) &&
      UpdateCalls(env, siteNum, sceneID)
      == [Head(env.searchBaseURL(siteNum)), Get(DetailURL(env, siteNum, sceneID.value), Session(env, siteNum).value)]
       + CastCalls(env, siteNum, Session(env, siteNum).value, scene.actors)
  {
  }
}
