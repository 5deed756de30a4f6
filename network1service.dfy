/**
 The site adapter for the vendor API of "network 1 service" sites: searching
 releases by title or id, resolving one release into the host's metadata record
 with its cast, and listing its images.  Each operation is a method that returns,
 beside its result, the network calls it made, in order; the functions before it
 say what both must be.
 */
module Network1service {
  import opened Wrappers
  import opened Text
  import opened Api

  /** The cookie that carries the session token. */
  const InstanceCookie: string := "instance_token"

  /** The release types a search tries, in order. */
  const Buckets: seq<string> := ["scene", "movie", "serie"]

  /** The image slots scanned, in order. */
  const ImageTypes: seq<string> := ["poster", "cover"]

  // ---------------------------------------------------------------------------
  // Session token

  /** `cookies.Where(o => o.Name == name)`. */
  function WithName(cookies: seq<Cookie>, name: string): (named: seq<Cookie>)
    ensures forall i :: 0 <= i < |named| ==> named[i].name == name
    ensures named == [] <==> forall i :: 0 <= i < |cookies| ==> cookies[i].name != name
  {
    if cookies == [] then []
    else if cookies[0].name == name then [cookies[0]] + WithName(cookies[1..], name)
    else WithName(cookies[1..], name)
  }

  /** The token sent with every data call: the value of the first `instance_token`
      cookie, if there is one. */
  function InstanceToken(cookies: seq<Cookie>): Option<string> {
    var named := WithName(cookies, InstanceCookie);
    if named == [] then None else Some(named[0].value)
  }

  /** The token obtained by priming the site's base URL. */
  function Session(env: Env, siteNum: SiteNum): Option<string> {
    InstanceToken(env.cookiesAt(env.searchBaseURL(siteNum)))
  }

  // ---------------------------------------------------------------------------
  // Search

  /** Search answers with no hits and no calls unless a site and a non-empty title are given. */
  predicate Searchable(siteNum: SiteNum, searchTitle: Option<string>) {
    siteNum.Some? && searchTitle.Some? && searchTitle.value != ""
  }

  /** A title whose first white-space-delimited token is an `Int32` is a lookup by id. */
  predicate IsIdQuery(title: string) {
    ParseInt32(FirstToken(title)).Some?
  }

  /** The path and query of the search request for one bucket. */
  function BucketPath(title: string, bucket: string): string {
    if IsIdQuery(title) then "/v2/releases?type=" + bucket + "&id=" + FirstToken(title)
    else "/v2/releases?type=" + bucket + "&search=" + title
  }

  function BucketURL(env: Env, siteNum: SiteNum, title: string, bucket: string): string {
    env.searchSearchURL(siteNum) + BucketPath(title, bucket)
  }

  /** What the API answers for each bucket, whether or not the search gets to ask. */
  function BucketResponses(env: Env, siteNum: SiteNum, title: string, token: string): seq<Option<seq<Release>>> {
    seq(|Buckets|, k requires 0 <= k < |Buckets| => env.releasesAt(BucketURL(env, siteNum, title, Buckets[k]), token))
  }

  /** The length of the longest prefix of present responses. */
  function PresentPrefix<T>(rs: seq<Option<T>>): (p: nat)
    ensures p <= |rs|
    ensures forall k :: 0 <= k < p ==> rs[k].Some?
    ensures p < |rs| ==> rs[p].None?
  {
    if rs == [] || rs[0].None? then 0 else 1 + PresentPrefix(rs[1..])
  }

  /** The provider id of a hit: `{siteNum[0]}#{siteNum[1]}#{id}#{bucket}`. */
  function CompositeId(siteA: int, siteB: int, sceneID: string, bucket: string): string {
    IntToString(siteA) + "#" + IntToString(siteB) + "#" + sceneID + "#" + bucket
  }

  /** The entries of one image slot; a null slot has none. */
  function SlotImages(images: map<string, seq<ImageEntry>>, slot: string): seq<ImageEntry> {
    if slot in images then images[slot] else []
  }

  /** The entries of the given slots, slot after slot. */
  function ImagesIn(images: map<string, seq<ImageEntry>>, slots: seq<string>): seq<ImageEntry> {
    if slots == [] then []
    else ImagesIn(images, slots[..|slots| - 1]) + SlotImages(images, slots[|slots| - 1])
  }

  /** The `xx.url` of the last entry, or `default` when there is none. */
  function LastUrl(entries: seq<ImageEntry>, default: string): string {
    if entries == [] then default else entries[|entries| - 1].xxUrl
  }

  /** The poster of a search hit: the last image scanned in `poster` and then `cover`. */
  function PosterOf(images: map<string, seq<ImageEntry>>): (poster: string)
    ensures SlotImages(images, "cover") != [] ==>
      poster == SlotImages(images, "cover")[|SlotImages(images, "cover")| - 1].xxUrl
    ensures SlotImages(images, "cover") == [] && SlotImages(images, "poster") != [] ==>
      poster == SlotImages(images, "poster")[|SlotImages(images, "poster")| - 1].xxUrl
    ensures SlotImages(images, "cover") == [] && SlotImages(images, "poster") == [] ==> poster == ""
  {
    ScannedSlots(images);
    LastUrl(ImagesIn(images, ImageTypes), "")
  }

  lemma ScannedSlots(images: map<string, seq<ImageEntry>>)
    ensures ImagesIn(images, ImageTypes) == SlotImages(images, "poster") + SlotImages(images, "cover")
  {
    var first: seq<string> := ["poster"];
    assert ImageTypes[..1] == first && first[..0] == [];
    assert ImagesIn(images, first) == SlotImages(images, "poster");
  }

  function HitOf(site: seq<int>, bucket: string, item: Release): Hit
    requires |site| >= 2
  {
    Hit(CompositeId(site[0], site[1], item.id, bucket), item.title, PosterOf(item.images), item.dateReleased)
  }

  /** One hit per item of a response, in response order. */
  function ItemHits(site: seq<int>, bucket: string, items: seq<Release>): seq<Hit>
    requires |site| >= 2
  {
    seq(|items|, j requires 0 <= j < |items| => HitOf(site, bucket, items[j]))
  }

  lemma ItemHitsNext(site: seq<int>, bucket: string, items: seq<Release>, j: nat)
    requires |site| >= 2 && j < |items|
    ensures ItemHits(site, bucket, items[..j + 1]) == ItemHits(site, bucket, items[..j]) + [HitOf(site, bucket, items[j])]
  {
    var a, b := ItemHits(site, bucket, items[..j + 1]), ItemHits(site, bucket, items[..j]) + [HitOf(site, bucket, items[j])];
    assert |a| == |b|;
    forall i | 0 <= i < |a|
      ensures a[i] == b[i]
    {
      if i < j {
        assert items[..j + 1][i] == items[..j][i];
      }
    }
  }

  /** The hits of a bucket's response; an absent response has none. */
  function ResponseHits(site: seq<int>, bucket: string, r: Option<seq<Release>>): seq<Hit>
    requires |site| >= 2
  {
    match r
    case None => []
    case Some(items) => ItemHits(site, bucket, items)
  }

  /** The first `n` blocks, one after the other. */
  function Concat<T>(blocks: seq<seq<T>>, n: nat): seq<T>
    requires n <= |blocks|
  {
    if n == 0 then [] else Concat(blocks, n - 1) + blocks[n - 1]
  }

  /** The hits of each bucket's response, in bucket order. */
  function BucketHits(site: seq<int>, rs: seq<Option<seq<Release>>>): seq<seq<Hit>>
    requires |site| >= 2 && |rs| <= |Buckets|
  {
    seq(|rs|, k requires 0 <= k < |rs| <= |Buckets| => ResponseHits(site, Buckets[k], rs[k]))
  }

  /** The hits a search returns. */
  function SearchHits(env: Env, siteNum: SiteNum, searchTitle: Option<string>): seq<Hit>
    requires siteNum.Some? ==> |siteNum.value| >= 2
  {
    if !Searchable(siteNum, searchTitle) then []
    else
      match Session(env, siteNum)
      case None => []
      case Some(token) =>
        var rs := BucketResponses(env, siteNum, searchTitle.value, token);
        Concat(BucketHits(siteNum.value, rs), PresentPrefix(rs))
  }

  /** The data calls for the first `n` buckets. */
  function BucketCalls(env: Env, siteNum: SiteNum, title: string, token: string, n: nat): seq<Call>
    requires n <= |Buckets|
  {
    seq(n, k requires 0 <= k < n <= |Buckets| => Get(BucketURL(env, siteNum, title, Buckets[k]), token))
  }

  lemma BucketCallsNext(env: Env, siteNum: SiteNum, title: string, token: string, n: nat)
    requires n < |Buckets|
    ensures BucketCalls(env, siteNum, title, token, n + 1)
         == BucketCalls(env, siteNum, title, token, n) + [Get(BucketURL(env, siteNum, title, Buckets[n]), token)]
  {
  }

  /** The calls a search makes: none when it is refused, otherwise the priming call
      and, given a token, one data call per bucket up to and including the first
      whose response is absent. */
  function SearchCalls(env: Env, siteNum: SiteNum, searchTitle: Option<string>): (calls: seq<Call>)
    ensures calls == [] <==> !Searchable(siteNum, searchTitle)
    ensures calls != [] ==> calls[0] == Head(env.searchBaseURL(siteNum))
  {
    if !Searchable(siteNum, searchTitle) then []
    else
      [Head(env.searchBaseURL(siteNum))] +
      match Session(env, siteNum)
      case None => []
      case Some(token) =>
        var rs := BucketResponses(env, siteNum, searchTitle.value, token);
        var p := PresentPrefix(rs);
        BucketCalls(env, siteNum, searchTitle.value, token, DataCalls(p))
  }

  /** The image slots of one item, scanned as when building a hit. */
  method PickPoster(images: map<string, seq<ImageEntry>>) returns (scenePoster: string)
    ensures scenePoster == PosterOf(images)
  {
    scenePoster := "";
    var imageTypes := ImageTypes;
    var k := 0;
    while k < |imageTypes|
      invariant 0 <= k <= |imageTypes|
      invariant scenePoster == LastUrl(ImagesIn(images, imageTypes[..k]), "")
    {
      var imageType := imageTypes[k];
      ghost var before := ImagesIn(images, imageTypes[..k]);
      assert imageTypes[..k + 1][..k] == imageTypes[..k];
      if imageType in images {
        var slot := images[imageType];
        var m := 0;
        assert before + slot[..0] == before;
        while m < |slot|
          invariant 0 <= m <= |slot|
          invariant scenePoster == LastUrl(before + slot[..m], "")
        {
          scenePoster := slot[m].xxUrl;
          assert (before + slot[..m + 1])[|before + slot[..m + 1]| - 1] == slot[m];
          m := m + 1;
        }
        assert slot[..m] == slot;
      }
      k := k + 1;
    }
    assert imageTypes[..k] == ImageTypes;
  }

  /** The body of the loop over the `result` list of one bucket's response: one hit
      per item appended to `result`. */
  method AddItemHits(result: seq<Hit>, site: seq<int>, sceneType: string, items: seq<Release>)
    returns (extended: seq<Hit>)
    requires |site| >= 2
    ensures extended == result + ItemHits(site, sceneType, items)
  {
    extended := result;
    var j := 0;
    while j < |items|
      invariant 0 <= j <= |items|
      invariant extended == result + ItemHits(site, sceneType, items[..j])
    {
      var hit := MakeHit(site, sceneType, items[j]);
      extended := extended + [hit];
      ItemHitsNext(site, sceneType, items, j);
      j := j + 1;
    }
    assert items[..j] == items;
  }

  /** The hit built from one item of a response. */
  method MakeHit(site: seq<int>, sceneType: string, searchResult: Release) returns (hit: Hit)
    requires |site| >= 2
    ensures hit == HitOf(site, sceneType, searchResult)
  {
    var sceneID := searchResult.id;
    var curID := CompositeId(site[0], site[1], sceneID, sceneType);
    var sceneName := searchResult.title;
    var scenePoster := PickPoster(searchResult.images);
    var sceneDateObj := searchResult.dateReleased;
    hit := Hit(curID, sceneName, scenePoster, sceneDateObj);
  }

  /** The id a title looks up, if it is an id query. */
  function QueryId(title: string): (id: Option<string>)
    ensures id.Some? <==> IsIdQuery(title)
    ensures id.Some? ==> id.value == FirstToken(title)
  {
    if IsIdQuery(title) then Some(FirstToken(title)) else None
  }

  /** The number of data calls of a search whose first absent response is at `p`
      (or that has none, when `p` is the number of buckets). */
  function DataCalls(p: nat): nat
    requires p <= |Buckets|
  {
    if p < |Buckets| then p + 1 else p
  }

  /** `Search(siteNum, searchTitle, searchDate)`; the date is not used. */
  method Search(env: Env, siteNum: SiteNum, searchTitle: Option<string>, searchDate: Option<string>)
    returns (result: seq<Hit>, calls: seq<Call>)
    requires siteNum.Some? ==> |siteNum.value| >= 2
    ensures result == SearchHits(env, siteNum, searchTitle)
    ensures calls == SearchCalls(env, siteNum, searchTitle)
  {
    result, calls := [], [];
    if siteNum.None? || searchTitle.None? || searchTitle.value == "" {
      return;
    }
    var title := searchTitle.value;

    var searchSceneID: Option<string> := Some(Split(title, WhiteSpace)[0]);
    if ParseInt32(searchSceneID.value).None? {
      searchSceneID := None;
    }
    assert searchSceneID == QueryId(title);

    var baseURL := env.searchBaseURL(siteNum);
    var cookies := env.cookiesAt(baseURL);
    calls := calls + [Head(baseURL)];
    assert calls == [Head(baseURL)];
    var instanceToken := WithName(cookies, InstanceCookie);
    if |instanceToken| == 0 {
      return;
    }
    var token := instanceToken[0].value;
    assert Session(env, siteNum) == Some(token);

    var bucketCalls;
    result, bucketCalls := QueryBuckets(env, siteNum, title, searchSceneID, token);
    calls := calls + bucketCalls;
    ghost var p := PresentPrefix(BucketResponses(env, siteNum, title, token));
    assert SearchCalls(env, siteNum, searchTitle)
        == [Head(baseURL)] + BucketCalls(env, siteNum, title, token, DataCalls(p));
  }

  /** The path and query of one bucket's request, from the id found in the title. */
  method RequestPath(title: string, searchSceneID: Option<string>, sceneType: string) returns (url: string)
    requires searchSceneID == QueryId(title)
    ensures url == BucketPath(title, sceneType)
  {
    if searchSceneID.None? || searchSceneID.value == "" {
      url := "/v2/releases?type=" + sceneType + "&search=" + title;
    } else {
      url := "/v2/releases?type=" + sceneType + "&id=" + searchSceneID.value;
    }
  }

  /** The loop of a search over its buckets, once the token is known: one data call
      per bucket, stopping after the first absent response. */
  method QueryBuckets(env: Env, siteNum: SiteNum, title: string, searchSceneID: Option<string>, token: string)
    returns (result: seq<Hit>, calls: seq<Call>)
    requires siteNum.Some? && |siteNum.value| >= 2
    requires searchSceneID == QueryId(title)
    ensures var rs := BucketResponses(env, siteNum, title, token);
      result == Concat(BucketHits(siteNum.value, rs), PresentPrefix(rs)) &&
      calls == BucketCalls(env, siteNum, title, token, DataCalls(PresentPrefix(rs)))
  {
    result, calls := [], [];
    var site := siteNum.value;
    var sceneTypes := Buckets;
    ghost var rs := BucketResponses(env, siteNum, title, token);

    var i := 0;
    while i < |sceneTypes|
      invariant 0 <= i <= |sceneTypes|
      invariant i <= PresentPrefix(rs)
      invariant result == Concat(BucketHits(site, rs), i)
      invariant calls == BucketCalls(env, siteNum, title, token, i)
    {
      var sceneType := sceneTypes[i];
      var url := RequestPath(title, searchSceneID, sceneType);
      var searchResults := env.releasesAt(env.searchSearchURL(siteNum) + url, token);
      calls := calls + [Get(env.searchSearchURL(siteNum) + url, token)];
      BucketCallsNext(env, siteNum, title, token, i);
      BucketResponseAt(env, siteNum, title, token, i);
      if searchResults.None? {
        return;
      }

      BucketHitsNext(site, rs, i);
      result := AddItemHits(result, site, sceneType, searchResults.value);
      i := i + 1;
    }
  }

  lemma BucketResponseAt(env: Env, siteNum: SiteNum, title: string, token: string, i: nat)
    requires i < |Buckets|
    ensures BucketResponses(env, siteNum, title, token)[i] == env.releasesAt(BucketURL(env, siteNum, title, Buckets[i]), token)
  {
  }

  lemma BucketHitsNext(site: seq<int>, rs: seq<Option<seq<Release>>>, i: nat)
    requires |site| >= 2 && i < |rs| <= |Buckets| && rs[i].Some?
    ensures Concat(BucketHits(site, rs), i + 1) == Concat(BucketHits(site, rs), i) + ItemHits(site, Buckets[i], rs[i].value)
  {
  }

  // ---------------------------------------------------------------------------
  // Detail record

  /** `sceneID` is null or has at least an id and a bucket. */
  predicate ValidSceneID(sceneID: Option<seq<string>>) {
    sceneID.Some? ==> |sceneID.value| >= 2
  }

  /** The detail request: bucket `sceneID[1]`, id `sceneID[0]`. */
  function DetailURL(env: Env, siteNum: SiteNum, sceneID: seq<string>): string
    requires |sceneID| >= 2
  {
    env.searchSearchURL(siteNum) + "/v2/releases?type=" + sceneID[1] + "&id=" + sceneID[0]
  }

  /** Taking the first element of a present detail response does not fail. */
  predicate DetailWellFormed(env: Env, siteNum: SiteNum, sceneID: Option<seq<string>>)
    requires ValidSceneID(sceneID)
  {
    sceneID.Some? && Session(env, siteNum).Some? ==>
      var r := env.releasesAt(DetailURL(env, siteNum, sceneID.value), Session(env, siteNum).value);
      r.Some? ==> r.value != []
  }

  /** The detail record, when there is a scene id, a token and a response. */
  function Detail(env: Env, siteNum: SiteNum, sceneID: Option<seq<string>>): (scene: Option<Release>)
    requires ValidSceneID(sceneID) && DetailWellFormed(env, siteNum, sceneID)
    ensures scene.Some? <==>
      sceneID.Some? && Session(env, siteNum).Some? &&
      env.releasesAt(DetailURL(env, siteNum, sceneID.value), Session(env, siteNum).value).Some?
    ensures scene.Some? ==>
      scene.value == env.releasesAt(DetailURL(env, siteNum, sceneID.value), Session(env, siteNum).value).value[0]
  {
    if sceneID.None? then None
    else
      match Session(env, siteNum)
      case None => None
      case Some(token) =>
        match env.releasesAt(DetailURL(env, siteNum, sceneID.value), token)
        case None => None
        case Some(rs) => Some(rs[0])
  }

  /** The calls made before the detail record is in hand. */
  function DetailCalls(env: Env, siteNum: SiteNum, sceneID: Option<seq<string>>): seq<Call>
    requires ValidSceneID(sceneID)
  {
    if sceneID.None? then []
    else
      [Head(env.searchBaseURL(siteNum))] +
      match Session(env, siteNum)
      case None => []
      case Some(token) => [Get(DetailURL(env, siteNum, sceneID.value), token)]
  }

  // ---------------------------------------------------------------------------
  // Images

  /** Every image twice: as `Primary`, then as `Backdrop`. */
  function Doubled(images: seq<ImageEntry>): (r: seq<RemoteImage>)
    ensures |r| == 2 * |images|
  {
    if images == [] then []
    else
      var last := images[|images| - 1];
      Doubled(images[..|images| - 1]) + [RemoteImage(last.xxUrl, Primary), RemoteImage(last.xxUrl, Backdrop)]
  }

  lemma DoubledAppend(images: seq<ImageEntry>, last: ImageEntry)
    ensures Doubled(images + [last])
         == Doubled(images) + [RemoteImage(last.xxUrl, Primary), RemoteImage(last.xxUrl, Backdrop)]
  {
    assert (images + [last])[..|images|] == images;
  }

  /** The images offered for a release. */
  function ImagesResult(env: Env, siteNum: SiteNum, sceneID: Option<seq<string>>): seq<RemoteImage>
    requires ValidSceneID(sceneID) && DetailWellFormed(env, siteNum, sceneID)
  {
    match Detail(env, siteNum, sceneID)
    case None => []
    case Some(scene) => Doubled(ImagesIn(scene.images, ImageTypes))
  }

  /** The loop over the image slots of a detail record. */
  method CollectImages(images: map<string, seq<ImageEntry>>) returns (result: seq<RemoteImage>)
    ensures result == Doubled(ImagesIn(images, ImageTypes))
  {
    result := [];
    var imageTypes := ImageTypes;
    var k := 0;
    while k < |imageTypes|
      invariant 0 <= k <= |imageTypes|
      invariant result == Doubled(ImagesIn(images, imageTypes[..k]))
    {
      var imageType := imageTypes[k];
      ghost var before := ImagesIn(images, imageTypes[..k]);
      assert imageTypes[..k + 1][..k] == imageTypes[..k];
      assert ImagesIn(images, imageTypes[..k + 1]) == before + SlotImages(images, imageType);
      if imageType in images {
        result := AddSlotImages(result, before, images[imageType]);
      } else {
        assert before + SlotImages(images, imageType) == before;
      }
      k := k + 1;
    }
    assert imageTypes[..k] == ImageTypes;
  }

  /** The loop over the entries of one slot: each entry's `xx.url` is added as a
      `Primary` image and then as a `Backdrop`. */
  method AddSlotImages(result: seq<RemoteImage>, ghost before: seq<ImageEntry>, slot: seq<ImageEntry>)
    returns (extended: seq<RemoteImage>)
    requires result == Doubled(before)
    ensures extended == Doubled(before + slot)
  {
    extended := result;
    ghost var done := before;
    var m := 0;
    while m < |slot|
      invariant 0 <= m <= |slot|
      invariant done == before + slot[..m]
      invariant extended == Doubled(done)
    {
      extended := extended + [RemoteImage(slot[m].xxUrl, Primary)];
      extended := extended + [RemoteImage(slot[m].xxUrl, Backdrop)];
      DoubledAppend(done, slot[m]);
      done := done + [slot[m]];
      assert slot[..m + 1] == slot[..m] + [slot[m]];
      m := m + 1;
    }
    assert slot[..m] == slot;
  }

  /** `GetImages(siteNum, sceneID, item)`; the item is not used. */
  method GetImages(env: Env, siteNum: SiteNum, sceneID: Option<seq<string>>)
    returns (result: seq<RemoteImage>, calls: seq<Call>)
    requires ValidSceneID(sceneID) && DetailWellFormed(env, siteNum, sceneID)
    ensures result == ImagesResult(env, siteNum, sceneID)
    ensures calls == DetailCalls(env, siteNum, sceneID)
  {
    result, calls := [], [];
    if sceneID.None? {
      return;
    }

    var baseURL := env.searchBaseURL(siteNum);
    var cookies := env.cookiesAt(baseURL);
    calls := calls + [Head(baseURL)];
    var instanceToken := WithName(cookies, InstanceCookie);
    if |instanceToken| == 0 {
      return;
    }
    var token := instanceToken[0].value;

    var url := env.searchSearchURL(siteNum) + "/v2/releases?type=" + sceneID.value[1] + "&id=" + sceneID.value[0];
    var sceneData := env.releasesAt(url, token);
    calls := calls + [Get(url, token)];
    if sceneData.None? {
      return;
    }
    var scene := sceneData.value[0];
    assert Session(env, siteNum) == Some(token);
    assert url == DetailURL(env, siteNum, sceneID.value);
    assert Detail(env, siteNum, sceneID) == Some(scene);

    result := CollectImages(scene.images);
  }

  // ---------------------------------------------------------------------------
  // Metadata update

  function ActorURL(env: Env, siteNum: SiteNum, actorID: string): string {
    env.searchSearchURL(siteNum) + "/v1/actors?id=" + actorID
  }

  /** `images["profile"].First` exists whenever `images` is an object. */
  predicate PortraitWellFormed(images: ActorImages) {
    images.ObjectImages? ==> "profile" in images.slots && images.slots["profile"] != []
  }

  /** Taking the first element of a present actor response, and its portrait, does not fail. */
  predicate ActorResponseWellFormed(r: Option<seq<Actor>>) {
    r.Some? ==> r.value != [] && PortraitWellFormed(r.value[0].images)
  }

  /** The portrait of an actor: the `xs.url` of the first profile image, set only
      when the actor's `images` is a JSON object. */
  function Portrait(actor: Actor): (url: Option<string>)
    requires PortraitWellFormed(actor.images)
    ensures url.Some? <==> actor.images.ObjectImages?
    ensures url.Some? ==> url.value == actor.images.slots["profile"][0].xsUrl
  {
    match actor.images
    case ObjectImages(slots) => Some(slots["profile"][0].xsUrl)
    case _ => None
  }

  predicate CastWellFormed(env: Env, siteNum: SiteNum, token: string, actors: seq<ActorLink>) {
    forall i :: 0 <= i < |actors| ==> ActorResponseWellFormed(env.actorsAt(ActorURL(env, siteNum, actors[i].id), token))
  }

  /** The person an actor link contributes, if its lookup answered. */
  function PersonOf(env: Env, siteNum: SiteNum, token: string, link: ActorLink): Option<Person>
    requires ActorResponseWellFormed(env.actorsAt(ActorURL(env, siteNum, link.id), token))
  {
    match env.actorsAt(ActorURL(env, siteNum, link.id), token)
    case None => None
    case Some(rs) => Some(Person(link.name, Portrait(rs[0])))
  }

  /** The cast: one person per actor whose lookup answered, in actor order. */
  function CastOf(env: Env, siteNum: SiteNum, token: string, actors: seq<ActorLink>): seq<Person>
    requires CastWellFormed(env, siteNum, token, actors)
  {
    if actors == [] then []
    else
      var prefix := actors[..|actors| - 1];
      assert forall i :: 0 <= i < |prefix| ==> prefix[i] == actors[i];
      CastOf(env, siteNum, token, prefix) +
      match PersonOf(env, siteNum, token, actors[|actors| - 1])
      case None => []
      case Some(p) => [p]
  }

  /** One actor lookup per actor link, in order. */
  function CastCalls(env: Env, siteNum: SiteNum, token: string, actors: seq<ActorLink>): seq<Call> {
    seq(|actors|, i requires 0 <= i < |actors| => Get(ActorURL(env, siteNum, actors[i].id), token))
  }

  /** One genre per tag, in tag order, duplicates kept. */
  function GenresOf(tags: seq<Tag>): (genres: seq<string>)
    ensures |genres| == |tags|
    ensures forall i :: 0 <= i < |tags| ==> genres[i] == tags[i].name
  {
    if tags == [] then [] else GenresOf(tags[..|tags| - 1]) + [tags[|tags| - 1].name]
  }

  /** No step of an update fails: the detail record and every answered actor lookup can be read. */
  predicate UpdateWellFormed(env: Env, siteNum: SiteNum, sceneID: Option<seq<string>>)
    requires ValidSceneID(sceneID)
  {
    DetailWellFormed(env, siteNum, sceneID) &&
    (Detail(env, siteNum, sceneID).Some? ==>
      CastWellFormed(env, siteNum, Session(env, siteNum).value, Detail(env, siteNum, sceneID).value.actors))
  }

  /** The metadata an update returns. */
  function UpdateResult(env: Env, siteNum: SiteNum, sceneID: Option<seq<string>>): MetadataResult
    requires ValidSceneID(sceneID) && UpdateWellFormed(env, siteNum, sceneID)
  {
    match Detail(env, siteNum, sceneID)
    case None => EmptyResult
    case Some(scene) =>
      MetadataResult(
        Movie(Some(scene.title), Some(scene.description), [env.titleCase(scene.brand)],
              Some(scene.dateReleased), GenresOf(scene.tags)),
        CastOf(env, siteNum, Session(env, siteNum).value, scene.actors))
  }

  /** The calls an update makes. */
  function UpdateCalls(env: Env, siteNum: SiteNum, sceneID: Option<seq<string>>): seq<Call>
    requires ValidSceneID(sceneID) && DetailWellFormed(env, siteNum, sceneID)
  {
    DetailCalls(env, siteNum, sceneID) +
    match Detail(env, siteNum, sceneID)
    case None => []
    case Some(scene) => CastCalls(env, siteNum, Session(env, siteNum).value, scene.actors)
  }

  /** `Update(siteNum, sceneID)`. */
  method Update(env: Env, siteNum: SiteNum, sceneID: Option<seq<string>>)
    returns (result: MetadataResult, calls: seq<Call>)
    requires ValidSceneID(sceneID) && UpdateWellFormed(env, siteNum, sceneID)
    ensures result == UpdateResult(env, siteNum, sceneID)
    ensures calls == UpdateCalls(env, siteNum, sceneID)
  {
    result := EmptyResult;
    calls := [];
    if sceneID.None? {
      return;
    }

    var baseURL := env.searchBaseURL(siteNum);
    var cookies := env.cookiesAt(baseURL);
    calls := calls + [Head(baseURL)];
    var instanceToken := WithName(cookies, InstanceCookie);
    if |instanceToken| == 0 {
      return;
    }
    var token := instanceToken[0].value;

    var url := env.searchSearchURL(siteNum) + "/v2/releases?type=" + sceneID.value[1] + "&id=" + sceneID.value[0];
    var sceneData := env.releasesAt(url, token);
    calls := calls + [Get(url, token)];
    if sceneData.None? {
      return;
    }
    var scene := sceneData.value[0];
    assert Session(env, siteNum) == Some(token);
    assert url == DetailURL(env, siteNum, sceneID.value);
    assert Detail(env, siteNum, sceneID) == Some(scene);
    assert calls == DetailCalls(env, siteNum, sceneID);

    result := result.(item := result.item.(name := Some(scene.title)));
    result := result.(item := result.item.(overview := Some(scene.description)));
    result := result.(item := result.item.(studios := result.item.studios + [env.titleCase(scene.brand)]));
    result := result.(item := result.item.(premiereDate := Some(scene.dateReleased)));

    var item := AddGenres(result.item, scene.tags);
    result := result.(item := item);
    var people, castCalls := AddCast(env, siteNum, token, scene.actors, result.people);
    result := result.(people := people);
    calls := calls + castCalls;
  }

  /** The loop over the `tags` of the detail record: one `AddGenre` per tag. */
  method AddGenres(item: Movie, tags: seq<Tag>) returns (updated: Movie)
    ensures updated == item.(genres := item.genres + GenresOf(tags))
  {
    updated := item;
    var g := 0;
    while g < |tags|
      invariant 0 <= g <= |tags|
      invariant updated == item.(genres := item.genres + GenresOf(tags[..g]))
    {
      var genreName := tags[g].name;
      updated := updated.(genres := updated.genres + [genreName]);
      assert tags[..g + 1][..g] == tags[..g];
      g := g + 1;
    }
    assert tags[..g] == tags;
  }

  /** The loop over the `actors` of the detail record: one lookup per actor, and one
      person added to `people` per lookup that answered. */
  method AddCast(env: Env, siteNum: SiteNum, token: string, actors: seq<ActorLink>, people: seq<Person>)
    returns (cast: seq<Person>, calls: seq<Call>)
    requires CastWellFormed(env, siteNum, token, actors)
    ensures cast == people + CastOf(env, siteNum, token, actors)
    ensures calls == CastCalls(env, siteNum, token, actors)
  {
    cast, calls := people, [];
    var a := 0;
    while a < |actors|
      invariant 0 <= a <= |actors|
      invariant cast == people + CastOf(env, siteNum, token, actors[..a])
      invariant calls == CastCalls(env, siteNum, token, actors[..a])
    {
      var actorLink := actors[a];
      var actorPageURL := env.searchSearchURL(siteNum) + "/v1/actors?id=" + actorLink.id;
      var actorData := env.actorsAt(actorPageURL, token);
      calls := calls + [Get(actorPageURL, token)];
      assert actors[..a + 1][..a] == actors[..a];
      if actorData.Some? {
        var actorRecord := actorData.value[0];
        var actor := Person(actorLink.name, None);
        if actorRecord.images.ObjectImages? {
          actor := actor.(imageUrl := Some(actorRecord.images.slots["profile"][0].xsUrl));
        }
        cast := cast + [actor];
      }
      a := a + 1;
    }
    assert actors[..a] == actors;
  }
}
