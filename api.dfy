/**
 The data the adapter exchanges with the vendor's catalog API and with the
 media host.  JSON bodies are given as typed records holding exactly the fields
 the adapter reads; a JSON object keyed by image slot is a `map`, and a field the
 adapter tests against null is an `Option` or a case of its own.
 */
module Api {
  import opened Wrappers

  /** The caller's `int[] siteNum`, which may be null. */
  type SiteNum = Option<seq<int>>

  /** A cookie of the priming response. */
  datatype Cookie = Cookie(name: string, value: string)

  /** One entry of a release's `images.poster` or `images.cover` list: its `xx.url`. */
  datatype ImageEntry = ImageEntry(xxUrl: string)

  /** One entry of an actor's `images.profile` list: its `xs.url`. */
  datatype ProfileImage = ProfileImage(xsUrl: string)

  /** An element of a release's `tags` list. */
  datatype Tag = Tag(name: string)

  /** An element of a release's `actors` list. */
  datatype ActorLink = ActorLink(id: string, name: string)

  /** An element of the `result` list of a `/v2/releases` response. Search hits read
      id, title, dateReleased and images; the detail view also reads description,
      brand, tags and actors. `images` maps a slot name to its entries, and a slot
      missing from the map is a slot whose JSON value is null. */
  datatype Release = Release(
    id: string,
    title: string,
    description: string,
    brand: string,
    dateReleased: string,
    images: map<string, seq<ImageEntry>>,
    tags: seq<Tag>,
    actors: seq<ActorLink>)

  /** The `images` field of an actor: absent, present but not a JSON object (an
      array, say), or an object keyed by slot name. */
  datatype ActorImages =
    | NoImages
    | NonObjectImages
    | ObjectImages(slots: map<string, seq<ProfileImage>>)

  /** An element of the `result` list of a `/v1/actors` response. */
  datatype Actor = Actor(images: ActorImages)

  /** A network call the adapter makes: the priming `HEAD` whose cookies carry the
      session token, or a data `GET` sent with that token in its `Instance` header. */
  datatype Call = Head(url: string) | Get(url: string, instance: string)

  /**
   Everything outside the adapter, as functions.  `searchBaseURL` and
   `searchSearchURL` are the host's per-site URL lookups; `titleCase` is the
   culture's title casing; `cookiesAt(url)` is the cookie list of a `HEAD` to
   `url`; `releasesAt` and `actorsAt` give the `result` list of a successful `GET`
   of a URL with a token, and `None` when the call did not succeed.
   */
  datatype Env = Env(
    searchBaseURL: SiteNum -> string,
    searchSearchURL: SiteNum -> string,
    titleCase: string -> string,
    cookiesAt: string -> seq<Cookie>,
    releasesAt: (string, string) -> Option<seq<Release>>,
    actorsAt: (string, string) -> Option<seq<Actor>>)

  /** A search result for the host: provider id, name, image URL and premiere date. */
  datatype Hit = Hit(providerId: string, name: string, imageUrl: string, premiereDate: string)

  datatype ImageKind = Primary | Backdrop

  /** An image offered to the host. */
  datatype RemoteImage = RemoteImage(url: string, kind: ImageKind)

  /** A cast member; `imageUrl` stays unset unless a portrait was found. */
  datatype Person = Person(name: string, imageUrl: Option<string>)

  /** The metadata item the host stores; `studios` and `genres` list what was added, in order. */
  datatype Movie = Movie(
    name: Option<string>,
    overview: Option<string>,
    studios: seq<string>,
    premiereDate: Option<string>,
    genres: seq<string>)

  datatype MetadataResult = MetadataResult(item: Movie, people: seq<Person>)

  /** A freshly constructed `MetadataResult` with an empty `Movie` and no people. */
  const EmptyResult := MetadataResult(Movie(None, None, [], None, []), [])
}
