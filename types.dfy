/** The application's data model (web/src/types.ts) as Dafny datatypes.

    Timestamps, which the application keeps as ISO-8601 strings or
    JavaScript `Date` values, are represented by the instant they denote, an
    `int` of milliseconds. Optional TypeScript fields (`x?: T`) become
    `Option<T>`; optional lists that the code reads with `|| []` become plain
    sequences, an absent list being the empty one. */
module Types {

  datatype Option<+T> = None | Some(value: T)

  /** The four platforms a tracking link is made for, in the order the
      campaign fan-out uses (`LinkData.platform`). */
  datatype Platform = Instagram | Youtube | Tiktok | Site

  const Platforms: seq<Platform> := [Instagram, Youtube, Tiktok, Site]

  /** The string the store keeps for a platform. */
  function PlatformName(p: Platform): (s: string)
  {
    match p
    case Instagram => "instagram"
    case Youtube => "youtube"
    case Tiktok => "tiktok"
    case Site => "site"
  }

  /** Reads a stored platform string back; anything but the four names is rejected. */
  function ParsePlatform(s: string): (r: Option<Platform>)
    ensures r.Some? ==> PlatformName(r.value) == s
  {
    if s == "instagram" then Some(Instagram)
    else if s == "youtube" then Some(Youtube)
    else if s == "tiktok" then Some(Tiktok)
    else if s == "site" then Some(Site)
    else None
  }

  /** Every platform name reads back as its platform, so names are distinct. */
  lemma ParsePlatformName(p: Platform)
    ensures ParsePlatform(PlatformName(p)) == Some(p)
  {
    match p
    case Instagram =>
    case Youtube =>
    case Tiktok =>
    case Site =>
  }

  /** `Platforms` lists each platform exactly once. */
  lemma PlatformsComplete(p: Platform)
    ensures exists i :: 0 <= i < |Platforms| && Platforms[i] == p
    ensures forall i, j :: 0 <= i < j < |Platforms| ==> Platforms[i] != Platforms[j]
  {
    match p
    case Instagram => assert Platforms[0] == p;
    case Youtube => assert Platforms[1] == p;
    case Tiktok => assert Platforms[2] == p;
    case Site => assert Platforms[3] == p;
  }

  /** `User.plan`. */
  datatype Plan = Free | Pro | Black

  /** `User.subscriptionType`. */
  datatype SubscriptionType = Monthly | Yearly

  /** `PurchaseRecord`: one entry of a user's purchase history. */
  datatype PurchaseRecord = PurchaseRecord(productId: string, purchaseDate: int, amount: int, currency: string)

  /** `User`. `bio` and `services` are read and written by the profile screen
      although the interface does not declare them. */
  datatype User = User(
    id: string,
    name: string,
    nickname: Option<string>,
    email: Option<string>,
    avatar: Option<string>,
    isGuest: bool,
    plan: Plan,
    credits: int,
    purchasedCourseIds: seq<string>,
    subscriptionDate: Option<int>,
    subscriptionEndDate: Option<int>,
    subscriptionType: Option<SubscriptionType>,
    purchaseHistory: seq<PurchaseRecord>,
    bio: string,
    services: seq<string>)

  /** A subscription is active when the plan is `pro` and an end date lies after `now`. */
  predicate SubscriptionActive(u: User, now: int)
  {
    u.plan == Pro && u.subscriptionEndDate.Some? && u.subscriptionEndDate.value > now
  }

  /** The signed-out user (`GUEST_USER` in App.tsx). */
  const GuestUser: User := User("guest", "Гость", None, None, None, true, Free, 0, [], None, None, None, [], "", [])

  /** A user's own copy of a tracking link (`users/{userId}/links/{linkId}`).
      `LinkData` in types.ts is this record plus the document id; it does not
      declare `shortCode` or `userId`, yet both are written and `shortCode` is
      read back, so the model keeps them. */
  datatype LinkData = LinkData(
    platform: Platform,
    originalUrl: string,
    trackingUrl: string,
    shortCode: string,
    clicks: int,
    date: int,
    userId: string)

  /** A record of the global `tracking_links` collection, keyed by short code.
      The fields the redirect reads may be missing in a damaged record. */
  datatype TrackingLink = TrackingLink(
    originalUrl: Option<string>,
    userId: Option<string>,
    linkId: Option<string>,
    platform: Platform,
    clicks: int,
    createdAt: int,
    lastClickAt: Option<int>)

  /** `CourseHomework.type`. */
  datatype HomeworkType = TextHomework | FileHomework | LinkHomework

  datatype CourseHomework = CourseHomework(id: string, title: string, description: string, kind: HomeworkType)

  datatype CourseLesson = CourseLesson(
    id: string,
    title: string,
    description: Option<string>,
    videoUrl: string,
    storagePath: Option<string>,
    duration: Option<string>,
    order: int,
    isFreePreview: bool)

  /** A day of a category: its lessons and an optional homework. */
  datatype CourseDay = CourseDay(id: string, title: string, order: int, lessons: seq<CourseLesson>, homework: Option<CourseHomework>)

  /** A category (folder) of a course: its days. */
  datatype CourseCategory = CourseCategory(id: string, title: string, order: int, days: seq<CourseDay>)

  /** One user's rating of a course (the field names are the source's own). */
  datatype CourseRating = CourseRating(oderId: string, odername: string, oderavatar: Option<string>, rating: int, comment: string, createdAt: int)

  /** The documented range of `CourseRating.rating`; the code does not enforce it. */
  predicate ValidRating(r: CourseRating)
  {
    1 <= r.rating <= 5
  }

  /** A lesson of the legacy flat course format. */
  datatype Lesson = Lesson(id: string, title: string, description: string, videoUrl: string, homeworkTask: Option<string>)

  /** `Course`. An empty `id` or `title` stands for an absent one (both are
      tested for truthiness). `isFree` is set by the editor only. */
  datatype Course = Course(
    id: string,
    authorId: string,
    authorName: Option<string>,
    title: string,
    marketingHook: string,
    description: string,
    coverUrl: string,
    price: int,
    categories: seq<CourseCategory>,
    ratings: seq<CourseRating>,
    createdAt: Option<int>,
    updatedAt: Option<int>,
    lessons: seq<Lesson>,
    mainCategory: Option<string>,
    isFree: bool)

  /** `Specialist`: a freelancer profile as shown in hiring and chat.
      `rating` is scaled by ten (5.0 is 50). */
  datatype Specialist = Specialist(
    id: string,
    name: string,
    role: string,
    avatar: string,
    rating: int,
    price: string,
    skills: seq<string>,
    online: bool)
}
