/** Tracking-link creation and deletion (web/src/views/AnalyticsView.tsx).

    The document store is two maps: each user's `links` collection, keyed by
    (user id, link id), and the global `tracking_links` collection, keyed by
    short code. A Firestore write batch is a sequence of writes that `Commit`
    applies in order, all at once or not at all. */
module Analytics {
  import opened Types
  import opened Text
  import opened Random

  const TrackingBaseUrl: string := "https://x5-marketing-app.web.app/r/"
  const LowerLetters: string := "abcdefghijklmnopqrstuvwxyz"
  const UpperLetters: string := "ABCDEFGHIJKLMNOPQRSTUVWXYZ"
  const DecimalDigits: string := "0123456789"
  /** The short-code alphabet, in the order the generator indexes it. */
  const Alphabet: string := LowerLetters + UpperLetters + DecimalDigits
  const CodeLength: nat := 8

  predicate IsAlnum(c: char)
  {
    'a' <= c <= 'z' || 'A' <= c <= 'Z' || '0' <= c <= '9'
  }

  /** The alphabet has 62 characters, all of `[a-zA-Z0-9]`. */
  lemma AlphabetIsAlnum()
    ensures |Alphabet| == 62
    ensures forall k :: 0 <= k < |Alphabet| ==> IsAlnum(Alphabet[k])
  {
    assert forall k :: 0 <= k < 26 ==> 'a' <= LowerLetters[k] <= 'z';
    assert forall k :: 0 <= k < 26 ==> 'A' <= UpperLetters[k] <= 'Z';
    assert forall k :: 0 <= k < 10 ==> '0' <= DecimalDigits[k] <= '9';
  }

  /** The eight `Math.random()` values one code is made from. */
  predicate CodeDraws(draws: seq<real>)
  {
    |draws| == CodeLength && forall i :: 0 <= i < |draws| ==> IsDraw(draws[i])
  }

  /** The code the generator produces from eight draws: draw `i` picks
      character `i` of the code from the alphabet. */
  function CodeOf(draws: seq<real>): (code: string)
    requires CodeDraws(draws)
    ensures IsShortCode(code)
  {
    AlphabetIsAlnum();
    seq(CodeLength, i requires 0 <= i < CodeLength => Alphabet[DrawIndex(draws[i], |Alphabet|)])
  }

  /** A valid short code: eight characters of `[a-zA-Z0-9]`. */
  predicate IsShortCode(code: string)
  {
    |code| == CodeLength && forall i :: 0 <= i < |code| ==> IsAlnum(code[i])
  }

  /** `generateShortCode`: appends one alphabet character per draw, eight times. */
  method GenerateShortCode(draws: seq<real>) returns (code: string)
    requires CodeDraws(draws)
    ensures code == CodeOf(draws)
    ensures IsShortCode(code)
  {
    code := "";
    for i := 0 to CodeLength
      invariant |code| == i
      invariant forall j :: 0 <= j < i ==> code[j] == Alphabet[DrawIndex(draws[j], |Alphabet|)]
    {
      code := code + [Alphabet[DrawIndex(draws[i], |Alphabet|)]];
    }
  }

  /** The URL a campaign stores: the trimmed input, with `https://` put in
      front unless it already starts with `http://` or `https://`. */
  function NormalizeUrl(raw: string): (r: string)
    ensures StartsWith(r, "http://") || StartsWith(r, "https://")
  {
    var t := Trim(raw);
    if StartsWith(t, "http://") || StartsWith(t, "https://") then t else "https://" + t
  }

  /** Putting the scheme in front of a trimmed string leaves it trimmed. */
  lemma TrimWithScheme(t: string)
    requires Trim(t) == t
    ensures Trim("https://" + t) == "https://" + t
  {
    var r := "https://" + t;
    assert r[0] == 'h';
    assert t != [] ==> r[|r| - 1] == t[|t| - 1];
    TrimFixed(r);
  }

  lemma NormalizedFixed(n: string)
    requires Trim(n) == n && (StartsWith(n, "http://") || StartsWith(n, "https://"))
    ensures NormalizeUrl(n) == n
  {
  }

  /** Normalizing a normalized URL changes nothing. */
  lemma NormalizeIdempotent(raw: string)
    ensures NormalizeUrl(NormalizeUrl(raw)) == NormalizeUrl(raw)
  {
    var t := Trim(raw);
    var n := NormalizeUrl(raw);
    if StartsWith(t, "http://") || StartsWith(t, "https://") {
      TrimIdempotent(raw);
      assert n == t;
    } else {
      TrimIdempotent(raw);
      TrimWithScheme(t);
      assert n == "https://" + t;
    }
    NormalizedFixed(n);
  }

  /** A bare host name (it does not start with `h`, and has no blanks
      around it) gets the `https://` scheme in front. */
  lemma NormalizeBareHost(host: string)
    requires host != [] && host[0] != 'h' && !IsSpace(host[0]) && !IsSpace(host[|host| - 1])
    ensures NormalizeUrl(host) == "https://" + host
  {
    TrimFixed(host);
    assert !StartsWith(host, "http://") by {
      if |host| >= 7 { assert host[..7][0] == host[0]; }
    }
    assert !StartsWith(host, "https://") by {
      if |host| >= 8 { assert host[..8][0] == host[0]; }
    }
  }

  /** A URL typed with its scheme is stored as typed, without the blanks
      around it. */
  lemma NormalizeKeepsScheme(pre: string, url: string, post: string)
    requires forall i :: 0 <= i < |pre| ==> IsSpace(pre[i])
    requires forall i :: 0 <= i < |post| ==> IsSpace(post[i])
    requires StartsWith(url, "http://") || StartsWith(url, "https://")
    requires !IsSpace(url[|url| - 1])
    ensures NormalizeUrl(pre + url + post) == url
  {
    assert url[0] == url[..7][0] == 'h';
    TrimPadded(pre, url, post);
  }

  // ----- the document store -----

  /** Key of a user's link: (user id, link id). */
  type LinkKey = (string, string)

  datatype Db = Db(userLinks: map<LinkKey, LinkData>, tracking: map<string, TrackingLink>)

  /** One operation of a Firestore write batch. */
  datatype Write =
    | SetUserLink(userId: string, linkId: string, link: LinkData)
    | SetTracking(code: string, record: TrackingLink)
    | DeleteUserLink(userId: string, linkId: string)
    | DeleteTracking(code: string)

  function ApplyWrite(db: Db, w: Write): (r: Db)
  {
    match w
    case SetUserLink(u, l, d) => db.(userLinks := db.userLinks[(u, l) := d])
    case SetTracking(c, t) => db.(tracking := db.tracking[c := t])
    case DeleteUserLink(u, l) => db.(userLinks := db.userLinks - {(u, l)})
    case DeleteTracking(c) => db.(tracking := db.tracking - {c})
  }

  /** The store after a committed batch: its writes applied in order. */
  function ApplyBatch(db: Db, batch: seq<Write>): (r: Db)
    decreases |batch|
  {
    if batch == [] then db else ApplyBatch(ApplyWrite(db, batch[0]), batch[1..])
  }

  /** Committing two batches one after the other is committing their concatenation. */
  lemma {:induction false} ApplyBatchAppend(db: Db, a: seq<Write>, b: seq<Write>)
    ensures ApplyBatch(db, a + b) == ApplyBatch(ApplyBatch(db, a), b)
    decreases |a|
  {
    if a == [] {
      assert a + b == b;
    } else {
      assert (a + b)[1..] == a[1..] + b;
      ApplyBatchAppend(ApplyWrite(db, a[0]), a[1..], b);
    }
  }

  /** A batch of two writes. */
  lemma ApplyPair(db: Db, w1: Write, w2: Write)
    ensures ApplyBatch(db, [w1, w2]) == ApplyWrite(ApplyWrite(db, w1), w2)
  {
    assert [w1, w2][1..] == [w2];
    assert ApplyBatch(db, [w1, w2]) == ApplyBatch(ApplyWrite(db, w1), [w2]);
    assert [w2][1..] == [];
    assert ApplyBatch(ApplyWrite(db, w1), [w2]) == ApplyBatch(ApplyWrite(ApplyWrite(db, w1), w2), []);
  }

  /** `${shortCode}-${platform}`: the id of the user's copy of a link. */
  function LinkIdFor(code: string, p: Platform): string
  {
    code + "-" + PlatformName(p)
  }

  /** Link ids of codes of equal length differ when code or platform differ. */
  lemma LinkIdInjective(c1: string, p1: Platform, c2: string, p2: Platform)
    requires |c1| == |c2|
    requires LinkIdFor(c1, p1) == LinkIdFor(c2, p2)
    ensures c1 == c2 && p1 == p2
  {
    var id := LinkIdFor(c1, p1);
    assert c1 == id[..|c1|] && c2 == id[..|c2|];
    assert PlatformName(p1) == id[|c1| + 1..] == PlatformName(p2);
    ParsePlatformName(p1);
    ParsePlatformName(p2);
  }

  function TrackingUrlFor(code: string): string
  {
    TrackingBaseUrl + code
  }

  /** The user's copy of the link for one platform of a campaign. */
  function CampaignLink(userId: string, url: string, code: string, p: Platform, now: int): LinkData
  {
    LinkData(p, url, TrackingUrlFor(code), code, 0, now, userId)
  }

  /** The `tracking_links` record for one platform of a campaign. */
  function CampaignTracking(userId: string, url: string, code: string, p: Platform, now: int): TrackingLink
  {
    TrackingLink(Some(url), Some(userId), Some(LinkIdFor(code, p)), p, 0, now, None)
  }

  function PlatformWrites(userId: string, url: string, code: string, p: Platform, now: int): seq<Write>
  {
    [SetUserLink(userId, LinkIdFor(code, p), CampaignLink(userId, url, code, p, now)),
     SetTracking(code, CampaignTracking(userId, url, code, p, now))]
  }

  /** The batch `generateLinks` builds for the codes drawn so far: two writes
      per platform, in platform order. */
  function CampaignBatch(userId: string, url: string, codes: seq<string>, now: int): (b: seq<Write>)
    requires |codes| <= |Platforms|
    ensures |b| == 2 * |codes|
    decreases |codes|
  {
    if codes == [] then []
    else CampaignBatch(userId, url, codes[..|codes| - 1], now)
         + PlatformWrites(userId, url, codes[|codes| - 1], Platforms[|codes| - 1], now)
  }

  /** Drawing one more code adds that platform's two writes at the end. */
  lemma CampaignBatchSnoc(userId: string, url: string, codes: seq<string>, code: string, now: int)
    requires |codes| < |Platforms|
    ensures CampaignBatch(userId, url, codes + [code], now)
      == CampaignBatch(userId, url, codes, now) + PlatformWrites(userId, url, code, Platforms[|codes|], now)
  {
    assert (codes + [code])[..|codes|] == codes;
  }

  /** The batch holds exactly two writes per platform: write 2i stores the
      user's copy of platform i, write 2i+1 its tracking record. */
  lemma {:induction false} CampaignBatchShape(userId: string, url: string, codes: seq<string>, now: int)
    requires |codes| <= |Platforms|
    ensures |CampaignBatch(userId, url, codes, now)| == 2 * |codes|
    ensures forall i :: 0 <= i < |codes| ==>
      CampaignBatch(userId, url, codes, now)[2 * i] ==
        SetUserLink(userId, LinkIdFor(codes[i], Platforms[i]), CampaignLink(userId, url, codes[i], Platforms[i], now))
    ensures forall i :: 0 <= i < |codes| ==>
      CampaignBatch(userId, url, codes, now)[2 * i + 1] ==
        SetTracking(codes[i], CampaignTracking(userId, url, codes[i], Platforms[i], now))
    decreases |codes|
  {
    if codes != [] {
      CampaignBatchShape(userId, url, codes[..|codes| - 1], now);
    }
  }

  /** Committing one platform's pair of writes. */
  lemma PlatformWritesEffect(db: Db, userId: string, url: string, code: string, p: Platform, now: int)
    ensures ApplyBatch(db, PlatformWrites(userId, url, code, p, now)) ==
      Db(db.userLinks[(userId, LinkIdFor(code, p)) := CampaignLink(userId, url, code, p, now)],
         db.tracking[code := CampaignTracking(userId, url, code, p, now)])
  {
    ApplyPair(db, SetUserLink(userId, LinkIdFor(code, p), CampaignLink(userId, url, code, p, now)),
      SetTracking(code, CampaignTracking(userId, url, code, p, now)));
  }

  /** The key of the user link that a campaign stores for platform `i`. */
  function CampaignKey(userId: string, codes: seq<string>, i: nat): LinkKey
    requires i < |codes| <= |Platforms|
  {
    (userId, LinkIdFor(codes[i], Platforms[i]))
  }

  /** Different platforms of one campaign never share a user-link key. */
  lemma CampaignKeysDistinct(userId: string, codes: seq<string>, i: nat, j: nat)
    requires i < j < |codes| <= |Platforms| && |codes[i]| == |codes[j]|
    ensures CampaignKey(userId, codes, i) != CampaignKey(userId, codes, j)
  {
    PlatformsComplete(Instagram);
    if CampaignKey(userId, codes, i) == CampaignKey(userId, codes, j) {
      LinkIdInjective(codes[i], Platforms[i], codes[j], Platforms[j]);
    }
  }

  /** Every platform's user link of the campaign is stored. */
  ghost predicate LinksStored(db': Db, userId: string, url: string, codes: seq<string>, now: int)
    requires |codes| <= |Platforms|
  {
    forall i :: 0 <= i < |codes| ==>
      CampaignKey(userId, codes, i) in db'.userLinks
      && db'.userLinks[CampaignKey(userId, codes, i)] == CampaignLink(userId, url, codes[i], Platforms[i], now)
  }

  /** Code `i` is not drawn again by a later platform. */
  predicate LastDraw(codes: seq<string>, i: int)
    requires 0 <= i < |codes|
  {
    forall j :: i < j < |codes| ==> codes[j] != codes[i]
  }

  /** Every code that no later platform drew again resolves to its platform's record. */
  ghost predicate TrackingStored(db': Db, userId: string, url: string, codes: seq<string>, now: int)
    requires |codes| <= |Platforms|
  {
    forall i :: 0 <= i < |codes| && LastDraw(codes, i) ==>
      codes[i] in db'.tracking
      && db'.tracking[codes[i]] == CampaignTracking(userId, url, codes[i], Platforms[i], now)
  }

  /** The keys after the campaign are the old ones plus the campaign's. */
  ghost predicate KeysAdded(db: Db, db': Db, userId: string, codes: seq<string>)
    requires |codes| <= |Platforms|
  {
    && (forall k :: k in db'.userLinks <==> k in db.userLinks || exists i :: 0 <= i < |codes| && k == CampaignKey(userId, codes, i))
    && (forall c :: c in db'.tracking <==> c in db.tracking || c in codes)
  }

  /** Records under keys the campaign does not write are unchanged. */
  ghost predicate OthersKept(db: Db, db': Db, userId: string, codes: seq<string>)
    requires |codes| <= |Platforms|
  {
    && (forall k :: k in db.userLinks && (forall i :: 0 <= i < |codes| ==> k != CampaignKey(userId, codes, i)) ==>
          k in db'.userLinks && db'.userLinks[k] == db.userLinks[k])
    && (forall c :: c in db.tracking && c !in codes ==> c in db'.tracking && db'.tracking[c] == db.tracking[c])
  }

  /** What a committed campaign means, relating the store before (`db`) and
      after (`db'`). There is no collision check: a code already in use has
      its tracking record replaced. */
  ghost predicate CampaignDone(db: Db, db': Db, userId: string, url: string, codes: seq<string>, now: int)
    requires |codes| <= |Platforms|
  {
    && LinksStored(db', userId, url, codes, now)
    && TrackingStored(db', userId, url, codes, now)
    && KeysAdded(db, db', userId, codes)
    && OthersKept(db, db', userId, codes)
  }

  /** The store after the last platform's pair of writes, given the store `d` before them. */
  function CampaignStep(d: Db, userId: string, url: string, codes: seq<string>, now: int): Db
    requires 0 < |codes| <= |Platforms|
  {
    var n := |codes| - 1;
    Db(d.userLinks[CampaignKey(userId, codes, n) := CampaignLink(userId, url, codes[n], Platforms[n], now)],
       d.tracking[codes[n] := CampaignTracking(userId, url, codes[n], Platforms[n], now)])
  }

  lemma StepLinks(d: Db, userId: string, url: string, codes: seq<string>, now: int)
    requires 0 < |codes| <= |Platforms| && forall i :: 0 <= i < |codes| ==> |codes[i]| == CodeLength
    requires LinksStored(d, userId, url, codes[..|codes| - 1], now)
    ensures LinksStored(CampaignStep(d, userId, url, codes, now), userId, url, codes, now)
  {
    var n := |codes| - 1;
    forall i | 0 <= i < n
      ensures CampaignKey(userId, codes, i) != CampaignKey(userId, codes, n)
      ensures CampaignKey(userId, codes[..n], i) == CampaignKey(userId, codes, i)
    {
      CampaignKeysDistinct(userId, codes, i, n);
    }
  }

  lemma StepTracking(d: Db, userId: string, url: string, codes: seq<string>, now: int)
    requires 0 < |codes| <= |Platforms|
    requires TrackingStored(d, userId, url, codes[..|codes| - 1], now)
    ensures TrackingStored(CampaignStep(d, userId, url, codes, now), userId, url, codes, now)
  {
    var n := |codes| - 1;
    var pre := codes[..n];
    forall i | 0 <= i < n && LastDraw(codes, i)
      ensures LastDraw(pre, i) && codes[i] != codes[n]
    {
    }
  }

  lemma StepKeys(db: Db, d: Db, userId: string, url: string, codes: seq<string>, now: int)
    requires 0 < |codes| <= |Platforms|
    requires KeysAdded(db, d, userId, codes[..|codes| - 1])
    ensures KeysAdded(db, CampaignStep(d, userId, url, codes, now), userId, codes)
  {
    var n := |codes| - 1;
    var pre := codes[..n];
    assert codes == pre + [codes[n]];
    assert forall i :: 0 <= i < n ==> CampaignKey(userId, pre, i) == CampaignKey(userId, codes, i);
  }

  lemma StepOthers(db: Db, d: Db, userId: string, url: string, codes: seq<string>, now: int)
    requires 0 < |codes| <= |Platforms|
    requires OthersKept(db, d, userId, codes[..|codes| - 1])
    ensures OthersKept(db, CampaignStep(d, userId, url, codes, now), userId, codes)
  {
    var n := |codes| - 1;
    var pre := codes[..n];
    assert codes == pre + [codes[n]];
    assert forall i :: 0 <= i < n ==> CampaignKey(userId, pre, i) == CampaignKey(userId, codes, i);
  }

  /** A committed campaign whose codes have the generator's length does what
      `CampaignDone` says. */
  lemma {:induction false} CampaignRecords(db: Db, userId: string, url: string, codes: seq<string>, now: int)
    requires |codes| <= |Platforms| && forall i :: 0 <= i < |codes| ==> |codes[i]| == CodeLength
    ensures CampaignDone(db, ApplyBatch(db, CampaignBatch(userId, url, codes, now)), userId, url, codes, now)
    decreases |codes|
  {
    if codes != [] {
      var n := |codes| - 1;
      var pre := codes[..n];
      var before := CampaignBatch(userId, url, pre, now);
      CampaignRecords(db, userId, url, pre, now);
      var d := ApplyBatch(db, before);
      ApplyBatchAppend(db, before, PlatformWrites(userId, url, codes[n], Platforms[n], now));
      PlatformWritesEffect(d, userId, url, codes[n], Platforms[n], now);
      assert ApplyBatch(db, CampaignBatch(userId, url, codes, now)) == CampaignStep(d, userId, url, codes, now);
      StepLinks(d, userId, url, codes, now);
      StepTracking(d, userId, url, codes, now);
      StepKeys(db, d, userId, url, codes, now);
      StepOthers(db, d, userId, url, codes, now);
    }
  }

  /** `deleteLink`'s batch: the user's copy and the tracking record. */
  function DeleteBatch(userId: string, linkId: string, code: string): seq<Write>
  {
    [DeleteUserLink(userId, linkId), DeleteTracking(code)]
  }

  /** After a committed delete both records are gone and every other record is kept. */
  lemma DeleteEffect(db: Db, userId: string, linkId: string, code: string)
    ensures var db' := ApplyBatch(db, DeleteBatch(userId, linkId, code));
      && (userId, linkId) !in db'.userLinks && code !in db'.tracking
      && db'.userLinks == db.userLinks - {(userId, linkId)}
      && db'.tracking == db.tracking - {code}
  {
    ApplyPair(db, DeleteUserLink(userId, linkId), DeleteTracking(code));
  }

  // ----- pairing of the two collections -----

  /** The two collections describe the same links: every user link is named
      by its own code and platform, and its code's tracking record points
      back at it with the same URL; every tracking record that names an
      owner and a link id points at such a user link. */
  /** The user link under `k` is named by its own owner, code and platform,
      and its code's tracking record points back at it with the same URL. */
  predicate LinkTracked(db: Db, k: LinkKey)
    requires k in db.userLinks
  {
    var l := db.userLinks[k];
    && |l.shortCode| == CodeLength && k.0 == l.userId
    && k.1 == LinkIdFor(l.shortCode, l.platform)
    && l.shortCode in db.tracking
    && db.tracking[l.shortCode].userId == Some(k.0)
    && db.tracking[l.shortCode].linkId == Some(k.1)
    && db.tracking[l.shortCode].originalUrl == Some(l.originalUrl)
  }

  /** The tracking record of `c`, when it names an owner and a link id,
      points at a user link of code `c`. */
  predicate TrackingResolves(db: Db, c: string)
    requires c in db.tracking
  {
    var t := db.tracking[c];
    t.userId.Some? && t.linkId.Some? ==>
      (t.userId.value, t.linkId.value) in db.userLinks
      && db.userLinks[(t.userId.value, t.linkId.value)].shortCode == c
  }

  /** The two collections describe the same links. */
  ghost predicate Paired(db: Db)
  {
    && (forall k :: k in db.userLinks ==> LinkTracked(db, k))
    && (forall c :: c in db.tracking ==> TrackingResolves(db, c))
  }

  /** A campaign whose codes are distinct codes of the generator's length,
      none of them in use yet, keeps the collections paired. */
  lemma CampaignKeepsPaired(db: Db, userId: string, url: string, codes: seq<string>, now: int)
    requires Paired(db)
    requires |codes| <= |Platforms| && forall i :: 0 <= i < |codes| ==> |codes[i]| == CodeLength && codes[i] !in db.tracking
    requires forall i, j :: 0 <= i < j < |codes| ==> codes[i] != codes[j]
    ensures Paired(ApplyBatch(db, CampaignBatch(userId, url, codes, now)))
  {
    CampaignKeepsLinksTracked(db, userId, url, codes, now);
    CampaignKeepsTrackingResolved(db, userId, url, codes, now);
  }

  /** Why the codes must differ: nothing checks them, and when the first
      two platforms draw the same code the second tracking record
      overwrites the first, so the first platform's user link is no longer
      the one its code's record names. */
  lemma CampaignCodeCollision(userId: string, url: string, c: string, now: int)
    requires |c| == CodeLength
    ensures !Paired(ApplyBatch(Db(map[], map[]), CampaignBatch(userId, url, [c, c], now)))
  {
    var db0 := Db(map[], map[]);
    CampaignBatchSnoc(userId, url, [], c, now);
    CampaignBatchSnoc(userId, url, [c], c, now);
    assert [] + [c] == [c];
    var w0 := PlatformWrites(userId, url, c, Platforms[0], now);
    var w1 := PlatformWrites(userId, url, c, Platforms[1], now);
    assert CampaignBatch(userId, url, [c, c], now) == w0 + w1;
    ApplyBatchAppend(db0, w0, w1);
    PlatformWritesEffect(db0, userId, url, c, Platforms[0], now);
    var db1 := ApplyBatch(db0, w0);
    PlatformWritesEffect(db1, userId, url, c, Platforms[1], now);
    var db2 := ApplyBatch(db1, w1);
    var k := (userId, LinkIdFor(c, Platforms[0]));
    assert k in db2.userLinks;
    if LinkIdFor(c, Platforms[1]) == k.1 {
      LinkIdInjective(c, Platforms[1], c, Platforms[0]);
    }
    assert !LinkTracked(db2, k);
  }

  /** The user links half of `CampaignKeepsPaired`. */
  lemma CampaignKeepsLinksTracked(db: Db, userId: string, url: string, codes: seq<string>, now: int)
    requires Paired(db)
    requires |codes| <= |Platforms| && forall i :: 0 <= i < |codes| ==> |codes[i]| == CodeLength && codes[i] !in db.tracking
    requires forall i, j :: 0 <= i < j < |codes| ==> codes[i] != codes[j]
    ensures var db' := ApplyBatch(db, CampaignBatch(userId, url, codes, now));
      forall k :: k in db'.userLinks ==> LinkTracked(db', k)
  {
    var db' := ApplyBatch(db, CampaignBatch(userId, url, codes, now));
    CampaignRecords(db, userId, url, codes, now);
    assert forall i :: 0 <= i < |codes| ==> LastDraw(codes, i);
    forall k | k in db'.userLinks
      ensures LinkTracked(db', k)
    {
      if i :| 0 <= i < |codes| && k == CampaignKey(userId, codes, i) {
        assert db'.userLinks[k] == CampaignLink(userId, url, codes[i], Platforms[i], now);
        assert db'.tracking[codes[i]] == CampaignTracking(userId, url, codes[i], Platforms[i], now);
      } else {
        assert LinkTracked(db, k);
        assert db.userLinks[k].shortCode !in codes;
      }
    }
  }

  /** The tracking records half of `CampaignKeepsPaired`. */
  lemma CampaignKeepsTrackingResolved(db: Db, userId: string, url: string, codes: seq<string>, now: int)
    requires Paired(db)
    requires |codes| <= |Platforms| && forall i :: 0 <= i < |codes| ==> |codes[i]| == CodeLength && codes[i] !in db.tracking
    requires forall i, j :: 0 <= i < j < |codes| ==> codes[i] != codes[j]
    ensures var db' := ApplyBatch(db, CampaignBatch(userId, url, codes, now));
      forall c :: c in db'.tracking ==> TrackingResolves(db', c)
  {
    var db' := ApplyBatch(db, CampaignBatch(userId, url, codes, now));
    CampaignRecords(db, userId, url, codes, now);
    assert forall i :: 0 <= i < |codes| ==> LastDraw(codes, i);
    forall c | c in db'.tracking
      ensures TrackingResolves(db', c)
    {
      if i :| 0 <= i < |codes| && codes[i] == c {
        assert db'.tracking[c] == CampaignTracking(userId, url, codes[i], Platforms[i], now);
        assert db'.userLinks[CampaignKey(userId, codes, i)] == CampaignLink(userId, url, codes[i], Platforms[i], now);
      } else {
        assert TrackingResolves(db, c);
        var t := db.tracking[c];
        if t.userId.Some? && t.linkId.Some? {
          var k := (t.userId.value, t.linkId.value);
          assert LinkTracked(db, k);
          forall j | 0 <= j < |codes|
            ensures k != CampaignKey(userId, codes, j)
          {
            if k == CampaignKey(userId, codes, j) {
              LinkIdInjective(db.userLinks[k].shortCode, db.userLinks[k].platform, codes[j], Platforms[j]);
            }
          }
        }
      }
    }
  }

  /** Deleting a user link together with its own code keeps the collections paired. */
  lemma DeleteKeepsPaired(db: Db, userId: string, linkId: string)
    requires Paired(db) && (userId, linkId) in db.userLinks
    ensures Paired(ApplyBatch(db, DeleteBatch(userId, linkId, db.userLinks[(userId, linkId)].shortCode)))
  {
    var code := db.userLinks[(userId, linkId)].shortCode;
    DeleteEffect(db, userId, linkId, code);
    var db' := ApplyBatch(db, DeleteBatch(userId, linkId, code));
    assert LinkTracked(db, (userId, linkId));
    forall k | k in db'.userLinks
      ensures LinkTracked(db', k)
    {
      assert LinkTracked(db, k);
      assert db.userLinks[k].shortCode == code ==> k == (userId, linkId);
    }
    forall c | c in db'.tracking
      ensures TrackingResolves(db', c)
    {
      assert TrackingResolves(db, c);
    }
  }

  // ----- the store object and the view's operations -----

  /** Outcome of `generateLinks`, as the toast it ends with tells it. */
  datatype CreateOutcome =
    | Ignored                          // empty input or no signed-in user: nothing happens
    | InvalidUrl                       // "Invalid URL format"
    | Created(codes: seq<string>)      // "Links created!"
    | CreateFailed                     // "Error creating links"

  /** Outcome of `deleteLink`. */
  datatype DeleteOutcome = DeleteIgnored | Deleted | DeleteFailed

  /** The loop of `generateLinks`: one short code per platform, in platform
      order, and the two writes that store it. */
  method CampaignWrites(userId: string, url: string, draws: seq<seq<real>>, now: int)
    returns (batch: seq<Write>, codes: seq<string>)
    requires |draws| == |Platforms|
    requires forall i :: 0 <= i < |draws| ==> CodeDraws(draws[i])
    ensures |codes| == |Platforms|
    ensures forall i :: 0 <= i < |Platforms| ==> codes[i] == CodeOf(draws[i])
    ensures batch == CampaignBatch(userId, url, codes, now)
  {
    batch := [];
    codes := [];
    for i := 0 to |Platforms|
      invariant |codes| == i
      invariant forall j :: 0 <= j < i ==> codes[j] == CodeOf(draws[j])
      invariant batch == CampaignBatch(userId, url, codes, now)
    {
      var platform := Platforms[i];
      var shortCode := GenerateShortCode(draws[i]);
      var linkId := shortCode + "-" + PlatformName(platform);
      var linkData := LinkData(platform, url, TrackingBaseUrl + shortCode, shortCode, 0, now, userId);
      var trackingData := TrackingLink(Some(url), Some(userId), Some(linkId), platform, 0, now, None);
      batch := batch + [SetUserLink(userId, linkId, linkData), SetTracking(shortCode, trackingData)];
      CampaignBatchSnoc(userId, url, codes, shortCode, now);
      codes := codes + [shortCode];
    }
  }

  class LinkStore {
    var userLinks: map<LinkKey, LinkData>
    var tracking: map<string, TrackingLink>

    function State(): Db
      reads this
    {
      Db(userLinks, tracking)
    }

    constructor (db: Db)
      ensures State() == db
    {
      userLinks := db.userLinks;
      tracking := db.tracking;
    }

    /** `batch.commit()`: every write lands, or, when the store fails, none. */
    method Commit(batch: seq<Write>, fails: bool) returns (ok: bool)
      modifies this
      ensures ok == !fails
      ensures State() == if ok then ApplyBatch(old(State()), batch) else old(State())
    {
      ok := !fails;
      if ok {
        var db := ApplyBatch(State(), batch);
        userLinks, tracking := db.userLinks, db.tracking;
      }
    }

    /** `generateLinks`. `userId` is "" when no user is signed in; `parses`
        stands for `new URL(...)` succeeding; `draws` are the `Math.random()`
        values of the four `generateShortCode` calls. */
    method GenerateLinks(urlInput: string, userId: string, parses: string -> bool,
                         draws: seq<seq<real>>, now: int, commitFails: bool)
      returns (outcome: CreateOutcome)
      requires |draws| == |Platforms|
      requires forall i :: 0 <= i < |draws| ==> CodeDraws(draws[i])
      modifies this
      ensures (urlInput == "" || userId == "") <==> outcome == Ignored
      ensures outcome == InvalidUrl <==> urlInput != "" && userId != "" && !parses(NormalizeUrl(urlInput))
      ensures outcome == CreateFailed <==>
        urlInput != "" && userId != "" && parses(NormalizeUrl(urlInput)) && commitFails
      ensures outcome.Created? ==>
        && |outcome.codes| == |Platforms|
        && (forall i :: 0 <= i < |Platforms| ==> outcome.codes[i] == CodeOf(draws[i]))
        && State() == ApplyBatch(old(State()), CampaignBatch(userId, NormalizeUrl(urlInput), outcome.codes, now))
      ensures !outcome.Created? ==> State() == old(State())
    {
      if urlInput == "" || userId == "" {
        return Ignored;
      }
      var cleanUrl := Trim(urlInput);
      if !StartsWith(cleanUrl, "http://") && !StartsWith(cleanUrl, "https://") {
        cleanUrl := "https://" + cleanUrl;
      }
      if !parses(cleanUrl) {
        return InvalidUrl;
      }
      var batch, codes := CampaignWrites(userId, cleanUrl, draws, now);
      ghost var before := State();
      var ok := Commit(batch, commitFails);
      outcome := if ok then Created(codes) else CreateFailed;
    }

    /** `deleteLink`: removes the user's copy and the tracking record in one batch. */
    method DeleteLink(userId: string, linkId: string, shortCode: string, commitFails: bool)
      returns (outcome: DeleteOutcome)
      modifies this
      ensures outcome == DeleteIgnored <==> userId == ""
      ensures outcome == DeleteFailed <==> userId != "" && commitFails
      ensures State() == if outcome == Deleted then ApplyBatch(old(State()), DeleteBatch(userId, linkId, shortCode)) else old(State())
    {
      if userId == "" {
        return DeleteIgnored;
      }
      var batch := [DeleteUserLink(userId, linkId), DeleteTracking(shortCode)];
      var ok := Commit(batch, commitFails);
      outcome := if ok then Deleted else DeleteFailed;
    }

    // The single-document operations the redirect uses.

    /** `tracking_links.doc(code).get()`: `None` when the read fails. */
    method GetTracking(code: string, fails: bool) returns (r: Option<Option<TrackingLink>>)
      ensures fails <==> r.None?
      ensures r.Some? ==> r.value == if code in tracking then Some(tracking[code]) else None
    {
      if fails {
        return None;
      }
      r := Some(if code in tracking then Some(tracking[code]) else None);
    }

    /** `update({clicks: increment(1), lastClickAt})` on a tracking record;
        an update of a missing document fails. */
    method IncrementTracking(code: string, now: int, fails: bool) returns (ok: bool)
      modifies this
      ensures ok <==> !fails && code in old(tracking)
      ensures userLinks == old(userLinks)
      ensures tracking == if ok then old(tracking[code := tracking[code].(clicks := tracking[code].clicks + 1, lastClickAt := Some(now))]) else old(tracking)
    {
      ok := !fails && code in tracking;
      if ok {
        var t := tracking[code];
        tracking := tracking[code := t.(clicks := t.clicks + 1, lastClickAt := Some(now))];
      }
    }

    /** `update({clicks: increment(1)})` on a user's link. */
    method IncrementUserLink(userId: string, linkId: string, fails: bool) returns (ok: bool)
      modifies this
      ensures ok <==> !fails && (userId, linkId) in old(userLinks)
      ensures tracking == old(tracking)
      ensures userLinks == if ok then old(userLinks[(userId, linkId) := userLinks[(userId, linkId)].(clicks := userLinks[(userId, linkId)].clicks + 1)]) else old(userLinks)
    {
      ok := !fails && (userId, linkId) in userLinks;
      if ok {
        var l := userLinks[(userId, linkId)];
        userLinks := userLinks[(userId, linkId) := l.(clicks := l.clicks + 1)];
      }
    }
  }
}
