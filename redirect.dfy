/** Redirect resolution (web/src/views/RedirectView.tsx): look up a short
    code in `tracking_links`, count the click on the record and on the
    owner's copy of the link, and send the visitor to the stored URL. */
module Redirect {
  import opened Types
  import opened Analytics

  const LinkNotFoundText: string := "Link not found"
  const InvalidLinkText: string := "Invalid link"
  const ProcessingErrorText: string := "Error processing link"

  /** How a visit ends. `Idle`: the code is empty and nothing runs. */
  datatype RedirectOutcome =
    | Idle
    | NotFound
    | InvalidLink
    | ProcessingError
    | Redirecting(target: string)

  /** Which of the three awaited store calls fail: the lookup, the counter
      update of the tracking record, and the update of the owner's copy. */
  datatype Faults = Faults(lookupFails: bool, incrementFails: bool, mirrorFails: bool)

  const NoFaults: Faults := Faults(false, false, false)

  /** The message the view shows for an outcome, if any. */
  function ErrorText(o: RedirectOutcome): (r: Option<string>)
    ensures r.None? <==> o.Idle? || o.Redirecting?
  {
    match o
    case NotFound => Some(LinkNotFoundText)
    case InvalidLink => Some(InvalidLinkText)
    case ProcessingError => Some(ProcessingErrorText)
    case _ => None
  }

  /** `!originalUrl`: absent or empty. */
  predicate HasTarget(t: TrackingLink)
  {
    t.originalUrl.Some? && t.originalUrl.value != ""
  }

  /** `data.userId && data.linkId`: the record names its owner's copy. */
  predicate Mirrors(t: TrackingLink)
  {
    t.userId.Some? && t.userId.value != "" && t.linkId.Some? && t.linkId.value != ""
  }

  function MirrorKey(t: TrackingLink): LinkKey
    requires Mirrors(t)
  {
    (t.userId.value, t.linkId.value)
  }

  /** The store after a visit and how the visit ends. */
  function Resolve(db: Db, code: string, now: int, f: Faults): (r: (Db, RedirectOutcome))
    ensures !r.1.Redirecting? ==> r.0 == db
    ensures r.1.Redirecting? ==> code in db.tracking && db.tracking[code].originalUrl == Some(r.1.target) && r.1.target != ""
    ensures r.0.tracking.Keys == db.tracking.Keys && r.0.userLinks.Keys == db.userLinks.Keys
  {
    if code == "" then (db, Idle)
    else if f.lookupFails then (db, ProcessingError)
    else if code !in db.tracking then (db, NotFound)
    else
      var t := db.tracking[code];
      if !HasTarget(t) then (db, InvalidLink)
      else if f.incrementFails then (db, ProcessingError)
      else
        var db1 := db.(tracking := db.tracking[code := t.(clicks := t.clicks + 1, lastClickAt := Some(now))]);
        if Mirrors(t) && MirrorKey(t) in db1.userLinks && !f.mirrorFails then
          var l := db1.userLinks[MirrorKey(t)];
          (db1.(userLinks := db1.userLinks[MirrorKey(t) := l.(clicks := l.clicks + 1)]), Redirecting(t.originalUrl.value))
        else (db1, Redirecting(t.originalUrl.value))
  }

  /** How each outcome comes about, and that every outcome but a redirect
      leaves the store as it was. */
  lemma ResolveOutcomes(db: Db, code: string, now: int, f: Faults)
    ensures var (db', o) := Resolve(db, code, now, f);
      && (o == Idle <==> code == "")
      && (o == NotFound <==> code != "" && !f.lookupFails && code !in db.tracking)
      && (o == InvalidLink <==> code != "" && !f.lookupFails && code in db.tracking && !HasTarget(db.tracking[code]))
      && (o == ProcessingError <==> code != "" && (f.lookupFails || (code in db.tracking && HasTarget(db.tracking[code]) && f.incrementFails)))
      && (o.Redirecting? <==> code != "" && !f.lookupFails && !f.incrementFails && code in db.tracking && HasTarget(db.tracking[code]))
      && (!o.Redirecting? ==> db' == db)
  {
  }

  /** A redirect goes to exactly the stored URL; the record's counter goes up
      by one and its last-click time is set; no other tracking record
      changes. */
  lemma ResolveCounts(db: Db, code: string, now: int, f: Faults)
    requires Resolve(db, code, now, f).1.Redirecting?
    ensures var (db', o) := Resolve(db, code, now, f);
      && code in db.tracking && code in db'.tracking
      && db.tracking[code].originalUrl == Some(o.target)
      && db'.tracking[code] == db.tracking[code].(clicks := db.tracking[code].clicks + 1, lastClickAt := Some(now))
      && db'.tracking.Keys == db.tracking.Keys
      && (forall c :: c in db.tracking && c != code ==> db'.tracking[c] == db.tracking[c])
  {
  }

  /** The owner's copy is counted exactly when the record names it, it
      exists, and its update succeeds; a failure there still redirects.
      Nothing else among the users' links changes. */
  lemma ResolveMirror(db: Db, code: string, now: int, f: Faults)
    requires Resolve(db, code, now, f).1.Redirecting?
    ensures var db' := Resolve(db, code, now, f).0;
      var t := db.tracking[code];
      && db'.userLinks.Keys == db.userLinks.Keys
      && (Mirrors(t) && MirrorKey(t) in db.userLinks && !f.mirrorFails ==>
            db'.userLinks[MirrorKey(t)].clicks == db.userLinks[MirrorKey(t)].clicks + 1
            && db'.userLinks[MirrorKey(t)] == db.userLinks[MirrorKey(t)].(clicks := db.userLinks[MirrorKey(t)].clicks + 1))
      && (forall k :: k in db.userLinks && !(Mirrors(t) && k == MirrorKey(t) && !f.mirrorFails) ==>
            db'.userLinks[k] == db.userLinks[k])
  {
  }

  /** Counting clicks keeps the two collections paired. */
  lemma ResolveKeepsPaired(db: Db, code: string, now: int, f: Faults)
    requires Paired(db)
    ensures Paired(Resolve(db, code, now, f).0)
  {
    var db' := Resolve(db, code, now, f).0;
    if Resolve(db, code, now, f).1.Redirecting? {
      ResolveCounts(db, code, now, f);
      ResolveMirror(db, code, now, f);
      forall k | k in db'.userLinks
        ensures LinkTracked(db', k)
      {
        assert LinkTracked(db, k);
      }
      forall c | c in db'.tracking
        ensures TrackingResolves(db', c)
      {
        assert TrackingResolves(db, c);
      }
    }
  }

  /** The store after a run of visits to one code without failures. */
  function ResolveAll(db: Db, code: string, nows: seq<int>): (r: Db)
    decreases |nows|
  {
    if nows == [] then db else ResolveAll(Resolve(db, code, nows[0], NoFaults).0, code, nows[1..])
  }

  /** `n` visits to a valid code raise its counter by exactly `n` and leave
      it pointing at the same URL. */
  lemma {:induction false} ResolveAllCounts(db: Db, code: string, nows: seq<int>)
    requires code != "" && code in db.tracking && HasTarget(db.tracking[code])
    ensures var db' := ResolveAll(db, code, nows);
      && code in db'.tracking
      && db'.tracking[code].clicks == db.tracking[code].clicks + |nows|
      && db'.tracking[code].originalUrl == db.tracking[code].originalUrl
      && (nows != [] ==> db'.tracking[code].lastClickAt == Some(nows[|nows| - 1]))
    decreases |nows|
  {
    if nows != [] {
      var db1 := Resolve(db, code, nows[0], NoFaults).0;
      ResolveCounts(db, code, nows[0], NoFaults);
      ResolveAllCounts(db1, code, nows[1..]);
      if |nows| > 1 {
        assert nows[1..][|nows[1..]| - 1] == nows[|nows| - 1];
      }
    }
  }

  /** A visit to a freshly created record redirects to its URL and counts
      the first click on both copies. */
  lemma VisitNewRecord(db: Db, userId: string, url: string, code: string, p: Platform, now: int, visitAt: int)
    requires url != "" && userId != ""
    requires code != "" && code in db.tracking && db.tracking[code] == CampaignTracking(userId, url, code, p, now)
    requires (userId, LinkIdFor(code, p)) in db.userLinks && db.userLinks[(userId, LinkIdFor(code, p))].clicks == 0
    ensures var (db', o) := Resolve(db, code, visitAt, NoFaults);
      && o == Redirecting(url)
      && code in db'.tracking && db'.tracking[code].clicks == 1
      && (userId, LinkIdFor(code, p)) in db'.userLinks
      && db'.userLinks[(userId, LinkIdFor(code, p))].clicks == 1
  {
    assert LinkIdFor(code, p) != "";
  }

  /** What a committed campaign of distinct codes stores for platform `i`. */
  lemma CampaignRecordOf(db: Db, userId: string, url: string, codes: seq<string>, now: int, i: nat)
    requires |codes| == |Platforms| && i < |codes|
    requires forall j :: 0 <= j < |codes| ==> |codes[j]| == CodeLength
    requires forall j, k :: 0 <= j < k < |codes| ==> codes[j] != codes[k]
    ensures var db1 := ApplyBatch(db, CampaignBatch(userId, url, codes, now));
      && codes[i] in db1.tracking && db1.tracking[codes[i]] == CampaignTracking(userId, url, codes[i], Platforms[i], now)
      && CampaignKey(userId, codes, i) in db1.userLinks
      && db1.userLinks[CampaignKey(userId, codes, i)] == CampaignLink(userId, url, codes[i], Platforms[i], now)
  {
    CampaignRecords(db, userId, url, codes, now);
    assert LastDraw(codes, i);
  }

  /** End to end: after a committed campaign of distinct codes, a visit to
      platform `i`'s code redirects to the normalized URL the user typed,
      and both that code's record and the platform's user link show one
      click. */
  lemma CampaignThenVisit(db: Db, userId: string, urlInput: string, codes: seq<string>, now: int, i: nat, visitAt: int)
    requires |codes| == |Platforms| && i < |codes| && userId != ""
    requires forall j :: 0 <= j < |codes| ==> |codes[j]| == CodeLength
    requires forall j, k :: 0 <= j < k < |codes| ==> codes[j] != codes[k]
    ensures var db1 := ApplyBatch(db, CampaignBatch(userId, NormalizeUrl(urlInput), codes, now));
      var (db2, o) := Resolve(db1, codes[i], visitAt, NoFaults);
      && o == Redirecting(NormalizeUrl(urlInput))
      && codes[i] in db2.tracking && db2.tracking[codes[i]].clicks == 1
      && CampaignKey(userId, codes, i) in db2.userLinks
      && db2.userLinks[CampaignKey(userId, codes, i)].clicks == 1
  {
    var url := NormalizeUrl(urlInput);
    CampaignRecordOf(db, userId, url, codes, now, i);
    VisitNewRecord(ApplyBatch(db, CampaignBatch(userId, url, codes, now)), userId, url, codes[i], Platforms[i], now, visitAt);
  }

  /** The redirect screen: its two state fields and the store it works on. */
  class RedirectView {
    var error: Option<string>
    var redirectUrl: Option<string>
    const store: LinkStore

    constructor (store: LinkStore)
      ensures error == None && redirectUrl == None && this.store == store
    {
      error := None;
      redirectUrl := None;
      this.store := store;
    }

    /** The effect that runs `trackAndRedirect` when the code is non-empty.
        The 500 ms delay before the browser leaves is not modelled; the
        target it leaves for is `redirectUrl`. */
    method TrackAndRedirect(shortCode: string, now: int, f: Faults) returns (outcome: RedirectOutcome)
      modifies this, store
      ensures (store.State(), outcome) == Resolve(old(store.State()), shortCode, now, f)
      ensures error == (if outcome == Idle || outcome.Redirecting? then old(error) else ErrorText(outcome))
      ensures redirectUrl == (if outcome.Redirecting? then Some(outcome.target) else old(redirectUrl))
    {
      if shortCode == "" {
        return Idle;
      }
      var doc := store.GetTracking(shortCode, f.lookupFails);
      if doc.None? {
        error := Some(ProcessingErrorText);
        return ProcessingError;
      }
      if doc.value.None? {
        error := Some(LinkNotFoundText);
        return NotFound;
      }
      var data := doc.value.value;
      if data.originalUrl.None? || data.originalUrl.value == "" {
        error := Some(InvalidLinkText);
        return InvalidLink;
      }
      var originalUrl := data.originalUrl.value;
      var counted := store.IncrementTracking(shortCode, now, f.incrementFails);
      if !counted {
        error := Some(ProcessingErrorText);
        return ProcessingError;
      }
      if data.userId.Some? && data.userId.value != "" && data.linkId.Some? && data.linkId.value != "" {
        var _ := store.IncrementUserLink(data.userId.value, data.linkId.value, f.mirrorFails);
      }
      redirectUrl := Some(originalUrl);
      outcome := Redirecting(originalUrl);
    }
  }
}
