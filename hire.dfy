/** The hiring screen (web/src/views/HireView.tsx): searching the
    published specialists, the category lists and counts, the user's own
    listing, and publishing, editing and deleting it. */
module Hire {
  import opened Types
  import opened Text

  /** `SpecialistData`: a stored listing, a `Specialist` with the category
      it is listed under and an optional description ("" when absent). */
  datatype SpecialistData = SpecialistData(spec: Specialist, categoryId: string, description: string)

  /** The six listing categories, in grid order. */
  const CategoryIds: seq<string> := ["marketing", "design", "smm", "dev", "copy", "video"]

  // ----- search -----

  /** A listing matches a query when its name or its role contains the
      lower-cased query, both compared lower-cased. The query itself is
      not trimmed. */
  predicate Matches(s: SpecialistData, query: string)
  {
    Contains(Lower(s.spec.name), Lower(query)) || Contains(Lower(s.spec.role), Lower(query))
  }

  /** A listing passes the search when the query is blank or it matches. */
  predicate Shown(s: SpecialistData, query: string)
  {
    IsBlank(query) || Matches(s, query)
  }

  /** `filteredSpecialists`: the listings that pass the search, in order. */
  function SearchFilter(specs: seq<SpecialistData>, query: string): (r: seq<SpecialistData>)
    ensures |r| <= |specs|
    ensures forall s :: s in r <==> s in specs && Shown(s, query)
  {
    if specs == [] then []
    else if Shown(specs[0], query) then [specs[0]] + SearchFilter(specs[1..], query)
    else SearchFilter(specs[1..], query)
  }

  /** A blank or white-space-only search keeps every listing. */
  lemma {:induction false} SearchBlankKeepsAll(specs: seq<SpecialistData>, query: string)
    requires IsBlank(query)
    ensures SearchFilter(specs, query) == specs
  {
    if specs != [] {
      SearchBlankKeepsAll(specs[1..], query);
      assert specs == [specs[0]] + specs[1..];
    }
  }

  /** The search keeps the original order: filtering a concatenation is
      the concatenation of the filtered parts. */
  lemma {:induction false} SearchAppend(a: seq<SpecialistData>, b: seq<SpecialistData>, query: string)
    ensures SearchFilter(a + b, query) == SearchFilter(a, query) + SearchFilter(b, query)
  {
    if a == [] {
      assert a + b == b;
    } else {
      assert (a + b)[1..] == a[1..] + b;
      SearchAppend(a[1..], b, query);
    }
  }

  // ----- categories -----

  /** The listings under category `cat`, in order. */
  function InCategory(specs: seq<SpecialistData>, cat: string): (r: seq<SpecialistData>)
    ensures |r| <= |specs|
    ensures forall s :: s in r <==> s in specs && s.categoryId == cat
  {
    if specs == [] then []
    else if specs[0].categoryId == cat then [specs[0]] + InCategory(specs[1..], cat)
    else InCategory(specs[1..], cat)
  }

  /** The list a category view shows: exactly the listings of that
      category that pass the search. */
  function CategoryList(specs: seq<SpecialistData>, query: string, cat: string): (r: seq<SpecialistData>)
    ensures forall s :: s in r <==> s in specs && Shown(s, query) && s.categoryId == cat
  {
    InCategory(SearchFilter(specs, query), cat)
  }

  /** The count on a category tile: all listings of the category, whatever
      the search. */
  function CategoryCount(specs: seq<SpecialistData>, cat: string): (n: nat)
    ensures n <= |specs|
    ensures n == 0 <==> forall s :: s in specs ==> s.categoryId != cat
  {
    var r := InCategory(specs, cat);
    assert r != [] ==> r[0] in r;
    |r|
  }

  /** Restricting to a category and searching can be done in either order. */
  lemma {:induction false} CategorySearchCommute(specs: seq<SpecialistData>, query: string, cat: string)
    ensures InCategory(SearchFilter(specs, query), cat) == SearchFilter(InCategory(specs, cat), query)
  {
    if specs != [] {
      CategorySearchCommute(specs[1..], query, cat);
    }
  }

  /** A category view never lists more than its tile counts, and with a
      blank search it lists exactly that many. */
  lemma CategoryListWithinCount(specs: seq<SpecialistData>, query: string, cat: string)
    ensures |CategoryList(specs, query, cat)| <= CategoryCount(specs, cat)
    ensures IsBlank(query) ==> |CategoryList(specs, query, cat)| == CategoryCount(specs, cat)
  {
    CategorySearchCommute(specs, query, cat);
    if IsBlank(query) {
      SearchBlankKeepsAll(InCategory(specs, cat), query);
    }
  }

  // ----- the user's own listing -----

  /** `myProfile`: the first listing whose id is the signed-in user's. */
  function MyProfile(specs: seq<SpecialistData>, user: Option<User>): (r: Option<SpecialistData>)
    ensures r.Some? ==> user.Some? && r.value in specs && r.value.spec.id == user.value.id
    ensures r.None? <==> user.None? || forall s :: s in specs ==> s.spec.id != user.value.id
  {
    if user.None? || specs == [] then None
    else if specs[0].spec.id == user.value.id then Some(specs[0])
    else MyProfile(specs[1..], user)
  }

  /** `myProfile` is the first listing with the user's id: the one at the
      first index holding that id. */
  lemma {:induction false} MyProfileFirst(specs: seq<SpecialistData>, user: Option<User>, k: int)
    requires user.Some? && 0 <= k < |specs| && specs[k].spec.id == user.value.id
    requires forall j :: 0 <= j < k ==> specs[j].spec.id != user.value.id
    ensures MyProfile(specs, user) == Some(specs[k])
  {
    if k > 0 {
      assert specs[0].spec.id != user.value.id;
      assert forall j :: 0 <= j < k - 1 ==> specs[1..][j] == specs[j + 1];
      MyProfileFirst(specs[1..], user, k - 1);
    }
  }

  // ----- prices -----

  /** The published price: the entered digits, a tenge sign and the
      per-hour unit in the screen's language. */
  function FormatPrice(price: string, ru: bool): (r: string)
    ensures StartsWith(r, price)
  {
    price + " ₸/" + (if ru then "час" else "hr")
  }

  /** The price unit contains no digits. */
  lemma PriceUnitHasNoDigits(ru: bool)
    ensures DigitsOf(" ₸/" + (if ru then "час" else "hr")) == []
  {
    var u := " ₸/" + (if ru then "час" else "hr");
    assert forall i :: 0 <= i < |u| ==> !IsDigit(u[i]);
    NoDigitsStripToEmpty(u);
  }

  lemma {:induction false} NoDigitsStripToEmpty(s: string)
    requires forall i :: 0 <= i < |s| ==> !IsDigit(s[i])
    ensures DigitsOf(s) == []
  {
    if s != [] {
      assert forall i :: 0 <= i < |s[1..]| ==> s[1..][i] == s[i + 1];
      NoDigitsStripToEmpty(s[1..]);
    }
  }

  /** Editing strips the published price back to the digits of what was
      entered; in particular an all-digit entry comes back unchanged. */
  lemma PriceRoundTrip(price: string, ru: bool)
    ensures DigitsOf(FormatPrice(price, ru)) == DigitsOf(price)
    ensures AllDigits(price) ==> DigitsOf(FormatPrice(price, ru)) == price
  {
    var unit := " ₸/" + (if ru then "час" else "hr");
    assert FormatPrice(price, ru) == price + unit;
    DigitsOfAppend(price, unit);
    PriceUnitHasNoDigits(ru);
    assert DigitsOf(price) + [] == DigitsOf(price);
    if AllDigits(price) {
      DigitsOfDigits(price);
    }
  }

  // ----- the registration form -----

  /** The registration form. */
  datatype Form = Form(role: string, price: string, categoryId: string, description: string)

  const DefaultForm: Form := Form("", "", "marketing", "")

  /** Publishing needs a role and a price. */
  predicate Publishable(f: Form)
  {
    f.role != "" && f.price != ""
  }

  /** The listing `handlePublishProfile` writes for `user` from form `f`:
      stored under the user's id, with rating 5.0, online, and the single
      skill `Pro`. */
  function Published(user: User, f: Form, ru: bool): (r: SpecialistData)
    ensures r.spec.id == user.id && r.spec.name == user.name
    ensures r.spec.rating == 50 && r.spec.online && r.spec.skills == ["Pro"]
    ensures r.spec.role == f.role && r.categoryId == f.categoryId && r.description == f.description
    ensures DigitsOf(r.spec.price) == DigitsOf(f.price)
  {
    PriceRoundTrip(f.price, ru);
    SpecialistData(
      Specialist(user.id, user.name, f.role,
                 if user.avatar.Some? then user.avatar.value else "",
                 50, FormatPrice(f.price, ru), ["Pro"], true),
      f.categoryId, f.description)
  }

  /** The form `handleEditProfile` fills from a listing: the price stripped
      to its digits, a missing category read as `marketing`. */
  function EditForm(p: SpecialistData): (f: Form)
    ensures AllDigits(f.price) && f.categoryId != ""
  {
    Form(p.spec.role, DigitsOf(p.spec.price),
         if p.categoryId == "" then "marketing" else p.categoryId,
         p.description)
  }

  /** Editing a published listing gives back the form it was published
      from, with the price reduced to its digits. */
  lemma EditPublishedRoundTrip(user: User, f: Form, ru: bool)
    requires f.categoryId != ""
    ensures EditForm(Published(user, f, ru)) == f.(price := DigitsOf(f.price))
    ensures AllDigits(f.price) ==> EditForm(Published(user, f, ru)) == f
  {
    PriceRoundTrip(f.price, ru);
  }

  /** The hiring screen. `specialists` is the latest snapshot of the stored
      listings; `docs` holds the stored listings by document id. */
  class HireScreen {
    var user: Option<User>
    const ru: bool
    var specialists: seq<SpecialistData>
    var docs: map<string, SpecialistData>
    var selectedCategory: Option<string>
    var isRegistering: bool
    var searchQuery: string
    var formData: Form

    constructor (user: Option<User>, ru: bool, docs: map<string, SpecialistData>)
      ensures this.user == user && this.ru == ru && this.docs == docs
      ensures specialists == [] && selectedCategory == None && !isRegistering
      ensures searchQuery == "" && formData == DefaultForm
    {
      this.user := user;
      this.ru := ru;
      specialists := [];
      this.docs := docs;
      selectedCategory := None;
      isRegistering := false;
      searchQuery := "";
      formData := DefaultForm;
    }

    /** A new snapshot of the stored listings replaces the list. */
    method OnSnapshot(data: seq<SpecialistData>)
      modifies this
      ensures specialists == data
      ensures docs == old(docs) && formData == old(formData) && selectedCategory == old(selectedCategory)
      ensures isRegistering == old(isRegistering) && searchQuery == old(searchQuery) && user == old(user)
    {
      specialists := data;
    }

    method SetSearchQuery(q: string)
      modifies this
      ensures searchQuery == q
      ensures specialists == old(specialists) && docs == old(docs) && formData == old(formData)
      ensures selectedCategory == old(selectedCategory) && isRegistering == old(isRegistering) && user == old(user)
    {
      searchQuery := q;
    }

    /** Opening a category tile, or going back to the grid with `None`. */
    method SelectCategory(cat: Option<string>)
      modifies this
      ensures selectedCategory == cat
      ensures specialists == old(specialists) && docs == old(docs) && formData == old(formData)
      ensures isRegistering == old(isRegistering) && searchQuery == old(searchQuery) && user == old(user)
    {
      selectedCategory := cat;
    }

    /** `handleEditProfile`: with a listing of one's own, fill the form from
        it and open the registration form; otherwise nothing changes. */
    method HandleEditProfile()
      modifies this
      ensures MyProfile(old(specialists), old(user)).Some? ==>
        formData == EditForm(MyProfile(old(specialists), old(user)).value) && isRegistering
      ensures MyProfile(old(specialists), old(user)).None? ==>
        formData == old(formData) && isRegistering == old(isRegistering)
      ensures specialists == old(specialists) && docs == old(docs) && selectedCategory == old(selectedCategory)
      ensures searchQuery == old(searchQuery) && user == old(user)
    {
      var mine := MyProfile(specialists, user);
      if mine.Some? {
        formData := EditForm(mine.value);
        isRegistering := true;
      }
    }

    /** `handleDeleteProfile`: with a user and a confirmation, the listing
        stored under the user's id is deleted, unless the delete fails. */
    method HandleDeleteProfile(confirmed: bool, deleteFails: bool)
      modifies this
      ensures docs == if old(user).Some? && confirmed && !deleteFails
                      then old(docs) - {old(user).value.id} else old(docs)
      ensures specialists == old(specialists) && formData == old(formData) && selectedCategory == old(selectedCategory)
      ensures isRegistering == old(isRegistering) && searchQuery == old(searchQuery) && user == old(user)
    {
      if user.None? {
        return;
      }
      if confirmed && !deleteFails {
        docs := docs - {user.value.id};
      }
    }

    /** `handlePublishProfile`: without a user, or with an empty role or
        price, nothing is written. Otherwise the listing is written under
        the user's id, replacing any earlier one; when the write succeeds
        the form closes and the listing's category opens. */
    method HandlePublishProfile(writeFails: bool) returns (written: bool)
      modifies this
      ensures written <==> old(user).Some? && Publishable(old(formData)) && !writeFails
      ensures written ==>
        && docs == old(docs)[old(user).value.id := Published(old(user).value, old(formData), ru)]
        && !isRegistering && selectedCategory == Some(old(formData).categoryId)
      ensures !written ==>
        docs == old(docs) && isRegistering == old(isRegistering) && selectedCategory == old(selectedCategory)
      ensures specialists == old(specialists) && formData == old(formData)
      ensures searchQuery == old(searchQuery) && user == old(user)
    {
      written := false;
      if user.None? {
        return;
      }
      if formData.role == "" || formData.price == "" {
        return;
      }
      var listing := Published(user.value, formData, ru);
      if writeFails {
        return;
      }
      docs := docs[user.value.id := listing];
      isRegistering := false;
      selectedCategory := Some(formData.categoryId);
      written := true;
    }
  }
}
