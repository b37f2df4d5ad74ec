/** Course catalogue browsing (web/src/views/CoursesView.tsx): which screen a
    course opens on, the way back through the course tree, lesson totals,
    the "my courses" and category filters, grouping of the catalogue, one
    rating per user, and the homework box. */
module Courses {
  import opened Types

  // ----- screens -----

  /** `viewState` of the catalogue. */
  datatype Screen = List | CourseLanding | CourseDetail | CategoryView | DayView | LessonPlayer | RateCourse

  /** `isUserOwner`: a signed-in, non-guest user who wrote the course. */
  predicate IsUserOwner(c: Course, user: Option<User>)
  {
    user.Some? && !user.value.isGuest && c.authorId == user.value.id
  }

  predicate IsPurchased(c: Course, user: Option<User>)
  {
    user.Some? && c.id in user.value.purchasedCourseIds
  }

  /** The screen a click on a course opens. */
  function ScreenForCourse(c: Course, user: Option<User>): (s: Screen)
    ensures s == CourseDetail <==> IsUserOwner(c, user) || IsPurchased(c, user)
    ensures s == CourseLanding <==> !IsUserOwner(c, user) && !IsPurchased(c, user)
  {
    if IsUserOwner(c, user) || IsPurchased(c, user) then CourseDetail else CourseLanding
  }

  /** One step of `handleInternalBack`: the screen it goes to, or `None`
      when it leaves the catalogue through `onBack`. */
  function BackScreen(s: Screen): (r: Option<Screen>)
  {
    match s
    case LessonPlayer => Some(DayView)
    case DayView => Some(CategoryView)
    case CategoryView => Some(CourseDetail)
    case RateCourse => Some(CourseDetail)
    case CourseDetail => Some(List)
    case CourseLanding => Some(List)
    case List => None
  }

  /** How many back steps lead from a screen to the list. */
  function Depth(s: Screen): nat
  {
    match s
    case List => 0
    case CourseLanding => 1
    case CourseDetail => 1
    case CategoryView => 2
    case RateCourse => 2
    case DayView => 3
    case LessonPlayer => 4
  }

  /** Going back always moves one level up the course tree, and only the
      list leaves the catalogue. */
  lemma BackGoesUp(s: Screen)
    ensures BackScreen(s).None? <==> s == List
    ensures BackScreen(s).Some? ==> Depth(BackScreen(s).value) == Depth(s) - 1
  {
  }

  /** The screen reached after `n` back steps (staying at the list). */
  function BackSteps(s: Screen, n: nat): Screen
    decreases n
  {
    if n == 0 then s
    else match BackScreen(s)
      case None => s
      case Some(t) => BackSteps(t, n - 1)
  }

  /** From any screen, `Depth(s)` back steps reach the list, so at most
      four presses return to the catalogue and one more leaves it. */
  lemma {:induction false} BackReachesList(s: Screen)
    ensures BackSteps(s, Depth(s)) == List
    ensures Depth(s) <= 4
    decreases Depth(s)
  {
    if s != List {
      BackGoesUp(s);
      BackReachesList(BackScreen(s).value);
    }
  }

  // ----- lesson totals -----

  function DayLessons(days: seq<CourseDay>): nat
  {
    if days == [] then 0 else |days[0].lessons| + DayLessons(days[1..])
  }

  function CategoryLessons(categories: seq<CourseCategory>): nat
  {
    if categories == [] then 0 else DayLessons(categories[0].days) + CategoryLessons(categories[1..])
  }

  /** `getTotalLessons`: the lessons of every day of every category, or the
      legacy flat list when there are no categories. */
  function TotalLessons(c: Course): (n: nat)
    ensures n == if |c.categories| > 0 then |LessonsOfCategories(c.categories)| else |c.lessons|
  {
    TotalCountsTree(c.categories);
    if |c.categories| > 0 then CategoryLessons(c.categories) else |c.lessons|
  }

  /** Every lesson of a list of days, in order. */
  function LessonsOfDays(days: seq<CourseDay>): seq<CourseLesson>
  {
    if days == [] then [] else days[0].lessons + LessonsOfDays(days[1..])
  }

  /** Every lesson of the tree, in order. */
  function LessonsOfCategories(categories: seq<CourseCategory>): seq<CourseLesson>
  {
    if categories == [] then [] else LessonsOfDays(categories[0].days) + LessonsOfCategories(categories[1..])
  }

  /** The totals count exactly the lessons listed in the tree. */
  lemma {:induction false} TotalCountsTree(categories: seq<CourseCategory>)
    ensures CategoryLessons(categories) == |LessonsOfCategories(categories)|
  {
    if categories != [] {
      DayLessonsCount(categories[0].days);
      TotalCountsTree(categories[1..]);
    }
  }

  lemma {:induction false} DayLessonsCount(days: seq<CourseDay>)
    ensures DayLessons(days) == |LessonsOfDays(days)|
  {
    if days != [] {
      DayLessonsCount(days[1..]);
    }
  }

  lemma {:induction false} DayLessonsAppend(a: seq<CourseDay>, b: seq<CourseDay>)
    ensures DayLessons(a + b) == DayLessons(a) + DayLessons(b)
  {
    if a == [] {
      assert a + b == b;
    } else {
      assert (a + b)[1..] == a[1..] + b;
      DayLessonsAppend(a[1..], b);
    }
  }

  lemma {:induction false} CategoryLessonsAppend(a: seq<CourseCategory>, b: seq<CourseCategory>)
    ensures CategoryLessons(a + b) == CategoryLessons(a) + CategoryLessons(b)
  {
    if a == [] {
      assert a + b == b;
    } else {
      assert (a + b)[1..] == a[1..] + b;
      CategoryLessonsAppend(a[1..], b);
    }
  }

  /** Replacing one day by another changes the total by the difference of
      their lesson counts. */
  lemma {:induction false} DayLessonsReplace(days: seq<CourseDay>, i: int, d: CourseDay)
    requires 0 <= i < |days|
    ensures DayLessons(days[i := d]) + |days[i].lessons| == DayLessons(days) + |d.lessons|
  {
    if i > 0 {
      assert days[i := d][1..] == days[1..][i - 1 := d];
      DayLessonsReplace(days[1..], i - 1, d);
    } else {
      assert days[i := d][1..] == days[1..];
    }
  }

  /** Replacing one category by another changes the total by the difference
      of their lesson counts. */
  lemma {:induction false} CategoryLessonsReplace(categories: seq<CourseCategory>, i: int, c: CourseCategory)
    requires 0 <= i < |categories|
    ensures CategoryLessons(categories[i := c]) + DayLessons(categories[i].days)
         == CategoryLessons(categories) + DayLessons(c.days)
  {
    if i > 0 {
      assert categories[i := c][1..] == categories[1..][i - 1 := c];
      CategoryLessonsReplace(categories[1..], i - 1, c);
    } else {
      assert categories[i := c][1..] == categories[1..];
    }
  }

  // ----- filters -----

  /** A course is "mine" when it is purchased or written by the user (here
      the author test needs no non-guest check). */
  predicate IsMine(c: Course, user: Option<User>)
  {
    IsPurchased(c, user) || (user.Some? && c.authorId == user.value.id)
  }

  /** `myCourses`. */
  function MyCourses(courses: seq<Course>, user: Option<User>): (r: seq<Course>)
    ensures |r| <= |courses|
    ensures forall c :: c in r <==> c in courses && IsMine(c, user)
  {
    if courses == [] then []
    else
      var rest := MyCourses(courses[1..], user);
      assert forall c :: c in courses <==> c == courses[0] || c in courses[1..];
      if IsMine(courses[0], user) then [courses[0]] + rest else rest
  }

  /** The courses whose `mainCategory` is `category`. */
  function WithCategory(courses: seq<Course>, category: string): (r: seq<Course>)
    ensures |r| <= |courses|
    ensures forall c :: c in r <==> c in courses && c.mainCategory == Some(category)
  {
    if courses == [] then []
    else
      var rest := WithCategory(courses[1..], category);
      assert forall c :: c in courses <==> c == courses[0] || c in courses[1..];
      if courses[0].mainCategory == Some(category) then [courses[0]] + rest else rest
  }

  /** `filteredCourses`: "my courses" or all of them, narrowed to a category
      when a (non-empty) category filter is set. */
  function FilteredCourses(courses: seq<Course>, user: Option<User>, myOnly: bool, categoryFilter: Option<string>): (r: seq<Course>)
    ensures forall c :: c in r ==> c in courses
    ensures myOnly ==> forall c :: c in r ==> IsMine(c, user)
    ensures categoryFilter.Some? && categoryFilter.value != "" ==>
      forall c :: c in r <==> c in courses && (!myOnly || IsMine(c, user)) && c.mainCategory == categoryFilter
    ensures categoryFilter.None? || categoryFilter.value == "" ==>
      r == (if myOnly then MyCourses(courses, user) else courses)
  {
    var result := if myOnly then MyCourses(courses, user) else courses;
    if categoryFilter.Some? && categoryFilter.value != "" then WithCategory(result, categoryFilter.value)
    else result
  }

  // ----- grouping -----

  /** The ids of `ALL_CATEGORIES`, in display order. */
  const CategoryIds: seq<string> := ["Design", "Marketing", "Programming", "Business", "SMM", "Language", "Other"]

  /** The group a course is listed under: its `mainCategory` when that is
      one of the known ids, otherwise `Other`. */
  function GroupOf(c: Course): (g: string)
    ensures g in CategoryIds
  {
    var category := if c.mainCategory.Some? && c.mainCategory.value != "" then c.mainCategory.value else "Other";
    if category in CategoryIds then category else "Other"
  }

  /** The courses of group `g`, in catalogue order. */
  function InGroup(courses: seq<Course>, g: string): (r: seq<Course>)
    ensures forall c :: c in r <==> c in courses && GroupOf(c) == g
  {
    if courses == [] then []
    else
      var init := courses[..|courses| - 1];
      var last := courses[|courses| - 1];
      assert courses == init + [last];
      InGroup(init, g) + (if GroupOf(last) == g then [last] else [])
  }

  /** Adding a course at the end adds it to the end of its own group and
      to no other. */
  lemma InGroupSnoc(courses: seq<Course>, c: Course)
    ensures forall g :: InGroup(courses + [c], g) == InGroup(courses, g) + (if GroupOf(c) == g then [c] else [])
  {
    var s := courses + [c];
    assert s[..|s| - 1] == courses;
  }

  /** The first half of `groupedCourses`: an empty list for every known
      category. */
  method EmptyGroups() returns (groups: map<string, seq<Course>>)
    ensures forall g :: g in groups <==> g in CategoryIds
    ensures forall g :: g in groups ==> groups[g] == []
  {
    groups := map[];
    for k := 0 to |CategoryIds|
      invariant forall g :: g in groups <==> g in CategoryIds[..k]
      invariant forall g :: g in groups ==> groups[g] == []
    {
      assert CategoryIds[..k + 1] == CategoryIds[..k] + [CategoryIds[k]];
      groups := groups[CategoryIds[k] := []];
    }
    assert CategoryIds[..|CategoryIds|] == CategoryIds;
  }

  /** One step of `groupedCourses`: the course is pushed onto the list of
      its category when that list exists, otherwise onto `Other`. */
  method PushCourse(groups: map<string, seq<Course>>, course: Course) returns (groups': map<string, seq<Course>>)
    requires forall g :: g in groups <==> g in CategoryIds
    ensures groups' == groups[GroupOf(course) := groups[GroupOf(course)] + [course]]
  {
    var category := if course.mainCategory.Some? && course.mainCategory.value != "" then course.mainCategory.value else "Other";
    if category in groups {
      groups' := groups[category := groups[category] + [course]];
    } else {
      groups' := groups["Other" := groups["Other"] + [course]];
    }
  }

  /** `groupedCourses`: every known category gets a list, filled in
      catalogue order. */
  method GroupCourses(coursesToGroup: seq<Course>) returns (groups: map<string, seq<Course>>)
    ensures forall g :: g in groups <==> g in CategoryIds
    ensures forall g :: g in groups ==> groups[g] == InGroup(coursesToGroup, g)
  {
    groups := EmptyGroups();
    for i := 0 to |coursesToGroup|
      invariant forall g :: g in groups <==> g in CategoryIds
      invariant forall g :: g in groups ==> groups[g] == InGroup(coursesToGroup[..i], g)
    {
      var course := coursesToGroup[i];
      InGroupSnoc(coursesToGroup[..i], course);
      assert coursesToGroup[..i + 1] == coursesToGroup[..i] + [course];
      groups := PushCourse(groups, course);
    }
    assert coursesToGroup[..|coursesToGroup|] == coursesToGroup;
  }

  /** How many times `x` occurs in `s`. */
  function Occurrences(s: seq<string>, x: string): nat
  {
    if s == [] then 0 else (if s[0] == x then 1 else 0) + Occurrences(s[1..], x)
  }

  /** The total size of the groups named by `gs`. */
  function GroupSizes(courses: seq<Course>, gs: seq<string>): nat
  {
    if gs == [] then 0 else |InGroup(courses, gs[0])| + GroupSizes(courses, gs[1..])
  }

  lemma {:induction false} GroupSizesSnoc(courses: seq<Course>, c: Course, gs: seq<string>)
    ensures GroupSizes(courses + [c], gs) == GroupSizes(courses, gs) + Occurrences(gs, GroupOf(c))
  {
    if gs != [] {
      var s := courses + [c];
      assert s[..|s| - 1] == courses;
      GroupSizesSnoc(courses, c, gs[1..]);
    }
  }

  lemma OccursOnce(g: string)
    requires g in CategoryIds
    ensures Occurrences(CategoryIds, g) == 1
  {
  }

  /** The groups split the grouped courses: their sizes add up to the
      number of courses, and each course is in its own group only. */
  lemma {:induction false} GroupsPartition(courses: seq<Course>)
    ensures GroupSizes(courses, CategoryIds) == |courses|
    ensures forall c, g :: c in courses && g in CategoryIds ==> (c in InGroup(courses, g) <==> g == GroupOf(c))
  {
    if courses == [] {
      EmptyGroupSizes(CategoryIds);
    } else {
      var init := courses[..|courses| - 1];
      var last := courses[|courses| - 1];
      assert courses == init + [last];
      GroupsPartition(init);
      GroupSizesSnoc(init, last, CategoryIds);
      OccursOnce(GroupOf(last));
    }
  }

  lemma {:induction false} EmptyGroupSizes(gs: seq<string>)
    ensures GroupSizes([], gs) == 0
  {
    if gs != [] {
      EmptyGroupSizes(gs[1..]);
    }
  }

  // ----- ratings -----

  /** The ratings of users other than `userId`, in order. */
  function OtherRaters(ratings: seq<CourseRating>, userId: string): (r: seq<CourseRating>)
    ensures |r| <= |ratings|
    ensures forall x :: x in r <==> x in ratings && x.oderId != userId
  {
    if ratings == [] then []
    else
      var rest := OtherRaters(ratings[1..], userId);
      assert forall x :: x in ratings <==> x == ratings[0] || x in ratings[1..];
      if ratings[0].oderId != userId then [ratings[0]] + rest else rest
  }

  /** The ratings list after `submitRating`: the rater's earlier entries are
      dropped and the new one goes last. */
  function UpsertRating(ratings: seq<CourseRating>, newRating: CourseRating): (r: seq<CourseRating>)
    ensures 1 <= |r| <= |ratings| + 1 && r[|r| - 1] == newRating
    ensures forall x :: x in r ==> x == newRating || x in ratings
  {
    OtherRaters(ratings, newRating.oderId) + [newRating]
  }

  /** The rater has exactly one entry afterwards, the new one, placed last;
      every other user's rating is kept, and nothing else is added. */
  lemma UpsertOnePerUser(ratings: seq<CourseRating>, newRating: CourseRating)
    ensures var r := UpsertRating(ratings, newRating);
      && r[|r| - 1] == newRating
      && (forall i :: 0 <= i < |r| ==> (r[i].oderId == newRating.oderId <==> i == |r| - 1))
      && (forall x :: x in ratings && x.oderId != newRating.oderId ==> x in r)
      && (forall x :: x in r ==> x == newRating || x in ratings)
  {
    var r := UpsertRating(ratings, newRating);
    var others := OtherRaters(ratings, newRating.oderId);
    assert forall i :: 0 <= i < |others| ==> r[i] == others[i] && others[i] in others;
  }

  /** Rating twice replaces the first rating by the second. */
  lemma {:induction false} UpsertTwice(ratings: seq<CourseRating>, a: CourseRating, b: CourseRating)
    requires a.oderId == b.oderId
    ensures UpsertRating(UpsertRating(ratings, a), b) == UpsertRating(ratings, b)
  {
    OtherRatersSnoc(OtherRaters(ratings, a.oderId), a, a.oderId);
    OtherRatersIdempotent(ratings, a.oderId);
  }

  lemma {:induction false} OtherRatersSnoc(ratings: seq<CourseRating>, x: CourseRating, userId: string)
    ensures OtherRaters(ratings + [x], userId) == OtherRaters(ratings, userId) + (if x.oderId != userId then [x] else [])
  {
    if ratings == [] {
      assert ratings + [x] == [x];
    } else {
      assert (ratings + [x])[1..] == ratings[1..] + [x];
      OtherRatersSnoc(ratings[1..], x, userId);
    }
  }

  lemma {:induction false} OtherRatersIdempotent(ratings: seq<CourseRating>, userId: string)
    ensures OtherRaters(OtherRaters(ratings, userId), userId) == OtherRaters(ratings, userId)
  {
    if ratings != [] {
      OtherRatersIdempotent(ratings[1..], userId);
    }
  }

  /** The catalogue screen's state. `tabBarShown` is the last value handed
      to `onToggleTabBar`; `storedRatings` is the `ratings` field of the
      stored course records, by course id. */
  class Browser {
    const user: Option<User>
    var screen: Screen
    var selectedCourse: Option<Course>
    var selectedCategory: Option<CourseCategory>
    var selectedDay: Option<CourseDay>
    var selectedLesson: Option<CourseLesson>
    var homeworkText: string
    var homeworkSent: bool
    var ratingValue: int
    var ratingComment: string
    var tabBarShown: bool
    var storedRatings: map<string, seq<CourseRating>>

    constructor (user: Option<User>, storedRatings: map<string, seq<CourseRating>>)
      ensures this.user == user && screen == List && this.storedRatings == storedRatings
      ensures selectedCourse == None && selectedCategory == None && selectedDay == None && selectedLesson == None
      ensures homeworkText == "" && !homeworkSent && ratingValue == 5 && ratingComment == "" && tabBarShown
    {
      this.user := user;
      screen := List;
      selectedCourse := None;
      selectedCategory := None;
      selectedDay := None;
      selectedLesson := None;
      homeworkText := "";
      homeworkSent := false;
      ratingValue := 5;
      ratingComment := "";
      tabBarShown := true;
      this.storedRatings := storedRatings;
    }

    /** `handleCourseClick`: owners and buyers see the course, everyone else
        its sales page; the tab bar is hidden. */
    method HandleCourseClick(c: Course)
      modifies this
      ensures selectedCourse == Some(c) && screen == ScreenForCourse(c, user) && !tabBarShown
      ensures selectedCategory == old(selectedCategory) && selectedDay == old(selectedDay)
      ensures selectedLesson == old(selectedLesson) && storedRatings == old(storedRatings)
      ensures homeworkText == old(homeworkText) && homeworkSent == old(homeworkSent)
      ensures ratingValue == old(ratingValue) && ratingComment == old(ratingComment)
    {
      selectedCourse := Some(c);
      var isOwner := user.Some? && !user.value.isGuest && c.authorId == user.value.id;
      var isPurchased := user.Some? && c.id in user.value.purchasedCourseIds;
      tabBarShown := false;
      if isOwner || isPurchased {
        screen := CourseDetail;
      } else {
        screen := CourseLanding;
      }
    }

    method HandleCategoryClick(category: CourseCategory)
      modifies this
      ensures selectedCategory == Some(category) && screen == CategoryView
      ensures selectedCourse == old(selectedCourse) && selectedDay == old(selectedDay)
      ensures selectedLesson == old(selectedLesson) && storedRatings == old(storedRatings)
      ensures homeworkText == old(homeworkText) && homeworkSent == old(homeworkSent)
      ensures ratingValue == old(ratingValue) && ratingComment == old(ratingComment)
      ensures tabBarShown == old(tabBarShown)
    {
      selectedCategory := Some(category);
      screen := CategoryView;
    }

    method HandleDayClick(day: CourseDay)
      modifies this
      ensures selectedDay == Some(day) && screen == DayView
      ensures selectedCourse == old(selectedCourse) && selectedCategory == old(selectedCategory)
      ensures selectedLesson == old(selectedLesson) && storedRatings == old(storedRatings)
      ensures homeworkText == old(homeworkText) && homeworkSent == old(homeworkSent)
      ensures ratingValue == old(ratingValue) && ratingComment == old(ratingComment)
      ensures tabBarShown == old(tabBarShown)
    {
      selectedDay := Some(day);
      screen := DayView;
    }

    /** `handleLessonClick`: opening a lesson clears the homework box. */
    method HandleLessonClick(lesson: CourseLesson)
      modifies this
      ensures selectedLesson == Some(lesson) && screen == LessonPlayer
      ensures homeworkText == "" && !homeworkSent
      ensures selectedCourse == old(selectedCourse) && selectedCategory == old(selectedCategory)
      ensures selectedDay == old(selectedDay) && storedRatings == old(storedRatings)
      ensures ratingValue == old(ratingValue) && ratingComment == old(ratingComment)
      ensures tabBarShown == old(tabBarShown)
    {
      selectedLesson := Some(lesson);
      screen := LessonPlayer;
      homeworkText := "";
      homeworkSent := false;
    }

    /** `handleInternalBack`. `leaves` is true when it hands over to `onBack`. */
    method HandleInternalBack() returns (leaves: bool)
      modifies this
      ensures leaves <==> BackScreen(old(screen)).None?
      ensures !leaves ==> screen == BackScreen(old(screen)).value
      ensures leaves ==> screen == old(screen) && tabBarShown
      ensures old(screen) == LessonPlayer ==> selectedLesson == None
      ensures old(screen) != LessonPlayer ==> selectedLesson == old(selectedLesson)
      ensures old(screen) == DayView ==> selectedDay == None
      ensures old(screen) == CategoryView ==> selectedCategory == None
      ensures old(screen) in {CourseDetail, CourseLanding} ==>
        selectedCourse == None && selectedCategory == None && selectedDay == None && tabBarShown
      ensures old(screen) !in {CourseDetail, CourseLanding} ==> selectedCourse == old(selectedCourse)
      ensures old(screen) !in {CourseDetail, CourseLanding, CategoryView} ==> selectedCategory == old(selectedCategory)
      ensures old(screen) !in {CourseDetail, CourseLanding, DayView} ==> selectedDay == old(selectedDay)
      ensures old(screen) !in {CourseDetail, CourseLanding, List} ==> tabBarShown == old(tabBarShown)
      ensures storedRatings == old(storedRatings)
      ensures homeworkText == old(homeworkText) && homeworkSent == old(homeworkSent)
      ensures ratingValue == old(ratingValue) && ratingComment == old(ratingComment)
    {
      leaves := false;
      if screen == LessonPlayer {
        screen := DayView;
        selectedLesson := None;
      } else if screen == DayView {
        screen := CategoryView;
        selectedDay := None;
      } else if screen == CategoryView {
        screen := CourseDetail;
        selectedCategory := None;
      } else if screen == RateCourse {
        screen := CourseDetail;
      } else if screen == CourseDetail || screen == CourseLanding {
        screen := List;
        selectedCourse := None;
        selectedCategory := None;
        selectedDay := None;
        tabBarShown := true;
      } else {
        tabBarShown := true;
        leaves := true;
      }
    }

    /** The "rate" button on the course screen. */
    method OpenRating()
      modifies this
      ensures screen == RateCourse && storedRatings == old(storedRatings)
      ensures selectedCourse == old(selectedCourse) && selectedCategory == old(selectedCategory)
      ensures selectedDay == old(selectedDay) && selectedLesson == old(selectedLesson)
      ensures homeworkText == old(homeworkText) && homeworkSent == old(homeworkSent)
      ensures ratingValue == old(ratingValue) && ratingComment == old(ratingComment)
      ensures tabBarShown == old(tabBarShown)
    {
      screen := RateCourse;
    }

    /** A star on the rating screen. */
    method SetRatingValue(star: int)
      modifies this
      ensures ratingValue == star && ratingComment == old(ratingComment)
      ensures screen == old(screen) && storedRatings == old(storedRatings)
      ensures selectedCourse == old(selectedCourse) && selectedCategory == old(selectedCategory)
      ensures selectedDay == old(selectedDay) && selectedLesson == old(selectedLesson)
      ensures homeworkText == old(homeworkText) && homeworkSent == old(homeworkSent)
      ensures tabBarShown == old(tabBarShown)
    {
      ratingValue := star;
    }

    method SetRatingComment(comment: string)
      modifies this
      ensures ratingComment == comment && ratingValue == old(ratingValue)
      ensures screen == old(screen) && storedRatings == old(storedRatings)
      ensures selectedCourse == old(selectedCourse) && selectedCategory == old(selectedCategory)
      ensures selectedDay == old(selectedDay) && selectedLesson == old(selectedLesson)
      ensures homeworkText == old(homeworkText) && homeworkSent == old(homeworkSent)
      ensures tabBarShown == old(tabBarShown)
    {
      ratingComment := comment;
    }

    /** `submitRating`: the rating of the selected course is replaced or
        added in the stored record. It does nothing without a course or a
        user; the update of a record that is not stored fails, and then
        the screen stays as it is. The list is built from the selected
        course's copy of the ratings, as the code does. */
    method SubmitRating(now: int) returns (written: bool)
      modifies this
      ensures written <==> old(selectedCourse).Some? && user.Some? && old(selectedCourse).value.id in old(storedRatings)
      ensures written ==>
        var c := old(selectedCourse).value;
        var u := user.value;
        && storedRatings == old(storedRatings)[c.id := UpsertRating(c.ratings, CourseRating(u.id, u.name, u.avatar, old(ratingValue), old(ratingComment), now))]
        && ratingComment == "" && screen == CourseDetail
      ensures !written ==> storedRatings == old(storedRatings) && ratingComment == old(ratingComment) && screen == old(screen)
      ensures ratingValue == old(ratingValue)
      ensures selectedCourse == old(selectedCourse) && selectedCategory == old(selectedCategory)
      ensures selectedDay == old(selectedDay) && selectedLesson == old(selectedLesson)
      ensures homeworkText == old(homeworkText) && homeworkSent == old(homeworkSent)
      ensures tabBarShown == old(tabBarShown)
    {
      if selectedCourse.None? || user.None? {
        return false;
      }
      var u := user.value;
      var newRating := CourseRating(u.id, u.name, u.avatar, ratingValue, ratingComment, now);
      var existingRatings := selectedCourse.value.ratings;
      var updatedRatings := OtherRaters(existingRatings, u.id) + [newRating];
      if selectedCourse.value.id !in storedRatings {
        return false;
      }
      storedRatings := storedRatings[selectedCourse.value.id := updatedRatings];
      ratingComment := "";
      screen := CourseDetail;
      written := true;
    }

    method SetHomeworkText(text: string)
      modifies this
      ensures homeworkText == text && homeworkSent == old(homeworkSent) && screen == old(screen)
      ensures selectedCourse == old(selectedCourse) && selectedCategory == old(selectedCategory)
      ensures selectedDay == old(selectedDay) && selectedLesson == old(selectedLesson)
      ensures ratingValue == old(ratingValue) && ratingComment == old(ratingComment)
      ensures tabBarShown == old(tabBarShown)
      ensures storedRatings == old(storedRatings)
    {
      homeworkText := text;
    }

    /** The homework "send" button marks the work sent only when some text
        was entered. */
    method SendHomework()
      modifies this
      ensures homeworkSent <==> old(homeworkSent) || old(homeworkText) != ""
      ensures homeworkText == old(homeworkText) && screen == old(screen)
      ensures selectedCourse == old(selectedCourse) && selectedCategory == old(selectedCategory)
      ensures selectedDay == old(selectedDay) && selectedLesson == old(selectedLesson)
      ensures ratingValue == old(ratingValue) && ratingComment == old(ratingComment)
      ensures tabBarShown == old(tabBarShown)
      ensures storedRatings == old(storedRatings)
    {
      if homeworkText != "" {
        homeworkSent := true;
      }
    }
  }
}
