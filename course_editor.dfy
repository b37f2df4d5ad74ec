/** Editing a course tree (web/src/views/CourseEditorView.tsx): create,
    update and delete on categories, days and lessons, the default day, the
    selection, the upload size gate, the free-course toggle and saving. */
module CourseEditor {
  import opened Types
  import opened Text
  import Courses

  // ----- lookups (`Array.prototype.find`) -----

  /** `i` is the first position of a category with id `id`. */
  predicate FirstWithId(categories: seq<CourseCategory>, id: string, i: int)
  {
    0 <= i < |categories| && categories[i].id == id && forall j :: 0 <= j < i ==> categories[j].id != id
  }

  /** The first category with id `id`. */
  function FindCategory(categories: seq<CourseCategory>, id: string): (r: Option<CourseCategory>)
    ensures r.None? <==> forall i :: 0 <= i < |categories| ==> categories[i].id != id
    ensures r.Some? ==> r.value.id == id && exists i :: FirstWithId(categories, id, i) && categories[i] == r.value
  {
    if categories == [] then None
    else if categories[0].id == id then Some(categories[0])
    else
      var r := FindCategory(categories[1..], id);
      if r.Some? then
        ghost var i :| FirstWithId(categories[1..], id, i) && categories[1..][i] == r.value;
        assert FirstWithId(categories, id, i + 1) && categories[i + 1] == r.value;
        r
      else r
  }

  /** The first day with id `id`. */
  function FindDay(days: seq<CourseDay>, id: string): (r: Option<CourseDay>)
    ensures r.None? <==> forall i :: 0 <= i < |days| ==> days[i].id != id
    ensures r.Some? ==> r.value in days && r.value.id == id
  {
    if days == [] then None
    else if days[0].id == id then Some(days[0])
    else FindDay(days[1..], id)
  }

  // ----- updates: `list.map(x => x.id === id ? { ...x, ...updates } : x)` -----

  function MapCategories(categories: seq<CourseCategory>, id: string, update: CourseCategory -> CourseCategory): (r: seq<CourseCategory>)
    ensures |r| == |categories|
    ensures forall i :: 0 <= i < |r| ==> r[i] == if categories[i].id == id then update(categories[i]) else categories[i]
  {
    if categories == [] then []
    else [if categories[0].id == id then update(categories[0]) else categories[0]] + MapCategories(categories[1..], id, update)
  }

  function MapDays(days: seq<CourseDay>, id: string, update: CourseDay -> CourseDay): (r: seq<CourseDay>)
    ensures |r| == |days|
    ensures forall i :: 0 <= i < |r| ==> r[i] == if days[i].id == id then update(days[i]) else days[i]
  {
    if days == [] then []
    else [if days[0].id == id then update(days[0]) else days[0]] + MapDays(days[1..], id, update)
  }

  function MapLessons(lessons: seq<CourseLesson>, id: string, update: CourseLesson -> CourseLesson): (r: seq<CourseLesson>)
    ensures |r| == |lessons|
    ensures forall i :: 0 <= i < |r| ==> r[i] == if lessons[i].id == id then update(lessons[i]) else lessons[i]
  {
    if lessons == [] then []
    else [if lessons[0].id == id then update(lessons[0]) else lessons[0]] + MapLessons(lessons[1..], id, update)
  }

  // ----- deletions: `list.filter(x => x.id !== id)` -----

  function CountCategories(categories: seq<CourseCategory>, id: string): nat
  {
    if categories == [] then 0 else (if categories[0].id == id then 1 else 0) + CountCategories(categories[1..], id)
  }

  function WithoutCategory(categories: seq<CourseCategory>, id: string): (r: seq<CourseCategory>)
    ensures |r| == |categories| - CountCategories(categories, id)
    ensures forall c :: c in r <==> c in categories && c.id != id
  {
    if categories == [] then []
    else
      var rest := WithoutCategory(categories[1..], id);
      assert forall c :: c in categories <==> c == categories[0] || c in categories[1..];
      if categories[0].id != id then [categories[0]] + rest else rest
  }

  function CountDays(days: seq<CourseDay>, id: string): nat
  {
    if days == [] then 0 else (if days[0].id == id then 1 else 0) + CountDays(days[1..], id)
  }

  function WithoutDay(days: seq<CourseDay>, id: string): (r: seq<CourseDay>)
    ensures |r| == |days| - CountDays(days, id)
    ensures forall d :: d in r <==> d in days && d.id != id
  {
    if days == [] then []
    else
      var rest := WithoutDay(days[1..], id);
      assert forall d :: d in days <==> d == days[0] || d in days[1..];
      if days[0].id != id then [days[0]] + rest else rest
  }

  function CountLessons(lessons: seq<CourseLesson>, id: string): nat
  {
    if lessons == [] then 0 else (if lessons[0].id == id then 1 else 0) + CountLessons(lessons[1..], id)
  }

  function WithoutLesson(lessons: seq<CourseLesson>, id: string): (r: seq<CourseLesson>)
    ensures |r| == |lessons| - CountLessons(lessons, id)
    ensures forall l :: l in r <==> l in lessons && l.id != id
  {
    if lessons == [] then []
    else
      var rest := WithoutLesson(lessons[1..], id);
      assert forall l :: l in lessons <==> l == lessons[0] || l in lessons[1..];
      if lessons[0].id != id then [lessons[0]] + rest else rest
  }

  // ----- the tree operations -----

  const NewCategoryTitle: string := "Новый раздел"
  const DefaultDayTitle: string := "default"
  const NewDayTitle: string := "Новый урок"
  const LessonTitlePrefix: string := "Урок "

  /** The hidden day every category is given. */
  function DefaultDay(dayId: string): CourseDay
  {
    CourseDay(dayId, DefaultDayTitle, 1, [], None)
  }

  /** `addCategory`, with the two generated ids as parameters. */
  function AddCategory(categories: seq<CourseCategory>, categoryId: string, dayId: string): (r: seq<CourseCategory>)
    ensures |r| == |categories| + 1 && r[..|categories|] == categories
    ensures r[|categories|] == CourseCategory(categoryId, NewCategoryTitle, |categories| + 1, [DefaultDay(dayId)])
  {
    categories + [CourseCategory(categoryId, NewCategoryTitle, |categories| + 1, [DefaultDay(dayId)])]
  }

  /** `addDay`: appends a day numbered after the category's last; an
      unknown category is left alone, as `updateCategory` finds nothing. */
  function AddDay(categories: seq<CourseCategory>, categoryId: string, dayId: string): (r: seq<CourseCategory>)
    ensures |r| == |categories|
    ensures forall i :: 0 <= i < |r| ==> r[i].id == categories[i].id && (categories[i].id != categoryId ==> r[i] == categories[i])
  {
    var category := FindCategory(categories, categoryId);
    var days := if category.Some? then category.value.days else [];
    var newDay := CourseDay(dayId, NewDayTitle, |days| + 1, [], None);
    MapCategories(categories, categoryId, (c: CourseCategory) => c.(days := days + [newDay]))
  }

  /** `updateDay`: the days of the first category with that id, updated,
      become the days of every category with that id. */
  function UpdateDay(categories: seq<CourseCategory>, categoryId: string, dayId: string, update: CourseDay -> CourseDay): (r: seq<CourseCategory>)
    ensures |r| == |categories|
    ensures forall i :: 0 <= i < |r| ==> r[i].id == categories[i].id && (categories[i].id != categoryId ==> r[i] == categories[i])
  {
    var category := FindCategory(categories, categoryId);
    if category.None? then categories
    else
      var days := MapDays(category.value.days, dayId, update);
      MapCategories(categories, categoryId, (c: CourseCategory) => c.(days := days))
  }

  /** `deleteDay` once confirmed. */
  function DeleteDay(categories: seq<CourseCategory>, categoryId: string, dayId: string): (r: seq<CourseCategory>)
    ensures |r| == |categories|
    ensures forall i :: 0 <= i < |r| ==> r[i].id == categories[i].id && (categories[i].id != categoryId ==> r[i] == categories[i])
  {
    var category := FindCategory(categories, categoryId);
    if category.None? then categories
    else
      var days := WithoutDay(category.value.days, dayId);
      MapCategories(categories, categoryId, (c: CourseCategory) => c.(days := days))
  }

  /** The lesson `addLesson` creates: numbered after the day's last, with
      no video yet. */
  function NewLesson(lessonId: string, count: nat): (l: CourseLesson)
  {
    CourseLesson(lessonId, LessonTitlePrefix + DecimalString(count + 1), None, "", None, None, count + 1, false)
  }

  /** `addLesson`: nothing happens when the day is not found. */
  function AddLesson(categories: seq<CourseCategory>, categoryId: string, dayId: string, lessonId: string): (r: seq<CourseCategory>)
    ensures |r| == |categories|
    ensures forall i :: 0 <= i < |r| ==> r[i].id == categories[i].id && (categories[i].id != categoryId ==> r[i] == categories[i])
  {
    var category := FindCategory(categories, categoryId);
    var day := if category.Some? then FindDay(category.value.days, dayId) else None;
    if day.None? then categories
    else
      var lessons := day.value.lessons + [NewLesson(lessonId, |day.value.lessons|)];
      UpdateDay(categories, categoryId, dayId, (d: CourseDay) => d.(lessons := lessons))
  }

  /** `updateLesson`. */
  function UpdateLesson(categories: seq<CourseCategory>, categoryId: string, dayId: string, lessonId: string,
                        update: CourseLesson -> CourseLesson): (r: seq<CourseCategory>)
    ensures |r| == |categories|
    ensures forall i :: 0 <= i < |r| ==> r[i].id == categories[i].id && (categories[i].id != categoryId ==> r[i] == categories[i])
  {
    var category := FindCategory(categories, categoryId);
    var day := if category.Some? then FindDay(category.value.days, dayId) else None;
    if day.None? then categories
    else
      var lessons := MapLessons(day.value.lessons, lessonId, update);
      UpdateDay(categories, categoryId, dayId, (d: CourseDay) => d.(lessons := lessons))
  }

  /** `deleteLesson`. */
  function DeleteLesson(categories: seq<CourseCategory>, categoryId: string, dayId: string, lessonId: string): (r: seq<CourseCategory>)
    ensures |r| == |categories|
    ensures forall i :: 0 <= i < |r| ==> r[i].id == categories[i].id && (categories[i].id != categoryId ==> r[i] == categories[i])
  {
    var category := FindCategory(categories, categoryId);
    var day := if category.Some? then FindDay(category.value.days, dayId) else None;
    if day.None? then categories
    else
      var lessons := WithoutLesson(day.value.lessons, lessonId);
      UpdateDay(categories, categoryId, dayId, (d: CourseDay) => d.(lessons := lessons))
  }

  /** `setDayHomework`: sets or (with `None`) removes a day's homework. */
  function SetDayHomework(categories: seq<CourseCategory>, categoryId: string, dayId: string, homework: Option<CourseHomework>): (r: seq<CourseCategory>)
    ensures |r| == |categories|
    ensures forall i :: 0 <= i < |r| ==> r[i].id == categories[i].id && (categories[i].id != categoryId ==> r[i] == categories[i])
  {
    UpdateDay(categories, categoryId, dayId, (d: CourseDay) => d.(homework := homework))
  }

  // ----- what the tree operations guarantee -----

  /** Ids never repeat in the list. */
  predicate UniqueCategoryIds(categories: seq<CourseCategory>)
  {
    forall i, j :: 0 <= i < j < |categories| ==> categories[i].id != categories[j].id
  }

  predicate UniqueDayIds(days: seq<CourseDay>)
  {
    forall i, j :: 0 <= i < j < |days| ==> days[i].id != days[j].id
  }

  /** An update changes only the matching categories and keeps the others in
      their places. */
  lemma UpdateCategoryOnlyMatching(categories: seq<CourseCategory>, id: string, update: CourseCategory -> CourseCategory)
    ensures var r := MapCategories(categories, id, update);
      && |r| == |categories|
      && (forall i :: 0 <= i < |r| && categories[i].id != id ==> r[i] == categories[i])
      && (forall i :: 0 <= i < |r| && categories[i].id == id ==> r[i] == update(categories[i]))
  {
  }

  /** Deleting removes exactly the categories with that id; no category
      with another id is lost and none is added. */
  lemma DeleteCategoryExactly(categories: seq<CourseCategory>, id: string)
    ensures var r := WithoutCategory(categories, id);
      && (forall c :: c in r <==> c in categories && c.id != id)
      && |r| == |categories| - CountCategories(categories, id)
      && (forall c :: c in r ==> c.id != id)
  {
  }

  /** When ids are unique, updating by id replaces the one category found. */
  lemma {:induction false} UpdateUniqueIsReplace(categories: seq<CourseCategory>, i: int, update: CourseCategory -> CourseCategory)
    requires UniqueCategoryIds(categories) && 0 <= i < |categories|
    ensures MapCategories(categories, categories[i].id, update) == categories[i := update(categories[i])]
    ensures FindCategory(categories, categories[i].id) == Some(categories[i])
  {
    var r := MapCategories(categories, categories[i].id, update);
    assert forall j :: 0 <= j < |r| ==> r[j] == categories[i := update(categories[i])][j];
    var f := FindCategory(categories, categories[i].id);
    assert f.Some?;
    var k :| FirstWithId(categories, categories[i].id, k) && categories[k] == f.value;
    assert k == i;
  }

  lemma {:induction false} UpdateUniqueDayIsReplace(days: seq<CourseDay>, i: int, update: CourseDay -> CourseDay)
    requires UniqueDayIds(days) && 0 <= i < |days|
    ensures MapDays(days, days[i].id, update) == days[i := update(days[i])]
    ensures FindDay(days, days[i].id) == Some(days[i])
  {
    var r := MapDays(days, days[i].id, update);
    assert forall j :: 0 <= j < |r| ==> r[j] == days[i := update(days[i])][j];
    FindDayFirst(days, i);
  }

  lemma {:induction false} FindDayFirst(days: seq<CourseDay>, i: int)
    requires 0 <= i < |days| && forall j :: 0 <= j < i ==> days[j].id != days[i].id
    ensures FindDay(days, days[i].id) == Some(days[i])
  {
    if i > 0 {
      FindDayFirst(days[1..], i - 1);
    }
  }

  /** With unique category ids, `updateDay` rebuilds the days of the one
      category found and leaves every other category alone. */
  lemma UpdateDayAt(categories: seq<CourseCategory>, ci: int, dayId: string, update: CourseDay -> CourseDay)
    requires UniqueCategoryIds(categories) && 0 <= ci < |categories|
    ensures UpdateDay(categories, categories[ci].id, dayId, update)
         == categories[ci := categories[ci].(days := MapDays(categories[ci].days, dayId, update))]
  {
    var days := MapDays(categories[ci].days, dayId, update);
    UpdateUniqueIsReplace(categories, ci, (c: CourseCategory) => c.(days := days));
  }

  /** `updateDay` on a category that is not there changes nothing. */
  lemma UpdateDayMissingCategory(categories: seq<CourseCategory>, categoryId: string, dayId: string, update: CourseDay -> CourseDay)
    requires forall c :: c in categories ==> c.id != categoryId
    ensures UpdateDay(categories, categoryId, dayId, update) == categories
  {
    assert forall i :: 0 <= i < |categories| ==> categories[i] in categories;
  }

  /** `addDay` appends one empty day, numbered after the others, to the
      category with that id; the lesson total is unchanged. */
  lemma AddDayAt(categories: seq<CourseCategory>, ci: int, dayId: string)
    requires UniqueCategoryIds(categories) && 0 <= ci < |categories|
    ensures var cat := categories[ci];
      var r := AddDay(categories, cat.id, dayId);
      && r == categories[ci := cat.(days := cat.days + [CourseDay(dayId, NewDayTitle, |cat.days| + 1, [], None)])]
      && Courses.CategoryLessons(r) == Courses.CategoryLessons(categories)
  {
    var cat := categories[ci];
    var newDays := cat.days + [CourseDay(dayId, NewDayTitle, |cat.days| + 1, [], None)];
    UpdateUniqueIsReplace(categories, ci, (c: CourseCategory) => c);
    UpdateUniqueIsReplace(categories, ci, (c: CourseCategory) => c.(days := newDays));
    Courses.DayLessonsAppend(cat.days, [CourseDay(dayId, NewDayTitle, |cat.days| + 1, [], None)]);
    assert Courses.DayLessons([CourseDay(dayId, NewDayTitle, |cat.days| + 1, [], None)]) == 0 by {
      assert [CourseDay(dayId, NewDayTitle, |cat.days| + 1, [], None)][1..] == [];
    }
    Courses.CategoryLessonsReplace(categories, ci, cat.(days := newDays));
  }

  /** `addDay` on a category that is not there changes nothing. */
  lemma AddDayMissingCategory(categories: seq<CourseCategory>, categoryId: string, dayId: string)
    requires forall c :: c in categories ==> c.id != categoryId
    ensures AddDay(categories, categoryId, dayId) == categories
  {
    assert forall i :: 0 <= i < |categories| ==> categories[i] in categories;
  }

  /** `deleteDay` removes exactly the days with that id from the category
      with that id, and nothing else. */
  lemma DeleteDayAt(categories: seq<CourseCategory>, ci: int, dayId: string)
    requires UniqueCategoryIds(categories) && 0 <= ci < |categories|
    ensures var cat := categories[ci];
      var r := DeleteDay(categories, cat.id, dayId);
      && r == categories[ci := cat.(days := WithoutDay(cat.days, dayId))]
      && (forall d :: d in r[ci].days <==> d in cat.days && d.id != dayId)
  {
    var cat := categories[ci];
    var days := WithoutDay(cat.days, dayId);
    UpdateUniqueIsReplace(categories, ci, (c: CourseCategory) => c.(days := days));
  }

  /** With unique ids, `deleteLesson` removes exactly the lessons with that
      id from the one day found, and nothing else. */
  lemma DeleteLessonAt(categories: seq<CourseCategory>, ci: int, di: int, lessonId: string)
    requires UniqueCategoryIds(categories) && 0 <= ci < |categories|
    requires UniqueDayIds(categories[ci].days) && 0 <= di < |categories[ci].days|
    ensures var cat := categories[ci];
      var day := cat.days[di];
      var r := DeleteLesson(categories, cat.id, day.id, lessonId);
      && r == categories[ci := cat.(days := cat.days[di := day.(lessons := WithoutLesson(day.lessons, lessonId))])]
      && (forall l :: l in r[ci].days[di].lessons <==> l in day.lessons && l.id != lessonId)
  {
    var cat := categories[ci];
    var day := cat.days[di];
    UpdateUniqueIsReplace(categories, ci, (c: CourseCategory) => c);
    UpdateUniqueDayIsReplace(cat.days, di, (d: CourseDay) => d);
    var lessons := WithoutLesson(day.lessons, lessonId);
    UpdateUniqueDayIsReplace(cat.days, di, (d: CourseDay) => d.(lessons := lessons));
    UpdateDayAt(categories, ci, day.id, (d: CourseDay) => d.(lessons := lessons));
  }

  /** With unique ids, `updateLesson` changes only the matching lessons of the
      one day found, keeping the day's length and order. */
  lemma UpdateLessonAt(categories: seq<CourseCategory>, ci: int, di: int, lessonId: string, update: CourseLesson -> CourseLesson)
    requires UniqueCategoryIds(categories) && 0 <= ci < |categories|
    requires UniqueDayIds(categories[ci].days) && 0 <= di < |categories[ci].days|
    ensures var cat := categories[ci];
      var day := cat.days[di];
      var r := UpdateLesson(categories, cat.id, day.id, lessonId, update);
      && r == categories[ci := cat.(days := cat.days[di := day.(lessons := MapLessons(day.lessons, lessonId, update))])]
      && |r[ci].days[di].lessons| == |day.lessons|
      && (forall k :: 0 <= k < |day.lessons| && day.lessons[k].id != lessonId ==> r[ci].days[di].lessons[k] == day.lessons[k])
  {
    var cat := categories[ci];
    var day := cat.days[di];
    UpdateUniqueIsReplace(categories, ci, (c: CourseCategory) => c);
    UpdateUniqueDayIsReplace(cat.days, di, (d: CourseDay) => d);
    var lessons := MapLessons(day.lessons, lessonId, update);
    UpdateUniqueDayIsReplace(cat.days, di, (d: CourseDay) => d.(lessons := lessons));
    UpdateDayAt(categories, ci, day.id, (d: CourseDay) => d.(lessons := lessons));
  }

  /** `setDayHomework` touches only the homework of that day. */
  lemma SetDayHomeworkAt(categories: seq<CourseCategory>, ci: int, di: int, homework: Option<CourseHomework>)
    requires UniqueCategoryIds(categories) && 0 <= ci < |categories|
    requires UniqueDayIds(categories[ci].days) && 0 <= di < |categories[ci].days|
    ensures var cat := categories[ci];
      var day := cat.days[di];
      SetDayHomework(categories, cat.id, day.id, homework)
        == categories[ci := cat.(days := cat.days[di := day.(homework := homework)])]
  {
    var cat := categories[ci];
    var day := cat.days[di];
    UpdateUniqueDayIsReplace(cat.days, di, (d: CourseDay) => d.(homework := homework));
    UpdateDayAt(categories, ci, day.id, (d: CourseDay) => d.(homework := homework));
  }

  /** A new category adds no lesson. */
  lemma AddCategoryKeepsTotal(categories: seq<CourseCategory>, categoryId: string, dayId: string)
    ensures Courses.CategoryLessons(AddCategory(categories, categoryId, dayId)) == Courses.CategoryLessons(categories)
  {
    var added := CourseCategory(categoryId, NewCategoryTitle, |categories| + 1, [DefaultDay(dayId)]);
    Courses.CategoryLessonsAppend(categories, [added]);
    assert Courses.DayLessons([DefaultDay(dayId)]) == 0 by {
      assert [DefaultDay(dayId)][1..] == [];
    }
  }

  /** In a tree whose ids are unique, `addLesson` on an existing day adds
      exactly one lesson to the course's total, and that lesson is the new
      last lesson of the day. */
  lemma {:induction false} AddLessonAddsOne(categories: seq<CourseCategory>, ci: int, di: int, lessonId: string)
    requires UniqueCategoryIds(categories) && 0 <= ci < |categories|
    requires UniqueDayIds(categories[ci].days) && 0 <= di < |categories[ci].days|
    ensures var r := AddLesson(categories, categories[ci].id, categories[ci].days[di].id, lessonId);
      var day := categories[ci].days[di];
      && Courses.CategoryLessons(r) == Courses.CategoryLessons(categories) + 1
      && r == categories[ci := categories[ci].(days := categories[ci].days[di := day.(lessons := day.lessons + [NewLesson(lessonId, |day.lessons|)])])]
  {
    var cat := categories[ci];
    var day := cat.days[di];
    UpdateUniqueIsReplace(categories, ci, (c: CourseCategory) => c);
    UpdateUniqueDayIsReplace(cat.days, di, (d: CourseDay) => d);
    var lessons := day.lessons + [NewLesson(lessonId, |day.lessons|)];
    var newDays := MapDays(cat.days, day.id, (d: CourseDay) => d.(lessons := lessons));
    UpdateUniqueDayIsReplace(cat.days, di, (d: CourseDay) => d.(lessons := lessons));
    assert newDays == cat.days[di := day.(lessons := lessons)];
    UpdateUniqueIsReplace(categories, ci, (c: CourseCategory) => c.(days := newDays));
    var r := AddLesson(categories, cat.id, day.id, lessonId);
    assert r == categories[ci := cat.(days := newDays)];
    Courses.DayLessonsReplace(cat.days, di, day.(lessons := lessons));
    Courses.CategoryLessonsReplace(categories, ci, cat.(days := newDays));
  }

  /** `addLesson` on a day that is not there changes nothing. */
  lemma AddLessonMissingDay(categories: seq<CourseCategory>, categoryId: string, dayId: string, lessonId: string)
    requires forall c :: c in categories && c.id == categoryId ==> forall d :: d in c.days ==> d.id != dayId
    ensures AddLesson(categories, categoryId, dayId, lessonId) == categories
  {
    var category := FindCategory(categories, categoryId);
    if category.Some? {
      assert category.value in categories;
      assert FindDay(category.value.days, dayId).None?;
    }
  }

  /** The new lesson's title is `Урок ` and its number, which reads back as
      one more than the lessons already there. */
  lemma NewLessonNumbered(lessonId: string, count: nat)
    ensures var l := NewLesson(lessonId, count);
      && l.title[..|LessonTitlePrefix|] == LessonTitlePrefix
      && AllDigits(l.title[|LessonTitlePrefix|..])
      && DecimalValue(l.title[|LessonTitlePrefix|..]) == count + 1
      && l.order == count + 1 && l.videoUrl == ""
  {
    var l := NewLesson(lessonId, count);
    assert l.title[|LessonTitlePrefix|..] == DecimalString(count + 1);
    DecimalRoundTrip(count + 1);
  }

  // ----- the editor screen -----

  /** The course the editor starts from. */
  const BlankCourse: Course := Course("", "", None, "", "", "", "", 2500, [], [], None, None, [], None, false)

  /** Above this size, in MB, a video is offered for compression first. */
  const MaxFileSizeMb: int := 50

  /** Where a chosen video is to go. */
  datatype LessonRef = LessonRef(categoryId: string, dayId: string, lessonId: string)

  /** A chosen video: its name and size (bytes). */
  datatype VideoFile = VideoFile(name: string, size: nat)

  /** A video upload handed to the storage layer. */
  datatype Upload = Upload(file: VideoFile, target: LessonRef)

  datatype CompressionChoice = Light | Strong | Original

  const TitleRequiredText: string := "Название курса обязательно"
  const SaveFailedText: string := "Ошибка сохранения"

  /** The write `handleSave` hands to the store. */
  datatype SaveAction = NoSave | UpdateCourse(id: string, course: Course) | AddCourse(course: Course)

  /** The record `handleSave` writes: stamped with the author and times. */
  function SavePayload(c: Course, user: User, now: int): (p: Course)
    ensures p.authorId == user.id && p.authorName == Some(user.name) && p.updatedAt == Some(now)
    ensures p.createdAt.Some? && (c.createdAt.Some? ==> p.createdAt == c.createdAt)
    ensures p.id == c.id && p.title == c.title && p.categories == c.categories && p.lessons == c.lessons
  {
    c.(authorId := user.id, authorName := Some(user.name), updatedAt := Some(now),
       createdAt := if c.createdAt.Some? then c.createdAt else Some(now))
  }

  class Editor {
    var course: Course
    var selectedCategoryId: Option<string>
    var selectedDayId: Option<string>
    var error: Option<string>
    var pendingFile: Option<VideoFile>
    var pendingLesson: Option<LessonRef>
    var showCompressionModal: bool

    constructor ()
      ensures course == BlankCourse && selectedCategoryId == None && selectedDayId == None && error == None
      ensures pendingFile == None && pendingLesson == None && !showCompressionModal
    {
      course := BlankCourse;
      selectedCategoryId := None;
      selectedDayId := None;
      error := None;
      pendingFile := None;
      pendingLesson := None;
      showCompressionModal := false;
    }

    /** `selectCategory`: selects the category and its first day, creating
        the default day when it has none. */
    method SelectCategory(cat: CourseCategory, newDayId: string)
      modifies this
      ensures unchanged(this`error, this`pendingFile)
      ensures unchanged(this`pendingLesson, this`showCompressionModal)
      ensures selectedCategoryId == Some(cat.id)
      ensures |cat.days| > 0 ==> selectedDayId == Some(cat.days[0].id) && course == old(course)
      ensures |cat.days| == 0 ==>
        selectedDayId == Some(newDayId) && course == old(course).(categories := MapCategories(old(course).categories, cat.id, (c: CourseCategory) => c.(days := [DefaultDay(newDayId)])))
    {
      selectedCategoryId := Some(cat.id);
      if |cat.days| > 0 {
        selectedDayId := Some(cat.days[0].id);
      } else {
        var newDay := DefaultDay(newDayId);
        course := course.(categories := MapCategories(course.categories, cat.id, (c: CourseCategory) => c.(days := [newDay])));
        selectedDayId := Some(newDay.id);
      }
    }

    /** `ensureDefaultDay`: the category's first day, or a new default day
        that is stored as its only day. */
    method EnsureDefaultDay(cat: CourseCategory, newDayId: string) returns (day: CourseDay)
      modifies this
      ensures unchanged(this`selectedCategoryId, this`selectedDayId)
      ensures unchanged(this`error, this`pendingFile)
      ensures unchanged(this`pendingLesson, this`showCompressionModal)
      ensures |cat.days| > 0 ==> day == cat.days[0] && course == old(course)
      ensures |cat.days| == 0 ==>
        day == DefaultDay(newDayId) && course == old(course).(categories := MapCategories(old(course).categories, cat.id, (c: CourseCategory) => c.(days := [day])))
    {
      if |cat.days| > 0 {
        return cat.days[0];
      }
      day := DefaultDay(newDayId);
      var d := day;
      course := course.(categories := MapCategories(course.categories, cat.id, (c: CourseCategory) => c.(days := [d])));
    }

    method AddCategoryAction(categoryId: string, dayId: string)
      modifies this
      ensures unchanged(this`selectedCategoryId, this`selectedDayId)
      ensures unchanged(this`error, this`pendingFile)
      ensures unchanged(this`pendingLesson, this`showCompressionModal)
      ensures course == old(course).(categories := AddCategory(old(course).categories, categoryId, dayId))
    {
      course := course.(categories := AddCategory(course.categories, categoryId, dayId));
    }

    /** `deleteCategory`: after confirmation; deleting the selected category
        clears both selections. */
    method DeleteCategoryAction(id: string, confirmed: bool)
      modifies this
      ensures unchanged(this`error, this`pendingFile)
      ensures unchanged(this`pendingLesson, this`showCompressionModal)
      ensures !confirmed ==> course == old(course) && selectedCategoryId == old(selectedCategoryId) && selectedDayId == old(selectedDayId)
      ensures confirmed ==> course == old(course).(categories := WithoutCategory(old(course).categories, id))
      ensures confirmed && old(selectedCategoryId) == Some(id) ==> selectedCategoryId == None && selectedDayId == None
      ensures confirmed && old(selectedCategoryId) != Some(id) ==>
        selectedCategoryId == old(selectedCategoryId) && selectedDayId == old(selectedDayId)
    {
      if !confirmed {
        return;
      }
      course := course.(categories := WithoutCategory(course.categories, id));
      if selectedCategoryId == Some(id) {
        selectedCategoryId := None;
        selectedDayId := None;
      }
    }

    method AddDayAction(categoryId: string, dayId: string)
      modifies this
      ensures unchanged(this`selectedCategoryId, this`selectedDayId)
      ensures unchanged(this`error, this`pendingFile)
      ensures unchanged(this`pendingLesson, this`showCompressionModal)
      ensures course == old(course).(categories := AddDay(old(course).categories, categoryId, dayId))
    {
      course := course.(categories := AddDay(course.categories, categoryId, dayId));
    }

    /** `deleteDay`: after confirmation, and only for a known category;
        deleting the selected day clears the day selection. */
    method DeleteDayAction(categoryId: string, dayId: string, confirmed: bool)
      modifies this
      ensures unchanged(this`selectedCategoryId)
      ensures unchanged(this`error, this`pendingFile)
      ensures unchanged(this`pendingLesson, this`showCompressionModal)
      ensures var known := confirmed && FindCategory(old(course).categories, categoryId).Some?;
        && (known ==> course == old(course).(categories := DeleteDay(old(course).categories, categoryId, dayId)))
        && (!known ==> course == old(course) && selectedDayId == old(selectedDayId))
        && (known && old(selectedDayId) == Some(dayId) ==> selectedDayId == None)
        && (known && old(selectedDayId) != Some(dayId) ==> selectedDayId == old(selectedDayId))
    {
      if confirmed && FindCategory(course.categories, categoryId).Some? {
        course := course.(categories := DeleteDay(course.categories, categoryId, dayId));
        if selectedDayId == Some(dayId) {
          selectedDayId := None;
        }
      }
    }

    method AddLessonAction(categoryId: string, dayId: string, lessonId: string)
      modifies this
      ensures unchanged(this`selectedCategoryId, this`selectedDayId)
      ensures unchanged(this`error, this`pendingFile)
      ensures unchanged(this`pendingLesson, this`showCompressionModal)
      ensures course == old(course).(categories := AddLesson(old(course).categories, categoryId, dayId, lessonId))
    {
      course := course.(categories := AddLesson(course.categories, categoryId, dayId, lessonId));
    }

    method DeleteLessonAction(categoryId: string, dayId: string, lessonId: string)
      modifies this
      ensures unchanged(this`selectedCategoryId, this`selectedDayId)
      ensures unchanged(this`error, this`pendingFile)
      ensures unchanged(this`pendingLesson, this`showCompressionModal)
      ensures course == old(course).(categories := DeleteLesson(old(course).categories, categoryId, dayId, lessonId))
    {
      course := course.(categories := DeleteLesson(course.categories, categoryId, dayId, lessonId));
    }

    /** The free-course switch: turning it on sets the price to 0, turning
        it off keeps the price. */
    method ToggleFree()
      modifies this
      ensures unchanged(this`selectedCategoryId, this`selectedDayId)
      ensures unchanged(this`error, this`pendingFile)
      ensures unchanged(this`pendingLesson, this`showCompressionModal)
      ensures course.isFree == !old(course).isFree
      ensures course == old(course).(isFree := course.isFree, price := course.price)
      ensures course.isFree ==> course.price == 0
      ensures !course.isFree ==> course.price == old(course).price
    {
      course := course.(isFree := !course.isFree, price := if !course.isFree then 0 else course.price);
    }

    /** `handleFileSelect`: a video over 50 MB is held back for the
        compression choice and nothing is uploaded; a smaller one is
        uploaded at once. */
    method HandleFileSelect(file: VideoFile, target: LessonRef) returns (upload: Option<Upload>)
      modifies this
      ensures unchanged(this`course, this`error)
      ensures unchanged(this`selectedCategoryId, this`selectedDayId)
      ensures file.size > MaxFileSizeMb * 1024 * 1024 ==>
        upload == None && pendingFile == Some(file) && pendingLesson == Some(target) && showCompressionModal
      ensures file.size <= MaxFileSizeMb * 1024 * 1024 ==>
        upload == Some(Upload(file, target)) && pendingFile == old(pendingFile)
        && pendingLesson == old(pendingLesson) && showCompressionModal == old(showCompressionModal)
    {
      var fileSizeMb := (file.size as real) / (1024.0 * 1024.0);
      if fileSizeMb > MaxFileSizeMb as real {
        pendingFile := Some(file);
        pendingLesson := Some(target);
        showCompressionModal := true;
        upload := None;
      } else {
        upload := Some(Upload(file, target));
      }
    }

    /** `handleCompressionChoice`: uploads the held video, as it is or as
        compressed (`compressed` is what the compressor returned), and
        clears the held video. */
    method HandleCompressionChoice(choice: CompressionChoice, compressed: Option<VideoFile>) returns (upload: Option<Upload>)
      modifies this
      ensures unchanged(this`course, this`error)
      ensures unchanged(this`selectedCategoryId, this`selectedDayId)
      ensures old(pendingFile).None? || old(pendingLesson).None? ==>
        upload == None && pendingFile == old(pendingFile) && pendingLesson == old(pendingLesson)
        && showCompressionModal == old(showCompressionModal)
      ensures old(pendingFile).Some? && old(pendingLesson).Some? ==>
        && !showCompressionModal && pendingFile == None && pendingLesson == None
        && (choice == Original ==> upload == Some(Upload(old(pendingFile).value, old(pendingLesson).value)))
        && (choice != Original ==> upload == if compressed.Some? then Some(Upload(compressed.value, old(pendingLesson).value)) else None)
    {
      if pendingFile.None? || pendingLesson.None? {
        return None;
      }
      showCompressionModal := false;
      if choice == Original {
        upload := Some(Upload(pendingFile.value, pendingLesson.value));
      } else if compressed.Some? {
        upload := Some(Upload(compressed.value, pendingLesson.value));
      } else {
        upload := None;
      }
      pendingFile := None;
      pendingLesson := None;
    }

    /** `handleSave`: refused with an error without a title or a signed-in
        user; otherwise the course is stamped with its author and written,
        as an update when it has an id and as a new record otherwise. A
        failed write leaves the failure message. */
    method HandleSave(user: Option<User>, now: int, writeFails: bool) returns (action: SaveAction)
      modifies this
      ensures unchanged(this`course)
      ensures unchanged(this`selectedCategoryId, this`selectedDayId)
      ensures unchanged(this`pendingFile, this`pendingLesson)
      ensures unchanged(this`showCompressionModal)
      ensures old(course).title == "" || user.None? || user.value.id == "" ==>
        action == NoSave && error == Some(TitleRequiredText)
      ensures old(course).title != "" && user.Some? && user.value.id != "" ==>
        && (old(course).id != "" ==> action == UpdateCourse(old(course).id, SavePayload(old(course), user.value, now)))
        && (old(course).id == "" ==> action == AddCourse(SavePayload(old(course), user.value, now)))
        && error == (if writeFails then Some(SaveFailedText) else None)
    {
      if course.title == "" || user.None? || user.value.id == "" {
        error := Some(TitleRequiredText);
        return NoSave;
      }
      error := None;
      var payload := SavePayload(course, user.value, now);
      if course.id != "" {
        action := UpdateCourse(course.id, payload);
      } else {
        action := AddCourse(payload);
      }
      if writeFails {
        error := Some(SaveFailedText);
      }
    }
  }
}
