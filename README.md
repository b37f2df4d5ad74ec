# x5-marketing in Dafny

A verified model of the core of x5-marketing, a React web app for small
businesses. The app has two parts:

- a marketing toolbox: tracking links, a giveaway randomiser, a WhatsApp bot builder;
- a marketplace: an online course catalogue and editor, freelancer hiring and chat.

Users sign in, hold credits and a free or pro plan, and pay through a native
shell or a web checkout.

The model covers the parts of the app that decide things:

- **Tracking links** (`analytics.dfy`, `redirect.dfy`). A campaign is a batch
  of eight-character short codes, one per platform, written to two Firestore
  collections: the user's own copy and the global `tracking_links` record.
  The redirect path `/r/<code>` looks a code up, counts the click on both
  copies and redirects. The proofs cover:
  - what a committed campaign stores;
  - that creating, deleting and visiting links keep the two collections
    describing the same links;
  - that `n` visits raise a counter by exactly `n`.
- **The shell** (`app.dfy`). It covers routing, tab transitions and iOS
  swipes, and the entitlement rules:
  - native payments: credits, monthly or yearly plans, and renewal dates;
  - credit checks and deductions;
  - course purchases.
- **Courses** (`courses.dfy`, `course_editor.dfy`). It covers:
  - which screen a course opens;
  - back navigation through the course tree;
  - lesson totals, filtering, and grouping by category, proved to partition the courses;
  - one rating per user;
  - the editor's create, update and delete operations on the category, day and lesson tree.
- **Screens and helpers**. Profile nicknames, the paywall's cards and
  preselected product, hiring search and listings, chat ids and the
  unread-counter protocol, the home screen randomiser and tool gating, the
  bot wizard and demo, toasts, and the JavaScript string helpers the
  screens rely on.

Firestore, timers, `Math.random()`, the clock and the browser are not
modelled as code. They become inputs:

- stores are `map`s owned by classes;
- a failing call is a boolean parameter;
- random draws are reals in `[0, 1)` (`Random.IsDraw`);
- `Date.now()` is an integer parameter;
- `setMonth` is a function parameter.

Stateful screens are classes whose methods state their whole new state.
Pure rules are functions with lemmas beside them.

## Model

| member | source | states |
|---|---|---|
| Types.ParsePlatform | web/src/types.ts:60 | a platform string is accepted only when it is the stored name of that platform |
| Types.ParsePlatformName | web/src/types.ts:60 | each of the four platform names reads back as its platform |
| Types.PlatformsComplete | web/src/views/AnalyticsView.tsx:69 | the campaign's platform list holds every platform exactly once |
| Random.DrawIndex | web/src/views/AnalyticsView.tsx:17 | `Math.floor(r * n)` for a draw in [0,1) is always an index below `n` |
| Random.DrawIndexOnto | web/src/views/AnalyticsView.tsx:17 | every index below `n` is selected by some draw |
| Text.TrimStart | web/src/views/AnalyticsView.tsx:53 | the result is a suffix of the input, only white space was dropped, and it does not start with white space |
| Text.TrimEnd | web/src/views/AnalyticsView.tsx:53 | the result is a prefix of the input, only white space was dropped, and it does not end with white space |
| Text.Trim | web/src/views/AnalyticsView.tsx:53 | `trim()` is never longer and leaves no white space at either end |
| Text.TrimFixed | web/src/views/ProfileView.tsx:83 | a string without white space at its ends is unchanged by `trim()` |
| Text.TrimStartPadded | web/src/views/AnalyticsView.tsx:53 | leading white space in front of a string that starts with text is exactly what is dropped at the start |
| Text.TrimEndPadded | web/src/views/AnalyticsView.tsx:53 | trailing white space after a string that ends with text is exactly what is dropped at the end |
| Text.TrimPadded | web/src/views/AnalyticsView.tsx:53 | `trim()` removes exactly the white space padding around a string whose ends are not white space |
| Text.TrimIdempotent | web/src/views/AnalyticsView.tsx:53 | trimming twice is trimming once |
| Text.BlankIffAllSpace | web/src/views/HireView.tsx:54 | `!s.trim()` holds exactly when every character is white space |
| Text.ContainsAt | web/src/views/HireView.tsx:56 | `includes` holds exactly when the substring occurs at some index |
| Text.LowerChar | web/src/views/HireView.tsx:55 | `toLowerCase` maps A-Z into a-z, keeps other letters' a-z status, and keeps digits and `_` |
| Text.Lower | web/src/views/HireView.tsx:55 | lowercasing keeps the length and works character by character |
| Text.DigitsOf | web/src/views/HireView.tsx:69 | `replace(/[^0-9]/g, '')` yields only digits and is never longer |
| Text.DigitsOfDigits | web/src/views/HireView.tsx:69 | stripping a digits-only string gives it back |
| Text.DigitsOfAppend | web/src/views/HireView.tsx:69 | stripping distributes over concatenation |
| Text.DecimalString | web/src/views/CourseEditorView.tsx:308 | a number's decimal text is non-empty, all digits and has no leading zero |
| Text.DecimalRoundTrip | web/src/views/CourseEditorView.tsx:308 | reading a number's decimal text back gives the number |
| Analytics.AlphabetIsAlnum | web/src/views/AnalyticsView.tsx:15 | the code alphabet has 62 characters, all in `[a-zA-Z0-9]` |
| Analytics.CodeOf | web/src/views/AnalyticsView.tsx:14-21 | any eight draws give an eight-character alphanumeric code |
| Analytics.GenerateShortCode | web/src/views/AnalyticsView.tsx:14-21 | the loop builds the code of its draws, which is a valid short code |
| Analytics.NormalizeUrl | web/src/views/AnalyticsView.tsx:53-56 | the stored URL always carries an `http://` or `https://` scheme |
| Analytics.TrimWithScheme | web/src/views/AnalyticsView.tsx:53-56 | putting `https://` in front of a trimmed string leaves it trimmed |
| Analytics.NormalizedFixed | web/src/views/AnalyticsView.tsx:53-56 | a trimmed URL with a scheme is kept as it is |
| Analytics.NormalizeIdempotent | web/src/views/AnalyticsView.tsx:53-56 | normalising a normalised URL changes nothing |
| Analytics.NormalizeBareHost | web/src/views/AnalyticsView.tsx:53-56 | a bare host name gets `https://` put in front |
| Analytics.NormalizeKeepsScheme | web/src/views/AnalyticsView.tsx:53-56 | any URL typed with an `http://` or `https://` scheme, with any blanks around it, is stored as typed without the blanks |
| Analytics.ApplyBatchAppend | web/src/views/AnalyticsView.tsx:103 | committing two batches in turn is committing their concatenation |
| Analytics.ApplyPair | web/src/views/AnalyticsView.tsx:93-100 | a two-write batch applies its writes in order |
| Analytics.CampaignBatch | web/src/views/AnalyticsView.tsx:72-101 | the batch for the codes drawn so far holds two writes per code |
| Analytics.LinkIdInjective | web/src/views/AnalyticsView.tsx:74 | `${code}-${platform}` ids of equal-length codes determine code and platform |
| Analytics.CampaignBatchSnoc | web/src/views/AnalyticsView.tsx:72-101 | each loop round adds that platform's two writes at the end of the batch |
| Analytics.CampaignBatchShape | web/src/views/AnalyticsView.tsx:72-101 | the batch has two writes per platform: the user's copy, then the tracking record |
| Analytics.PlatformWritesEffect | web/src/views/AnalyticsView.tsx:82-100 | one platform's writes store exactly its user link and its tracking record |
| Analytics.CampaignKeysDistinct | web/src/views/AnalyticsView.tsx:74 | two platforms of one campaign never share a user-link key |
| Analytics.StepLinks | web/src/views/AnalyticsView.tsx:72-101 | after each round, every platform so far has its user link stored |
| Analytics.StepTracking | web/src/views/AnalyticsView.tsx:72-101 | after each round, every code not drawn again later resolves to its platform's record |
| Analytics.StepKeys | web/src/views/AnalyticsView.tsx:72-101 | after each round, the keys are the old keys plus the campaign's |
| Analytics.StepOthers | web/src/views/AnalyticsView.tsx:72-101 | after each round, records under keys the campaign does not write are unchanged |
| Analytics.CampaignRecords | web/src/views/AnalyticsView.tsx:49-112 | a committed campaign stores every link and tracking record, adds only its keys, and keeps every other record |
| Analytics.DeleteEffect | web/src/views/AnalyticsView.tsx:114-121 | a committed delete removes both records and keeps all others |
| Analytics.CampaignKeepsPaired | web/src/views/AnalyticsView.tsx:49-112 | a campaign of distinct fresh codes keeps the two collections describing the same links |
| Analytics.CampaignKeepsLinksTracked | web/src/views/AnalyticsView.tsx:82-100 | after a campaign whose codes are distinct, of the generator's length and not yet in use, every user link is named by a tracking record that points back to it |
| Analytics.CampaignCodeCollision | web/src/views/AnalyticsView.tsx:72-100 | when two platforms draw the same code, the second record overwrites the first and the collections are no longer paired |
| Analytics.CampaignKeepsTrackingResolved | web/src/views/AnalyticsView.tsx:93-100 | after a campaign whose codes are distinct, of the generator's length and not yet in use, every tracking record naming a link resolves to that link |
| Analytics.DeleteKeepsPaired | web/src/views/AnalyticsView.tsx:114-121 | deleting a link together with its own code keeps the collections paired |
| Analytics.CampaignWrites | web/src/views/AnalyticsView.tsx:69-101 | the loop draws one code per platform in order and builds exactly the campaign batch |
| Analytics.LinkStore.constructor | web/src/views/AnalyticsView.tsx:70 | the store starts with the given collections |
| Analytics.LinkStore.Commit | web/src/views/AnalyticsView.tsx:103 | a batch lands whole or not at all |
| Analytics.LinkStore.GenerateLinks | web/src/views/AnalyticsView.tsx:49-112 | nothing happens without input or user; a bad URL or a failed commit changes nothing; otherwise the campaign of the drawn codes is committed |
| Analytics.LinkStore.DeleteLink | web/src/views/AnalyticsView.tsx:114-121 | without a user nothing happens; otherwise both records go in one batch, or nothing changes if it fails |
| Analytics.LinkStore.GetTracking | web/src/views/RedirectView.tsx:17 | the lookup returns the stored record, or nothing when the read fails |
| Analytics.LinkStore.IncrementTracking | web/src/views/RedirectView.tsx:33-36 | an existing record gets one more click and its last-click time |
| Analytics.LinkStore.IncrementUserLink | web/src/views/RedirectView.tsx:39-42 | an existing user link gets one more click |
| Redirect.ErrorText | web/src/views/RedirectView.tsx:19-55 | an error text is shown exactly for the failure outcomes |
| Redirect.Resolve | web/src/views/RedirectView.tsx:14-61 | a visit that does not redirect leaves the store as it was; a redirect goes to the record's stored, non-empty URL; no visit adds or removes a record or a user link |
| Redirect.ResolveOutcomes | web/src/views/RedirectView.tsx:14-61 | each outcome comes from exactly its own condition, and only a redirect changes the store |
| Redirect.ResolveCounts | web/src/views/RedirectView.tsx:33-45 | a redirect goes to the stored URL, and only that record's counter rises by one |
| Redirect.ResolveMirror | web/src/views/RedirectView.tsx:39-43 | the owner's copy is counted exactly when it is named, exists and its update succeeds; no other user link changes |
| Redirect.ResolveKeepsPaired | web/src/views/RedirectView.tsx:33-43 | counting clicks keeps the collections paired |
| Redirect.ResolveAllCounts | web/src/views/RedirectView.tsx:33-36 | `n` visits raise the counter by exactly `n` and keep the URL |
| Redirect.VisitNewRecord | web/src/views/RedirectView.tsx:17-45 | the first visit to a new record redirects to its URL and counts one click on both copies |
| Redirect.CampaignRecordOf | web/src/views/AnalyticsView.tsx:82-100 | a committed campaign stores platform `i`'s two records as built |
| Redirect.CampaignThenVisit | web/src/views/RedirectView.tsx:17-45 | end to end: after a campaign, a visit redirects to the normalised typed URL and counts on both copies |
| Redirect.RedirectView.constructor | web/src/views/RedirectView.tsx:11-12 | no error and no target yet |
| Redirect.RedirectView.TrackAndRedirect | web/src/views/RedirectView.tsx:14-61 | the store and outcome are those of one resolution, and error or target are shown accordingly |
| App.RedirectCode | web/src/App.tsx:70-76 | a code is extracted exactly from `/r/` paths, as the rest of the path |
| App.RouteOf | web/src/App.tsx:70-81 | a path renders the redirect exactly when it is `/r/` followed by a non-empty code, and then for that code |
| App.RouteOfRedirect | web/src/App.tsx:70-81 | the redirect screen renders exactly for `/r/` plus a non-empty code |
| App.MainTabIndex | web/src/App.tsx:44 | `indexOf` on the main tabs: -1 exactly off the tabs, otherwise the tab's position |
| App.SwipeTabIndex | web/src/App.tsx:170-171 | `indexOf` on the four swipe tabs |
| App.TransitionFor | web/src/App.tsx:571-586 | tab to tab follows tab order, into a detail slides right, back to a tab slides left |
| App.TransitionsReverse | web/src/App.tsx:571-586 | going to a screen and coming back slide in opposite directions |
| App.SwipeTarget | web/src/App.tsx:157-182 | a swipe moves only on iOS, only from a swipe tab, and to a different swipe tab |
| App.SwipeMovesOneTab | web/src/App.tsx:157-182 | a swipe moves one tab in its direction and never past the ends; it does nothing off iOS, when vertical or short, or off the tabs |
| App.SwipeTransition | web/src/App.tsx:157-182 | a swipe to the next tab slides right, to the previous one left |
| App.ChooseTransition | web/src/App.tsx:561-586 | the branches of `handleNavigate` compute the transition rule |
| App.GrantFor | web/src/App.tsx:210-246 | only the credits pack grants no plan; every plan is `pro` with months and a type; a reward is withheld only while a subscription is active; every payment records a positive amount |
| App.ChooseGrant | web/src/App.tsx:210-246 | the product branches compute the grant rule |
| App.RenewalBase | web/src/App.tsx:249-253 | renewal counts from the end date while it lies ahead, never from the past |
| App.AfterPayment | web/src/App.tsx:249-271 | a payment keeps the user's id, never lowers credits, and any product but the credits pack leaves the user on `pro` with an end date and a type |
| App.PaidUser | web/src/App.tsx:196-271 | the code's step-by-step computation of the paid-for user reaches exactly `AfterPayment` |
| App.PaymentAppendsRecord | web/src/App.tsx:257-271 | each payment appends exactly one record, keeps the history, never lowers credits, and leaves identity and purchases alone |
| App.CreditsPurchase | web/src/App.tsx:210-213 | the credits pack adds 1000 credits, records 9 USD and leaves the subscription alone |
| App.MonthlyPurchase | web/src/App.tsx:214-223 | monthly or unknown id: pro, monthly, 19 USD, 1000 credits only without an active subscription, one month more |
| App.YearlyPurchase | web/src/App.tsx:224-246 | yearly: 12000 credits exactly without an active subscription or over a monthly one, 199 USD, twelve months more |
| App.PaymentActivates | web/src/App.tsx:249-271 | with a calendar that moves forward, a subscription payment leaves an active subscription |
| App.WithPayment | web/src/App.tsx:279-286 | the merge write replaces credits, plan and history and keeps stored course purchases |
| App.ArrayUnion | web/src/App.tsx:731 | `arrayUnion` contains the old ids and the new one, and adds nothing that was there |
| App.ArrayUnionNoDuplicates | web/src/App.tsx:731 | `arrayUnion` keeps a list free of duplicates |
| App.PurchaseKeepsNoDuplicates | web/src/App.tsx:688-757 | a purchase of a course not owned keeps both the local and stored lists duplicate-free |
| App.AppState.constructor | web/src/App.tsx:46-52 | the shell starts with the guest on the home screen |
| App.AppState.HandleNavigate | web/src/App.tsx:561-607 | the new view and transition; the chat opens with the specialist and hides the tab bar only for a specialist with an id |
| App.AppState.OnTouchStart | web/src/App.tsx:148-151 | a new touch records its start and clears the end |
| App.AppState.OnTouchMove | web/src/App.tsx:153-155 | a move records the end point |
| App.AppState.OnTouchEnd | web/src/App.tsx:157-182 | a finished swipe navigates to the swipe target, if any |
| App.AppState.HandleLogin | web/src/App.tsx:609-614 | a signed-in user starts free with no credits or purchases, on home |
| App.AppState.HandleLogout | web/src/App.tsx:623-628 | logout returns to the guest on home |
| App.AppState.CheckUsageAndProceed | web/src/App.tsx:630-637 | proceeds exactly when credits cover the cost |
| App.AppState.DeductCredits | web/src/App.tsx:640-665 | the balance drops by the cost; for a real account the stored balance drops too, and a failed transaction or a short stored balance reverts the local one |
| App.AppState.HandleInitiateCoursePurchase | web/src/App.tsx:688-757 | owned courses are refused; with enough credits and confirmation it pays and records the course; otherwise it asks and may go to the paywall |
| App.AppState.HandleCoursePurchaseSuccess | web/src/App.tsx:760-772 | the pending course is added to the purchases and the success screen shown |
| App.AppState.HandleGeneralPaymentSuccess | web/src/App.tsx:774-784 | 1000 credits and the pro plan, then the success screen |
| App.AppState.OnAppPaymentSuccess | web/src/App.tsx:196-290 | the user becomes the paid-for user, the store record gets the merge write unless it fails, and the success screen shows |
| Courses.ScreenForCourse | web/src/views/CoursesView.tsx:65-77 | owners and buyers get the course screen, everyone else the landing page |
| Courses.BackGoesUp | web/src/views/CoursesView.tsx:96-118 | back always moves one level up the course tree, and only the list has no level above |
| Courses.BackReachesList | web/src/views/CoursesView.tsx:96-118 | from any screen, at most four back steps reach the list |
| Courses.TotalLessons | web/src/views/CoursesView.tsx:149-156 | the total is the number of lessons listed in the tree, or of the flat list when there are no categories |
| Courses.TotalCountsTree | web/src/views/CoursesView.tsx:149-156 | the lesson total counts exactly the lessons listed in the tree |
| Courses.DayLessonsCount | web/src/views/CoursesView.tsx:151-152 | the day total counts exactly the days' lessons |
| Courses.DayLessonsAppend | web/src/views/CoursesView.tsx:151-152 | day totals add up over concatenation |
| Courses.CategoryLessonsAppend | web/src/views/CoursesView.tsx:150-152 | category totals add up over concatenation |
| Courses.DayLessonsReplace | web/src/views/CoursesView.tsx:151-152 | replacing one day changes the total by the difference |
| Courses.CategoryLessonsReplace | web/src/views/CoursesView.tsx:150-152 | replacing one category changes the total by the difference |
| Courses.MyCourses | web/src/views/CoursesView.tsx:562-566 | exactly the courses bought or written by the user |
| Courses.WithCategory | web/src/views/CoursesView.tsx:573-574 | exactly the courses of that main category |
| Courses.FilteredCourses | web/src/views/CoursesView.tsx:569-578 | only catalogue courses; only the user's under "my courses"; only that category under a filter |
| Courses.GroupOf | web/src/views/CoursesView.tsx:591-596 | every course is listed under one of the seven category ids |
| Courses.InGroup | web/src/views/CoursesView.tsx:590-597 | a group holds exactly the courses grouped under it |
| Courses.InGroupSnoc | web/src/views/CoursesView.tsx:590-597 | a later course goes to the end of its own group only |
| Courses.EmptyGroups | web/src/views/CoursesView.tsx:584-586 | every category id starts with an empty list |
| Courses.PushCourse | web/src/views/CoursesView.tsx:591-596 | one course is pushed onto its group, known categories or `Other` |
| Courses.GroupCourses | web/src/views/CoursesView.tsx:580-600 | every category id gets a list of exactly its courses, in order |
| Courses.GroupSizesSnoc | web/src/views/CoursesView.tsx:590-597 | a course adds one to the sizes once per occurrence of its group |
| Courses.OccursOnce | web/src/views/CoursesView.tsx:545-553 | each category id occurs once in the category list |
| Courses.GroupsPartition | web/src/views/CoursesView.tsx:580-600 | group sizes add up to the number of courses, and each course is in exactly its own group |
| Courses.EmptyGroupSizes | web/src/views/CoursesView.tsx:584-586 | empty groups have total size 0 |
| Courses.OtherRaters | web/src/views/CoursesView.tsx:136 | exactly the ratings of other users |
| Courses.UpsertRating | web/src/views/CoursesView.tsx:135-136 | the new rating goes last, the list grows by at most one, and nothing but the new rating is added |
| Courses.UpsertOnePerUser | web/src/views/CoursesView.tsx:135-136 | after rating, the user has exactly one rating, the new one, last; others keep theirs in order |
| Courses.UpsertTwice | web/src/views/CoursesView.tsx:135-136 | rating twice leaves only the second rating |
| Courses.OtherRatersSnoc | web/src/views/CoursesView.tsx:136 | filtering others distributes over appending |
| Courses.OtherRatersIdempotent | web/src/views/CoursesView.tsx:136 | filtering twice is filtering once |
| Courses.Browser.constructor | web/src/views/CoursesView.tsx:16-31 | the catalogue starts on the list with nothing selected, rating 5 |
| Courses.Browser.HandleCourseClick | web/src/views/CoursesView.tsx:65-77 | selects the course, opens its screen and hides the tab bar |
| Courses.Browser.HandleCategoryClick | web/src/views/CoursesView.tsx:79-82 | selects the category and opens it |
| Courses.Browser.HandleDayClick | web/src/views/CoursesView.tsx:84-87 | selects the day and opens it |
| Courses.Browser.HandleLessonClick | web/src/views/CoursesView.tsx:89-94 | opens the lesson and clears the homework box |
| Courses.Browser.HandleInternalBack | web/src/views/CoursesView.tsx:96-118 | one level up, clearing the selection of the level left; from the list it hands over and shows the tab bar |
| Courses.Browser.OpenRating | web/src/views/CoursesView.tsx:269 | opens the rating screen |
| Courses.Browser.SetRatingValue | web/src/views/CoursesView.tsx:490 | sets the stars |
| Courses.Browser.SetRatingComment | web/src/views/CoursesView.tsx:501 | sets the comment |
| Courses.Browser.SubmitRating | web/src/views/CoursesView.tsx:123-146 | with a course and a user, the stored ratings get the user's single new rating and the course screen reopens |
| Courses.Browser.SetHomeworkText | web/src/views/CoursesView.tsx:402 | sets the homework text |
| Courses.Browser.SendHomework | web/src/views/CoursesView.tsx:407 | marks homework sent only when some text was written |
| CourseEditor.FindCategory | web/src/views/CourseEditorView.tsx:269 | `find` gives the first category with the id, or none exactly when no id matches |
| CourseEditor.FindDay | web/src/views/CourseEditorView.tsx:303 | `find` gives a day with the id, or none exactly when no id matches |
| CourseEditor.MapCategories | web/src/views/CourseEditorView.tsx:248-253 | the matching categories are updated, the rest kept in place |
| CourseEditor.MapDays | web/src/views/CourseEditorView.tsx:282-288 | the matching days are updated, the rest kept in place |
| CourseEditor.MapLessons | web/src/views/CourseEditorView.tsx:318-326 | the matching lessons are updated, the rest kept in place |
| CourseEditor.WithoutCategory | web/src/views/CourseEditorView.tsx:255-266 | exactly the categories with other ids remain |
| CourseEditor.WithoutDay | web/src/views/CourseEditorView.tsx:290-299 | exactly the days with other ids remain |
| CourseEditor.WithoutLesson | web/src/views/CourseEditorView.tsx:328-336 | exactly the lessons with other ids remain |
| CourseEditor.AddCategory | web/src/views/CourseEditorView.tsx:234-246 | one category is appended, numbered after the others, with a default day |
| CourseEditor.AddDay | web/src/views/CourseEditorView.tsx:268-280 | `addDay` keeps the categories' number, order and ids, and changes no category but the one named |
| CourseEditor.UpdateDay | web/src/views/CourseEditorView.tsx:282-288 | `updateDay` keeps the categories' number, order and ids, and changes no category but the one named |
| CourseEditor.DeleteDay | web/src/views/CourseEditorView.tsx:290-299 | `deleteDay` keeps the categories' number, order and ids, and changes no category but the one named |
| CourseEditor.AddLesson | web/src/views/CourseEditorView.tsx:301-316 | `addLesson` keeps the categories' number, order and ids, and changes no category but the one named |
| CourseEditor.UpdateLesson | web/src/views/CourseEditorView.tsx:318-326 | `updateLesson` keeps the categories' number, order and ids, and changes no category but the one named |
| CourseEditor.DeleteLesson | web/src/views/CourseEditorView.tsx:328-336 | `deleteLesson` keeps the categories' number, order and ids, and changes no category but the one named |
| CourseEditor.SetDayHomework | web/src/views/CourseEditorView.tsx:379-381 | `setDayHomework` keeps the categories' number, order and ids, and changes no category but the one named |
| CourseEditor.UpdateCategoryOnlyMatching | web/src/views/CourseEditorView.tsx:248-253 | an update changes only matching categories and keeps the others in place |
| CourseEditor.DeleteCategoryExactly | web/src/views/CourseEditorView.tsx:255-266 | a delete removes exactly the categories with that id |
| CourseEditor.UpdateUniqueIsReplace | web/src/views/CourseEditorView.tsx:248-253 | with unique ids, updating by id replaces the one category found |
| CourseEditor.UpdateUniqueDayIsReplace | web/src/views/CourseEditorView.tsx:282-288 | with unique ids, updating a day by id replaces that day |
| CourseEditor.FindDayFirst | web/src/views/CourseEditorView.tsx:303 | with unique ids, `find` returns the day at its own position |
| CourseEditor.UpdateDayAt | web/src/views/CourseEditorView.tsx:282-288 | `updateDay` rebuilds only that category's days |
| CourseEditor.UpdateDayMissingCategory | web/src/views/CourseEditorView.tsx:283-284 | `updateDay` on a missing category changes nothing |
| CourseEditor.AddDayAt | web/src/views/CourseEditorView.tsx:268-280 | `addDay` appends one empty day, numbered after the others, to that category only |
| CourseEditor.AddDayMissingCategory | web/src/views/CourseEditorView.tsx:268-280 | `addDay` on a missing category changes nothing |
| CourseEditor.DeleteDayAt | web/src/views/CourseEditorView.tsx:290-299 | `deleteDay` removes exactly those days from that category only |
| CourseEditor.DeleteLessonAt | web/src/views/CourseEditorView.tsx:328-336 | `deleteLesson` removes exactly those lessons from that day only |
| CourseEditor.UpdateLessonAt | web/src/views/CourseEditorView.tsx:318-326 | `updateLesson` changes only the matching lessons of that day |
| CourseEditor.SetDayHomeworkAt | web/src/views/CourseEditorView.tsx:379-381 | `setDayHomework` changes only that day's homework |
| CourseEditor.AddCategoryKeepsTotal | web/src/views/CourseEditorView.tsx:234-246 | a new category adds no lesson |
| CourseEditor.AddLessonAddsOne | web/src/views/CourseEditorView.tsx:301-316 | `addLesson` on an existing day adds exactly one lesson to the course, at the end of that day |
| CourseEditor.AddLessonMissingDay | web/src/views/CourseEditorView.tsx:304 | `addLesson` on a missing day changes nothing |
| CourseEditor.NewLessonNumbered | web/src/views/CourseEditorView.tsx:306-311 | the new lesson's title reads back as its number, one after the day's count |
| CourseEditor.SavePayload | web/src/views/CourseEditorView.tsx:176-182 | the saved record names the author and the save time, keeps an existing creation time (or sets one), and keeps the course's id, title and content |
| CourseEditor.Editor.constructor | web/src/views/CourseEditorView.tsx:17-46 | the editor starts from the blank course at price 2500 |
| CourseEditor.Editor.SelectCategory | web/src/views/CourseEditorView.tsx:215-232 | selects the category and its first day, creating a default day when it has none |
| CourseEditor.Editor.EnsureDefaultDay | web/src/views/CourseEditorView.tsx:202-213 | returns the first day, or creates and stores a default day |
| CourseEditor.Editor.AddCategoryAction | web/src/views/CourseEditorView.tsx:234-246 | the course gets the new category |
| CourseEditor.Editor.DeleteCategoryAction | web/src/views/CourseEditorView.tsx:255-266 | after confirmation the category goes, clearing the selection when it was selected |
| CourseEditor.Editor.AddDayAction | web/src/views/CourseEditorView.tsx:268-280 | the course gets the new day |
| CourseEditor.Editor.DeleteDayAction | web/src/views/CourseEditorView.tsx:290-299 | after confirmation, for a known category, the day goes, clearing a selected day |
| CourseEditor.Editor.AddLessonAction | web/src/views/CourseEditorView.tsx:301-316 | the course gets the new lesson |
| CourseEditor.Editor.DeleteLessonAction | web/src/views/CourseEditorView.tsx:328-336 | the lesson goes |
| CourseEditor.Editor.ToggleFree | web/src/views/CourseEditorView.tsx:457 | the free flag flips; free sets the price to 0, otherwise the price is kept |
| CourseEditor.Editor.HandleFileSelect | web/src/views/CourseEditorView.tsx:133-145 | a video over 50 MB is held for the compression choice, a smaller one is uploaded at once |
| CourseEditor.Editor.HandleCompressionChoice | web/src/views/CourseEditorView.tsx:148-164 | the held video is uploaded as is or compressed, and the hold is cleared |
| CourseEditor.Editor.HandleSave | web/src/views/CourseEditorView.tsx:167-199 | no title or no user gives an error; otherwise the stamped course is updated or added |
| Profile.KeepNicknameChars | web/src/views/ProfileView.tsx:83 | what is kept holds only `[a-z0-9_]` and is never longer |
| Profile.KeepNicknameCharsFixed | web/src/views/ProfileView.tsx:83 | text of only `[a-z0-9_]` is kept whole |
| Profile.NormalizeNickname | web/src/views/ProfileView.tsx:83 | the normalised nickname holds only `[a-z0-9_]` and is never longer than the input |
| Profile.NormalizeNicknameIdempotent | web/src/views/ProfileView.tsx:83 | a normalised nickname is `[a-z0-9_]` text and normalising again, or normalising typed text, changes nothing |
| Profile.NicknameTextFixed | web/src/views/ProfileView.tsx:409 | normalising `[a-z0-9_]` text gives it back |
| Profile.NicknameSavedOnlyValid | web/src/views/ProfileView.tsx:82-112 | a nickname is saved only normalised, at least 3 long, changed, for a real account, and when no one else is the first holder |
| Profile.ChooseNicknameOutcome | web/src/views/ProfileView.tsx:82-112 | the checks of `handleSaveNickname`, in the code's order, reach exactly the decision the rule states |
| Profile.RemoveAt | web/src/views/ProfileView.tsx:149 | the entry at `idx` is dropped; an index out of range changes nothing |
| Profile.RemoveAtShifts | web/src/views/ProfileView.tsx:149 | one fewer entry: those before `idx` stay, those after move one place earlier |
| Profile.ProfileScreen.constructor | web/src/views/ProfileView.tsx:35-53 | the editors start from the user's fields |
| Profile.ProfileScreen.TypeNickname | web/src/views/ProfileView.tsx:409 | the field keeps only lowercased `[a-z0-9_]` and the error clears |
| Profile.ProfileScreen.HandleSaveName | web/src/views/ProfileView.tsx:55-80 | a blank or unchanged name restores the old one; otherwise the trimmed name is taken and stored for a real account |
| Profile.ProfileScreen.HandleSaveNickname | web/src/views/ProfileView.tsx:82-112 | performs the nickname decision: error texts for short or taken names, store and user updated only when saved |
| Profile.ProfileScreen.ApplyNicknameOutcome | web/src/views/ProfileView.tsx:84-112 | per outcome: the error text set, the nickname stored and the user updated only when saved, the editor closed except on a too-short or taken nickname; nothing else changes |
| Profile.ProfileScreen.HandleSaveBio | web/src/views/ProfileView.tsx:115-128 | the trimmed bio is stored and taken for a real account when the write succeeds |
| Profile.ProfileScreen.HandleAddService | web/src/views/ProfileView.tsx:130-146 | a blank entry is ignored; otherwise the trimmed service is appended and stored for a real account |
| Profile.ProfileScreen.HandleRemoveService | web/src/views/ProfileView.tsx:148-161 | the entry is removed locally, and in the store for a real account |
| Profile.ProfileScreen.HandleDevTap | web/src/views/ProfileView.tsx:209-217 | the tenth tap opens the status page and resets the counter |
| Profile.ProfileScreen.HandlePaymentAccess | web/src/views/ProfileView.tsx:239-246 | a guest logs in first, with the payment remembered; others go to the paywall |
| Profile.ProfileScreen.OnLogin | web/src/views/ProfileView.tsx:268-276 | after login, to the paywall if a payment was pending, else to the profile |
| Profile.ProfileScreen.OnLoginCancel | web/src/views/ProfileView.tsx:277-280 | cancel forgets the pending payment and returns to the profile |
| Paywall.ParseProduct | web/src/views/PaywallView.tsx:22 | a product id is accepted only as one of the three names |
| Paywall.ParseProductName | web/src/views/PaywallView.tsx:22 | every product name reads back as its product |
| Paywall.DefaultProductAsWritten | web/src/views/PaywallView.tsx:54-58 | as written: credits exactly for a yearly subscriber |
| Paywall.DefaultAsWrittenHidden | web/src/views/PaywallView.tsx:54-58 | as written, an active untyped subscription preselects the yearly card, which is not shown |
| Paywall.DefaultProduct | web/src/views/PaywallView.tsx:50-58 | the corrected preselection is always a visible card: yearly for new users and monthly subscribers, credits for yearly ones |
| Paywall.DefaultAgreesWhenTyped | web/src/views/PaywallView.tsx:54-58 | the corrected rule agrees with the written one except for an active subscription with no type |
| Paywall.VisibleCards | web/src/views/PaywallView.tsx:280 | which cards render: all without a subscription, credits and yearly for monthly, only credits for yearly |
| Paywall.NativePrice | web/src/views/PaywallView.tsx:97-99 | the native price asked is the amount the shell records for the product |
| Paywall.PricesAndPagesDistinct | web/src/views/PaywallView.tsx:97-112 | products have distinct prices and checkout pages, credits < monthly < yearly |
| Paywall.BuyActionFor | web/src/views/PaywallView.tsx:83-119 | inside the app the product goes to the app; native wrappers get the USD price; the web opens a checkout |
| Paywall.PaywallView.constructor | web/src/views/PaywallView.tsx:54-61 | opens unlocked, with the product the written rule preselects (credits exactly for a yearly subscriber, otherwise yearly) |
| Paywall.PaywallView.SelectProduct | web/src/views/PaywallView.tsx:79-81 | selects the product |
| Paywall.PaywallView.HandleBuy | web/src/views/PaywallView.tsx:83-119 | ignored while processing (no timer); otherwise locks the button, starts the channel's payment for the selection, and sets the unlock timer: 3000 ms in the app or a native wrapper, 1000 ms on the web |
| Paywall.PaywallView.Unlock | web/src/views/PaywallView.tsx:90 | the timer unlocks the button |
| Hire.SearchFilter | web/src/views/HireView.tsx:53-57 | exactly the specialists whose name or role contains the lowercased query, or all for a blank query |
| Hire.SearchBlankKeepsAll | web/src/views/HireView.tsx:54 | a blank query keeps every specialist, in order |
| Hire.SearchAppend | web/src/views/HireView.tsx:53-57 | the search works one specialist at a time, keeping order |
| Hire.InCategory | web/src/views/HireView.tsx:251 | exactly the specialists of that category |
| Hire.CategoryList | web/src/views/HireView.tsx:251 | a category page shows exactly the matching specialists of that category |
| Hire.CategoryCount | web/src/views/HireView.tsx:446 | the tile count is at most the number of listings, and zero exactly when no listing has the category |
| Hire.CategorySearchCommute | web/src/views/HireView.tsx:251 | filtering by search then category equals category then search |
| Hire.CategoryListWithinCount | web/src/views/HireView.tsx:446 | a category page never shows more than its tile counts, and exactly that many for a blank query |
| Hire.MyProfile | web/src/views/HireView.tsx:50 | the user's own listing is found exactly when one has the user's id |
| Hire.MyProfileFirst | web/src/views/HireView.tsx:50 | `find` returns the first listing with the user's id |
| Hire.FormatPrice | web/src/views/HireView.tsx:100 | the displayed price starts with the typed price |
| Hire.PriceUnitHasNoDigits | web/src/views/HireView.tsx:100 | the unit suffix holds no digits |
| Hire.PriceRoundTrip | web/src/views/HireView.tsx:69 | stripping a formatted price gives back its digits, so a digits-only price round-trips |
| Hire.Published | web/src/views/HireView.tsx:95-108 | the listing carries the user's id and name, the form's fields, rating 5.0, online, skill `Pro` |
| Hire.EditForm | web/src/views/HireView.tsx:65-75 | the edit form's price is digits only and its category is never empty |
| Hire.EditPublishedRoundTrip | web/src/views/HireView.tsx:65-115 | editing a published listing gives back its form, price reduced to digits |
| Hire.HireScreen.constructor | web/src/views/HireView.tsx:16-28 | no listings, no category, empty search, default form |
| Hire.HireScreen.OnSnapshot | web/src/views/HireView.tsx:31-37 | the snapshot replaces the listings |
| Hire.HireScreen.SetSearchQuery | web/src/views/HireView.tsx:20 | sets the query |
| Hire.HireScreen.SelectCategory | web/src/views/HireView.tsx:454 | opens or closes a category |
| Hire.HireScreen.HandleEditProfile | web/src/views/HireView.tsx:65-75 | with an own listing, the form is filled from it and opened; otherwise nothing |
| Hire.HireScreen.HandleDeleteProfile | web/src/views/HireView.tsx:77-86 | with a user and confirmation, the user's listing is deleted unless it fails |
| Hire.HireScreen.HandlePublishProfile | web/src/views/HireView.tsx:88-117 | written exactly with a user, role and price and no failure; then stored under the user's id, form closed, category opened |
| Chat.CodeOrderTotal | web/src/views/ChatView.tsx:36 | the sort order compares any two ids |
| Chat.CodeOrderAntisymmetric | web/src/views/ChatView.tsx:36 | ids each at most the other are equal |
| Chat.SortedJoin | web/src/views/ChatView.tsx:36 | the chat id is the two ids in sorted order joined by `_` |
| Chat.SortedJoinSymmetric | web/src/views/ChatView.tsx:36 | both participants derive the same chat id |
| Chat.ChatId | web/src/views/ChatView.tsx:35-37 | a chat id exists exactly with both user and specialist |
| Chat.MarkRead | web/src/views/ChatView.tsx:41-44 | an existing chat gets the reader's counter set to 0 and nothing else changes; a missing chat is not created |
| Chat.LastMessageText | web/src/views/ChatView.tsx:107 | the preview is the text, or `File` for an empty one |
| Chat.SendUpdate | web/src/views/ChatView.tsx:105-110 | the merge sets participants and preview, adds one to the partner's counter, keeps other counters and chats, creating a missing chat |
| Chat.SendThenPartnerReads | web/src/views/ChatView.tsx:41-44 | after a send, the partner opening the chat clears their counter and the sender's is unchanged |
| Chat.IsMeExactly | web/src/views/ChatView.tsx:177 | a message is drawn as mine exactly when its sender equals the user's id, both absent included |
| Chat.ShownMessagesAsWritten | web/src/views/ChatView.tsx:53-54 | as written: at most 50, the oldest |
| Chat.NewestHiddenAsWritten | web/src/views/ChatView.tsx:53-54 | as written, with 50 stored, a newly sent message is not shown |
| Chat.ShownMessages | web/src/views/ChatView.tsx:53-54 | corrected: the last 50 (or all), in order |
| Chat.NewestShown | web/src/views/ChatView.tsx:113-120 | corrected, a newly sent message is always shown last |
| Chat.AppendMessage | web/src/views/ChatView.tsx:120 | the message is added at the end of that chat's messages only |
| Chat.ChatScreen.constructor | web/src/views/ChatView.tsx:20-30 | empty input, not sending, no messages |
| Chat.ChatScreen.OnOpen | web/src/views/ChatView.tsx:40-45 | with a chat id and a user, the user's counter is cleared |
| Chat.ChatScreen.OnSnapshot | web/src/views/ChatView.tsx:48-71 | as written: shows the first (oldest) 50 stored messages of the chat, none for a chat with no messages, and clears the user's unread counter; nothing else changes |
| Chat.ChatScreen.TypeInput | web/src/views/ChatView.tsx:241 | sets the input |
| Chat.ChatScreen.HandleSubmit | web/src/views/ChatView.tsx:96-127 | nothing without text or files, chat or user; otherwise the chat update and message land unless they fail, and a failure restores the text |
| Home.RandomPick | web/src/views/HomeView.tsx:101 | the drawn number lies in `[min, max]` |
| Home.RandomPickOnto | web/src/views/HomeView.tsx:101 | every number of the range can come up |
| Home.Randomizer.constructor | web/src/views/HomeView.tsx:13-17 | bounds 1 and 100, no result, not spinning, panel closed |
| Home.Randomizer.OpenRandomizer | web/src/views/HomeView.tsx:112-115 | opens the panel with no number shown |
| Home.Randomizer.SetBounds | web/src/views/HomeView.tsx:509-520 | an unparsable bound reads as 0 |
| Home.Randomizer.HandleRandomize | web/src/views/HomeView.tsx:94-98 | nothing unless min < max; otherwise the result clears and the spin starts with the current bounds |
| Home.Randomizer.Tick | web/src/views/HomeView.tsx:100-109 | each tick shows a number of the range; the sixteenth shows the final draw and stops |
| Home.Randomizer.Spin | web/src/views/HomeView.tsx:94-110 | a whole spin stops after exactly 16 ticks on the final draw, within the starting range |
| Home.NextIndex | web/src/views/HomeView.tsx:121 | the next banner wraps after the fourth |
| Home.CarouselCycles | web/src/views/HomeView.tsx:121 | four moves return to the start, and each move changes banner |
| Home.AutoScrollTarget | web/src/views/HomeView.tsx:118-127 | the carousel moves to the next banner exactly when not touched |
| Home.ToolDestination | web/src/views/HomeView.tsx:136-142 | a tile leads to the paywall or to its tool |
| Home.PaywallExactlyWhenLocked | web/src/views/HomeView.tsx:343 | a tile leads to the paywall exactly when it shows the lock badge |
| Bot.DemoScript | web/src/views/WhatsAppBotView.tsx:35-45 | four messages alternating customer and bot |
| Bot.BotWizard.constructor | web/src/views/WhatsAppBotView.tsx:9-14 | step 1, empty fields, demo hidden |
| Bot.BotWizard.StartWizard | web/src/views/WhatsAppBotView.tsx:274 | step 1 goes to step 2 |
| Bot.BotWizard.Back | web/src/views/WhatsAppBotView.tsx:347 | step 2 goes back to step 1 |
| Bot.BotWizard.SetBotName | web/src/views/WhatsAppBotView.tsx:9 | sets the name |
| Bot.BotWizard.SelectBusinessType | web/src/views/WhatsAppBotView.tsx:10 | sets the type |
| Bot.BotWizard.HandleCreate | web/src/views/WhatsAppBotView.tsx:61-68 | step 3 unless the name is blank or no type is chosen |
| Bot.BotWizard.ShowDemo | web/src/views/WhatsAppBotView.tsx:33-35 | shows the demo and starts it only when it has no messages |
| Bot.BotWizard.DemoTick | web/src/views/WhatsAppBotView.tsx:48-55 | each tick appends the next scripted message, or stops after the last |
| Bot.BotWizard.RunDemo | web/src/views/WhatsAppBotView.tsx:47-58 | running the interval to its end delivers the whole script in order |
| Bot.BotWizard.TypingShown | web/src/views/WhatsAppBotView.tsx:218 | the typing dots show exactly while scripted messages remain |
| Toast.Without | web/src/components/Toast.tsx:72 | exactly the toasts with other ids remain |
| Toast.WithoutAppend | web/src/components/Toast.tsx:72 | removal keeps order and works part by part |
| Toast.WithoutAbsent | web/src/components/Toast.tsx:72 | removing an unknown id changes nothing |
| Toast.WithoutIdempotent | web/src/components/Toast.tsx:72 | hiding twice is hiding once |
| Toast.ShowThenHide | web/src/components/Toast.tsx:58-73 | showing a fresh toast then hiding it restores the queue |
| Toast.ToastProvider.constructor | web/src/components/Toast.tsx:56 | no toasts, no timers |
| Toast.ToastProvider.ShowToast | web/src/components/Toast.tsx:58-69 | appends the toast with default info and 3000 ms, scheduling a removal only for a positive duration |
| Toast.ToastProvider.HideToast | web/src/components/Toast.tsx:71-73 | removes that id's toasts |
| Toast.ToastProvider.TimerFires | web/src/components/Toast.tsx:65-67 | a scheduled removal removes its id's toasts |

## Left out

- Firestore, the network and the native bridge. Each store is a `map`, each remote call is one step, and each failure is a parameter. Snapshot listeners are not tied to the stores they read; their results are parameters.
- Timers (`setInterval`, `setTimeout`, the 4 s carousel, the 500 ms redirect delay, the 2.5 s bot creation delay). Each tick is its own method call.
- `Math.random()` is a real in `[0, 1)`, supplied as a parameter. The generated ids (`generateId`, toast ids) are parameters, assumed fresh where a lemma needs it.
- Floating point. The average rating in `submitRating` is not computed. The specialist rating 5.0 is stored as 50. File sizes are whole bytes.
- Dates. Times are integers. `new Date(...)` on an invalid string and time zones are not modelled. `setMonth` is a parameter `addMonths`. A handler that calls `new Date()` more than once (`handleSave`, `onAppPaymentSuccess`, `generateLinks`) gets one `now` for all of them, so its timestamps are equal.
- FFmpeg compression and storage uploads. `HandleFileSelect` and `HandleCompressionChoice` return the upload request; progress and the resulting video URL are not modelled.
- Rendering, localStorage, translations, vibration and the transient `loading`, `isCreating` and `sending` flags. In `ChatScreen`, `sending` is always false between calls. `isCreating` and the input clearing in `generateLinks` are not modelled.
- The source views outside the core are not part of this model: photo, design, video and contract generators, the admin and landing screens, business landing, login, Stripe, and the chats list loaded in App.tsx.
- `Text.Lower`: only Latin A-Z and the basic Cyrillic capitals (with Ё) are lowercased. JavaScript's `toLowerCase` covers every alphabet.
- `Chat.CodeOrderLe`: orders by code point. JavaScript's `sort()` compares UTF-16 code units, which differs only outside the Basic Multilingual Plane.
- Absent Firestore fields are read as an empty string or `None`. `Partial<...>` merges are modelled field by field only where the code sets the field.
- `Courses.GroupOf`: course categories that match JavaScript object keys such as `constructor` are not modelled. They would make `groups[category]` truthy.
- `Profile.ProfileScreen.HandleSaveNickname`: the query result order is a parameter (`holders`). Its `fails` parameter covers both a failed query and a failed write; either one closes the editor without saving.
- `Hire.SearchFilter`: the query is only lowercased, not trimmed, when matching, as in the code.
- `Chat.ChatScreen.HandleSubmit`: attached files are neither uploaded nor cleared, as in the code.
- `Analytics.CampaignKeepsPaired`: it assumes the four drawn codes are distinct and unused. The code never checks this; a repeated code makes `batch.set` overwrite the earlier tracking record (`Analytics.CampaignCodeCollision`).
- Short codes as Firestore paths: a code is a plain map key. A code containing `/` would name a nested document path in Firestore. The generator's alphabet has no `/`, but a code typed into `/r/<code>` can.
- `Home.IsLocked`: with no user there is no plan, so nothing is locked.
- `Bot.BotWizard.DemoTick`: the model appends the message at the tick's own index. React may run the state updater after the index has moved on.
- `CourseEditor.Editor.HandleSave`: it returns the write it would make (`SaveAction`); the store write itself is not performed.
- `App.AppState.DeductCredits`: a failed transaction is the parameter `txFails`. The error toast shown after a revert is not modelled.

## Findings

| source | as written | input that shows it | evidently intended | confidence | as-written member | corrected member |
|---|---|---|---|---|---|---|
| web/src/views/PaywallView.tsx:54-58 | an active subscription with no `subscriptionType` gets the yearly card preselected | a `pro` user with a future end date and no type | preselect a card that is shown, namely credits, the only card for such a user | not executed | Paywall.DefaultAsWrittenHidden | Paywall.DefaultProduct |
| web/src/views/ChatView.tsx:53-54 | `orderBy('timestamp','asc').limit(50)` shows the oldest 50 messages | a chat with 50 stored messages, then one more sent | show the newest 50, so a sent message appears | not executed | Chat.NewestHiddenAsWritten | Chat.NewestShown |
