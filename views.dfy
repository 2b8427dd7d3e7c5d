/** What the dashboard renders, as values: the records the service returns,
    the cards and items built from them (their fields, not their markup),
    and the pure helpers formatTime and getActivityIcon and the profile
    field binding of script.js. */
module Views {
  import opened Wrappers
  import opened DecimalText

  // ---------------------------------------------------------------- records

  datatype Course = Course(id: nat, title: string, description: string, instructor: string)

  /** `dueDate` is a millisecond timestamp. */
  datatype Assignment = Assignment(id: nat, title: string, description: string, dueDate: int)

  /** `kind` is the activity's `type` field; `timestamp` is in milliseconds. */
  datatype Activity = Activity(kind: string, title: string, description: string, timestamp: int)

  datatype Profile = Profile(
    name: string,
    email: string,
    avatar: Option<string>,
    enrolledCourses: nat,
    completedAssignments: nat,
    averageGrade: nat)

  // ------------------------------------------------------------------ cards

  /** A course card: heading, description, instructor line, and the course its
      "Enroll Now" button enrolls in. */
  datatype CourseCard = CourseCard(title: string, description: string, instructor: string, enrollId: nat)

  /** An assignment card: heading, description, due date as shown, and the
      assignment its "Submit Assignment" button submits. */
  datatype AssignmentCard = AssignmentCard(title: string, description: string, dueDate: string, submitId: nat)

  /** One entry of the recent-activity list. */
  datatype ActivityItem = ActivityItem(icon: string, title: string, description: string, time: string)

  /** A course card shows the course's own fields, and its button enrolls in that course. */
  function CourseCardOf(c: Course): (card: CourseCard)
    ensures card.title == c.title && card.description == c.description
    ensures card.instructor == c.instructor && card.enrollId == c.id
  {
    CourseCard(c.title, c.description, c.instructor, c.id)
  }

  /** `localeDate` stands for `new Date(t).toLocaleDateString()`, which depends
      on the browser's locale. */
  function AssignmentCardOf(a: Assignment, localeDate: int -> string): (card: AssignmentCard)
    ensures card.title == a.title && card.description == a.description
    ensures card.dueDate == localeDate(a.dueDate) && card.submitId == a.id
  {
    AssignmentCard(a.title, a.description, localeDate(a.dueDate), a.id)
  }

  function AssignmentRenderer(localeDate: int -> string): Assignment -> AssignmentCard {
    a => AssignmentCardOf(a, localeDate)
  }

  /** An activity item: the type's icon (never empty), the title and description,
      and the age of the timestamp. */
  function ActivityItemOf(a: Activity, now: int, localeDate: int -> string): (item: ActivityItem)
    ensures item.icon == ActivityIcon(a.kind) && item.icon != ""
    ensures item.title == a.title && item.description == a.description
    ensures item.time == FormatTime(now, a.timestamp, localeDate)
  {
    ActivityItem(ActivityIcon(a.kind), a.title, a.description, FormatTime(now, a.timestamp, localeDate))
  }

  function ActivityRenderer(now: int, localeDate: int -> string): Activity -> ActivityItem {
    a => ActivityItemOf(a, now, localeDate)
  }

  /** The container's contents after rendering `items` one card at a time, in order. */
  function Render<A, B>(render: A -> B, items: seq<A>): (cards: seq<B>)
    ensures |cards| == |items|
    ensures items != [] ==> cards[|items| - 1] == render(items[|items| - 1])
    decreases |items|
  {
    if items == [] then []
    else Render(render, items[..|items| - 1]) + [render(items[|items| - 1])]
  }

  /** Appending one more item appends exactly its card. */
  lemma RenderExtend<A, B>(render: A -> B, items: seq<A>, x: A)
    ensures Render(render, items + [x]) == Render(render, items) + [render(x)]
  {
    assert (items + [x])[..|items|] == items;
  }

  /** The rendered container holds one card per item, in item order, and nothing else. */
  lemma {:induction false} RenderAt<A, B>(render: A -> B, items: seq<A>)
    ensures |Render(render, items)| == |items|
    ensures forall k :: 0 <= k < |items| ==> Render(render, items)[k] == render(items[k])
    decreases |items|
  {
    if items != [] {
      var init := items[..|items| - 1];
      RenderAt(render, init);
      assert forall k :: 0 <= k < |init| ==> init[k] == items[k];
    }
  }

  // ------------------------------------------------------------- formatTime

  /** The bucket a millisecond age falls into. */
  datatype Elapsed = JustNow | MinutesAgo(minutes: nat) | HoursAgo(hours: nat) | OnDate

  /** Bucketing of `diff = now - timestamp` in milliseconds; the counts are
      the floor of the quotient. A negative age (a future timestamp) is "just now". */
  function ElapsedOf(diff: int): (e: Elapsed)
    ensures e.JustNow? <==> diff < 60000
    ensures e.MinutesAgo? <==> 60000 <= diff < 3600000
    ensures e.HoursAgo? <==> 3600000 <= diff < 86400000
    ensures e.OnDate? <==> 86400000 <= diff
    ensures e.MinutesAgo? ==>
      1 <= e.minutes <= 59 && e.minutes * 60000 <= diff < (e.minutes + 1) * 60000
    ensures e.HoursAgo? ==>
      1 <= e.hours <= 23 && e.hours * 3600000 <= diff < (e.hours + 1) * 3600000
  {
    if diff < 60000 then JustNow
    else if diff < 3600000 then MinutesAgo(diff / 60000)
    else if diff < 86400000 then HoursAgo(diff / 3600000)
    else OnDate
  }

  /** formatTime: `now` is the clock reading, `localeDate` the locale's date text.
      The text is "Just now", "N minutes ago", "N hours ago" (N the floor of the
      quotient, within 1..59 and 1..23) or the date, by bucket of the age. */
  function FormatTime(now: int, timestamp: int, localeDate: int -> string): (r: string)
    ensures var diff := now - timestamp;
      && (diff < 60000 ==> r == "Just now")
      && (60000 <= diff < 3600000 ==>
            1 <= diff / 60000 <= 59 && r == NatToString(diff / 60000) + " minutes ago")
      && (3600000 <= diff < 86400000 ==>
            1 <= diff / 3600000 <= 23 && r == NatToString(diff / 3600000) + " hours ago")
      && (86400000 <= diff ==> r == localeDate(timestamp))
  {
    match ElapsedOf(now - timestamp)
    case JustNow => "Just now"
    case MinutesAgo(m) => NatToString(m) + " minutes ago"
    case HoursAgo(h) => NatToString(h) + " hours ago"
    case OnDate => localeDate(timestamp)
  }

  /** Ages of ten seconds, five minutes, two hours and three days. */
  lemma FormatTimeExamples(now: int, localeDate: int -> string)
    ensures FormatTime(now, now - 10000, localeDate) == "Just now"
    ensures FormatTime(now, now - 300000, localeDate) == "5 minutes ago"
    ensures FormatTime(now, now - 7200000, localeDate) == "2 hours ago"
    ensures FormatTime(now, now - 259200000, localeDate) == localeDate(now - 259200000)
  {
    assert now - (now - 10000) == 10000;
    assert now - (now - 300000) == 300000 && 300000 / 60000 == 5;
    assert now - (now - 7200000) == 7200000 && 7200000 / 3600000 == 2;
    assert now - (now - 259200000) == 259200000;
    assert NatToString(5) == "5";
    assert NatToString(2) == "2";
  }

  // -------------------------------------------------------- getActivityIcon

  const FallbackIcon: string := "\U{1F4CC}"

  /** The icon table: course, assignment, quiz, grade. */
  const Icons: map<string, string> := map[
    "course" := "\U{1F4DA}",
    "assignment" := "\U{1F4DD}",
    "quiz" := "\U{270D}\U{FE0F}",
    "grade" := "\U{1F3AF}"]

  /** getActivityIcon: the table's entry, or the pin when the entry is missing or empty. */
  function ActivityIcon(kind: string): (icon: string)
    ensures icon != ""
    ensures kind in Icons ==> icon == Icons[kind]
    ensures kind !in Icons ==> icon == FallbackIcon
  {
    if kind in Icons && Icons[kind] != "" then Icons[kind] else FallbackIcon
  }

  /** Every listed type gets its own glyph, and exactly the unlisted types get the pin. */
  lemma ActivityIconTable(kind: string, other: string)
    ensures kind == "course" ==> ActivityIcon(kind) == "\U{1F4DA}"
    ensures kind == "assignment" ==> ActivityIcon(kind) == "\U{1F4DD}"
    ensures kind == "quiz" ==> ActivityIcon(kind) == "\U{270D}\U{FE0F}"
    ensures kind == "grade" ==> ActivityIcon(kind) == "\U{1F3AF}"
    ensures ActivityIcon(kind) == FallbackIcon <==>
      kind != "course" && kind != "assignment" && kind != "quiz" && kind != "grade"
    ensures kind in Icons && other in Icons && kind != other ==> ActivityIcon(kind) != ActivityIcon(other)
  {
    assert Icons.Keys == {"course", "assignment", "quiz", "grade"};
  }

  // ---------------------------------------------------- profile field binding

  const PlaceholderAvatar: string := "https://via.placeholder.com/150"

  /** The text the profile section shows. */
  datatype ProfileView = ProfileView(
    userName: string,
    userEmail: string,
    imageSrc: string,
    enrolledCount: string,
    completedCount: string,
    averageGrade: string)

  /** `profile.avatar || placeholder`: an absent or empty avatar falls back to the placeholder. */
  function AvatarSource(avatar: Option<string>): (src: string)
    ensures src != ""
    ensures avatar.Some? && avatar.value != "" ==> src == avatar.value
    ensures avatar.None? || avatar.value == "" ==> src == PlaceholderAvatar
  {
    if avatar.Some? && avatar.value != "" then avatar.value else PlaceholderAvatar
  }

  /** loadProfile's binding of a profile record to the view: name and email as
      received, the avatar or the placeholder, the counters as the numerals of
      the record's numbers, and the grade as its numeral with a trailing '%'. */
  function BindProfile(p: Profile): (v: ProfileView)
    ensures v.userName == p.name && v.userEmail == p.email
    ensures v.imageSrc == AvatarSource(p.avatar) && v.imageSrc != ""
    ensures v.enrolledCount == NatToString(p.enrolledCourses)
    ensures v.completedCount == NatToString(p.completedAssignments)
    ensures v.averageGrade == PercentText(p.averageGrade)
  {
    ProfileView(
      p.name,
      p.email,
      AvatarSource(p.avatar),
      NatToString(p.enrolledCourses),
      NatToString(p.completedAssignments),
      PercentText(p.averageGrade))
  }

  /** The bound counters read back as the profile's numbers, and the grade is
      digits reading back as the profile's grade, then '%'. */
  lemma BindProfileReadsBack(p: Profile)
    ensures var v := BindProfile(p);
      && AllDigits(v.enrolledCount) && DigitsValue(v.enrolledCount) == p.enrolledCourses
      && AllDigits(v.completedCount) && DigitsValue(v.completedCount) == p.completedAssignments
      && var g := v.averageGrade;
         |g| >= 2 && g[|g| - 1] == '%' && AllDigits(g[..|g| - 1]) && DigitsValue(g[..|g| - 1]) == p.averageGrade
  {
    NatToStringRoundTrip(p.enrolledCourses);
    NatToStringRoundTrip(p.completedAssignments);
    PercentTextReadsBack(p.averageGrade);
  }
}
