/** The dashboard controller of script.js with the DOM made explicit: which
    sections carry `hidden`, which navigation link carries `active`, the three
    list containers, the profile fields, the notification element with its
    queued hide timers, and the edit forms appended to the document body.
    Network results and the clock are parameters of the operations. */
module Dashboard {
  import opened Wrappers
  import opened DecimalText
  import opened Endpoints
  import opened Views
  import opened ProfileForm

  // ------------------------------------------------------------ constants

  const CoursesSection: string := "courses"
  const AssignmentsSection: string := "assignments"
  const ProfileSection: string := "profile"

  const CoursesFailure: string := "Failed to fetch courses"
  const AssignmentsFailure: string := "Failed to fetch assignments"
  const EnrollFailure: string := "Failed to enroll in course"
  const EnrollSuccess: string := "Successfully enrolled in course!"
  const SubmitFailure: string := "Failed to submit assignment"
  const SubmitSuccess: string := "Assignment submitted successfully!"
  const ProgressFailure: string := "Failed to fetch progress"
  const ProfileFailure: string := "Failed to fetch profile"
  const ActivityFailure: string := "Failed to fetch activity"
  const UpdateFailure: string := "Failed to update profile"
  const UpdateSuccess: string := "Profile updated successfully!"
  const TranscriptFailure: string := "Failed to download transcript"
  const TranscriptSuccess: string := "Transcript downloaded successfully!"

  const ProgressPrefix: string := "Overall Progress: "

  // --------------------------------------------------------- notification

  /** The notification element: its text, whether it wears the error colour,
      and whether it is displayed. */
  datatype Notice = Notice(text: string, isError: bool, visible: bool)

  const ErrorBackground: string := "#dc2626"
  const InfoBackground: string := "#2563eb"

  /** The element's background colour: red exactly for errors, blue otherwise. */
  function Background(n: Notice): (colour: string)
    ensures colour == ErrorBackground <==> n.isError
    ensures colour == InfoBackground <==> !n.isError
  {
    if n.isError then ErrorBackground else InfoBackground
  }

  /** The element's `style.display`: "block" exactly when shown. */
  function Display(n: Notice): (display: string)
    ensures display == "block" <==> n.visible
    ensures display == "none" <==> !n.visible
  {
    if n.visible then "block" else "none"
  }

  /** The notification a failed call raises: shown, in the error colour, with the
      fixed text for a non-ok status and the exception's text for a rejection. */
  function ErrorNotice<T>(o: FetchOutcome<T>, fixedMessage: string): (n: Notice)
    requires !o.Ok?
    ensures n.isError && n.visible && Background(n) == ErrorBackground
    ensures o.NotOk? ==> n.text == fixedMessage
    ensures o.Rejected? ==> n.text == o.message
  {
    Notice(FailureMessage(o, fixedMessage), true, true)
  }

  /** The notification an action raises: its fixed info text on success, its
      error otherwise. */
  function ActionNotice<T>(o: FetchOutcome<T>, success: string, failure: string): (n: Notice)
    ensures n.visible && (n.isError <==> !o.Ok?)
    ensures o.Ok? ==> n.text == success
    ensures o.NotOk? ==> n.text == failure
  {
    if o.Ok? then Notice(success, false, true) else ErrorNotice(o, failure)
  }

  /** viewProgress's success text: the prefix, the numeral of the percentage
      and a closing '%'. */
  function ProgressText(overall: nat): (text: string)
    ensures |text| > |ProgressPrefix| + 1 && text[..|ProgressPrefix|] == ProgressPrefix
    ensures text[|text| - 1] == '%'
    ensures text[|ProgressPrefix|..|text| - 1] == NatToString(overall)
  {
    var t := PercentText(overall);
    var text := ProgressPrefix + t;
    assert text[|ProgressPrefix|..|text| - 1] == t[..|t| - 1];
    text
  }

  /** Every action's notification is shown; it is an error exactly when the call
      failed; a success shows the fixed text, and a non-ok status shows the fixed
      failure text, which differs from the success text for each action. */
  lemma ActionNoticeMeaning<T>(o: FetchOutcome<T>, success: string, failure: string)
    ensures var n := ActionNotice(o, success, failure);
      && n.visible
      && (n.isError <==> !o.Ok?)
      && (o.Ok? ==> n.text == success && Background(n) == InfoBackground)
      && (o.NotOk? ==> n.text == failure && Background(n) == ErrorBackground)
      && (o.Rejected? ==> n.text == o.message)
    ensures EnrollSuccess != EnrollFailure && SubmitSuccess != SubmitFailure
    ensures UpdateSuccess != UpdateFailure && TranscriptSuccess != TranscriptFailure
  {
    assert EnrollSuccess[0] != EnrollFailure[0];
    assert SubmitSuccess[0] != SubmitFailure[0];
    assert UpdateSuccess[0] != UpdateFailure[0];
    assert TranscriptSuccess[0] != TranscriptFailure[0];
  }

  /** The progress text is the prefix followed by the percentage's numeral,
      which reads back as the number. */
  lemma ProgressTextReadsBack(n: nat)
    ensures var s := ProgressText(n);
      && s[..|ProgressPrefix|] == ProgressPrefix
      && s[|s| - 1] == '%'
      && s[|ProgressPrefix|..|s| - 1] == NatToString(n)
      && AllDigits(s[|ProgressPrefix|..|s| - 1])
      && DigitsValue(s[|ProgressPrefix|..|s| - 1]) == n
  {
    var s := ProgressText(n);
    PercentTextReadsBack(n);
    var t := PercentText(n);
    assert s[|ProgressPrefix|..|s| - 1] == t[..|t| - 1];
  }

  // ----------------------------------------------------------- list binders

  /** A binder's container after a load: the one-card-per-item rendering on
      success, the previous contents otherwise (the container is only cleared
      after the body decoded). */
  function Rebind<A, B>(render: A -> B, o: FetchOutcome<seq<A>>, prior: seq<B>): (cards: seq<B>)
    ensures o.Ok? ==> |cards| == |o.value|
    ensures !o.Ok? ==> cards == prior
  {
    if o.Ok? then Render(render, o.value) else prior
  }

  /** After a successful load the container holds exactly one card per item in
      server order (none for an empty list); after a failed one it is untouched. */
  lemma RebindContents<A, B>(render: A -> B, o: FetchOutcome<seq<A>>, prior: seq<B>)
    ensures o.Ok? ==>
      && |Rebind(render, o, prior)| == |o.value|
      && forall k :: 0 <= k < |o.value| ==> Rebind(render, o, prior)[k] == render(o.value[k])
    ensures o.Ok? && o.value == [] ==> Rebind(render, o, prior) == []
    ensures !o.Ok? ==> Rebind(render, o, prior) == prior
  {
    if o.Ok? {
      RenderAt(render, o.value);
    }
  }

  // ------------------------------------------------------ sections and links

  predicate Distinct(s: seq<string>) {
    forall i, j :: 0 <= i < j < |s| ==> s[i] != s[j]
  }

  /** getElementById: the position of the element with that id. */
  function IndexOf(s: seq<string>, x: string): (i: nat)
    requires x in s
    ensures i < |s| && s[i] == x
    decreases |s|
  {
    if s[0] == x then 0 else 1 + IndexOf(s[1..], x)
  }

  /** The ids of the sections not carrying `hidden`. */
  function VisibleSections(sections: seq<string>, hidden: seq<bool>): set<string>
    requires |hidden| == |sections|
  {
    set j | 0 <= j < |sections| && !hidden[j] :: sections[j]
  }

  /** The positions of the links carrying `active`. */
  function ActiveLinks(active: seq<bool>): set<nat> {
    set j: nat | j < |active| && active[j]
  }

  /** When only `id`'s section lacks `hidden`, `id` is the one visible section. */
  lemma ExactlyOneVisible(sections: seq<string>, hidden: seq<bool>, id: string)
    requires |hidden| == |sections| && id in sections
    requires forall j :: 0 <= j < |sections| ==> hidden[j] == (sections[j] != id)
    ensures VisibleSections(sections, hidden) == {id}
  {
    var j := IndexOf(sections, id);
    assert !hidden[j];
  }

  /** When only link `i` is marked, it is the one active link. */
  lemma ExactlyOneActive(active: seq<bool>, i: nat)
    requires i < |active|
    requires forall j :: 0 <= j < |active| ==> active[j] == (j == i)
    ensures ActiveLinks(active) == {i}
  {
    assert active[i];
  }

  /** Where a navigation link leads. */
  datatype Route = ToCourses | ToAssignments | ToProfile | Stay

  /** `href.substring(1)`: the href without its first character. */
  function Fragment(href: string): (fragment: string)
    ensures |href| >= 1 ==> [href[0]] + fragment == href
    ensures |href| == 0 ==> fragment == ""
  {
    if |href| >= 1 then href[1..] else ""
  }

  /** The navigation dispatch: three fragments load their section, any other loads nothing. */
  function RouteOf(href: string): (r: Route)
    ensures r == ToCourses <==> Fragment(href) == "courses"
    ensures r == ToAssignments <==> Fragment(href) == "assignments"
    ensures r == ToProfile <==> Fragment(href) == "profile"
    ensures r == Stay <==>
      Fragment(href) != "courses" && Fragment(href) != "assignments" && Fragment(href) != "profile"
  {
    var f := Fragment(href);
    if f == CoursesSection then ToCourses
    else if f == AssignmentsSection then ToAssignments
    else if f == ProfileSection then ToProfile
    else Stay
  }

  /** Only the fragment decides the route: whatever the first character is,
      and in particular for "#courses", "#assignments" and "#profile". */
  lemma RouteIgnoresFirstCharacter(c: char, d: char, rest: string)
    ensures RouteOf([c] + rest) == RouteOf([d] + rest)
    ensures RouteOf("#courses") == ToCourses && RouteOf("#assignments") == ToAssignments
    ensures RouteOf("#profile") == ToProfile && RouteOf("#") == Stay && RouteOf("") == Stay
  {
    assert Fragment([c] + rest) == rest == Fragment([d] + rest);
    assert Fragment("#courses") == "courses";
    assert Fragment("#assignments") == "assignments";
    assert Fragment("#profile") == "profile";
  }

  /** The service's answers for each endpoint a navigation click may reach. */
  datatype Responses = Responses(
    courses: FetchOutcome<seq<Course>>,
    assignments: FetchOutcome<seq<Assignment>>,
    profile: FetchOutcome<Profile>,
    activity: FetchOutcome<seq<Activity>>)

  // ------------------------------------------------------------------ page

  class Page {
    /** The ids of the document's sections, in document order. */
    const sections: seq<string>
    /** `hidden[j]`: section `j` carries the class `hidden`. */
    var hidden: seq<bool>
    /** The hrefs of the navigation links, in document order. */
    const navHrefs: seq<string>
    /** `active[j]`: link `j` carries the class `active`. */
    var active: seq<bool>
    var courseCards: seq<CourseCard>
    var assignmentCards: seq<AssignmentCard>
    var activityItems: seq<ActivityItem>
    var profileView: ProfileView
    var notice: Notice
    /** Hide timers started and not yet fired. */
    var queuedHides: nat
    /** The edit forms appended to the body, in document order. */
    var forms: seq<EditForm>

    ghost predicate Valid()
      reads this`hidden, this`active
    {
      && |hidden| == |sections|
      && |active| == |navHrefs|
      && Distinct(sections)
      && CoursesSection in sections && AssignmentsSection in sections && ProfileSection in sections
    }

    /** Section `id` is shown and every other section is hidden. */
    predicate OnlyShown(id: string)
      reads this`hidden
    {
      |hidden| == |sections| && forall j :: 0 <= j < |sections| ==> hidden[j] == (sections[j] != id)
    }

    /** The page as its markup leaves it when the script starts: every element
        is given, no hide timer is queued yet, and no edit form exists, since
        only editProfile creates one. */
    constructor (sections: seq<string>, hidden: seq<bool>, navHrefs: seq<string>, active: seq<bool>,
                 courseCards: seq<CourseCard>, assignmentCards: seq<AssignmentCard>,
                 activityItems: seq<ActivityItem>, profileView: ProfileView, notice: Notice)
      requires |hidden| == |sections| && |active| == |navHrefs| && Distinct(sections)
      requires CoursesSection in sections && AssignmentsSection in sections && ProfileSection in sections
      ensures Valid()
      ensures this.sections == sections && this.hidden == hidden
      ensures this.navHrefs == navHrefs && this.active == active
      ensures this.courseCards == courseCards && this.assignmentCards == assignmentCards
      ensures this.activityItems == activityItems
      ensures this.profileView == profileView && this.notice == notice
      ensures queuedHides == 0 && forms == []
    {
      this.sections := sections;
      this.hidden := hidden;
      this.navHrefs := navHrefs;
      this.active := active;
      this.courseCards, this.assignmentCards, this.activityItems := courseCards, assignmentCards, activityItems;
      this.profileView := profileView;
      this.notice := notice;
      queuedHides, forms := 0, [];
    }

    // ---------------------------------------------------- showNotification

    /** showNotification: replaces text, colour and display, and queues one more
        hide timer; the timers already queued stay queued. */
    method ShowNotification(message: string, isError: bool)
      modifies this`notice, this`queuedHides
      ensures notice == Notice(message, isError, true)
      ensures Display(notice) == "block"
      ensures queuedHides == old(queuedHides) + 1
    {
      notice := Notice(message, isError, true);
      queuedHides := queuedHides + 1;
    }

    /** The oldest queued hide timer fires: the element is hidden, whichever
        message it shows now. */
    method HideTimerFires()
      requires queuedHides > 0
      modifies this`notice, this`queuedHides
      ensures notice == old(notice).(visible := false) && Display(notice) == "none"
      ensures queuedHides == old(queuedHides) - 1
    {
      notice := notice.(visible := false);
      queuedHides := queuedHides - 1;
    }

    // ----------------------------------------------------------- sections

    method HideAllSections()
      requires Valid()
      modifies this`hidden
      ensures Valid()
      ensures forall j :: 0 <= j < |hidden| ==> hidden[j]
    {
      for i := 0 to |hidden|
        invariant |hidden| == |sections|
        invariant forall j :: 0 <= j < i ==> hidden[j]
      {
        hidden := hidden[i := true];
      }
    }

    /** `classList.remove('hidden')` on the section with id `id`. */
    method ShowSection(id: string)
      requires Valid() && id in sections
      modifies this`hidden
      ensures Valid()
      ensures hidden == old(hidden)[IndexOf(sections, id) := false]
    {
      hidden := hidden[IndexOf(sections, id) := false];
    }

    /** The switch every loader starts with: hide all, then show one. */
    method SwitchTo(id: string)
      requires Valid() && id in sections
      modifies this`hidden
      ensures Valid() && OnlyShown(id)
    {
      HideAllSections();
      ShowSection(id);
    }

    // ------------------------------------------------------------ binders

    /** `coursesList.innerHTML = ''` followed by one appended card per course. */
    method ReplaceCourseCards(courses: seq<Course>)
      modifies this`courseCards
      ensures courseCards == Render(CourseCardOf, courses)
    {
      courseCards := [];
      for i := 0 to |courses|
        invariant courseCards == Render(CourseCardOf, courses[..i])
      {
        RenderExtend(CourseCardOf, courses[..i], courses[i]);
        assert courses[..i + 1] == courses[..i] + [courses[i]];
        courseCards := courseCards + [CourseCardOf(courses[i])];
      }
      assert courses[..|courses|] == courses;
    }

    method ReplaceAssignmentCards(assignments: seq<Assignment>, localeDate: int -> string)
      modifies this`assignmentCards
      ensures assignmentCards == Render(AssignmentRenderer(localeDate), assignments)
    {
      var render := AssignmentRenderer(localeDate);
      assignmentCards := [];
      for i := 0 to |assignments|
        invariant assignmentCards == Render(render, assignments[..i])
      {
        RenderExtend(render, assignments[..i], assignments[i]);
        assert assignments[..i + 1] == assignments[..i] + [assignments[i]];
        assignmentCards := assignmentCards + [AssignmentCardOf(assignments[i], localeDate)];
      }
      assert assignments[..|assignments|] == assignments;
    }

    method ReplaceActivityItems(activities: seq<Activity>, now: int, localeDate: int -> string)
      modifies this`activityItems
      ensures activityItems == Render(ActivityRenderer(now, localeDate), activities)
    {
      var render := ActivityRenderer(now, localeDate);
      activityItems := [];
      for i := 0 to |activities|
        invariant activityItems == Render(render, activities[..i])
      {
        RenderExtend(render, activities[..i], activities[i]);
        assert activities[..i + 1] == activities[..i] + [activities[i]];
        activityItems := activityItems + [ActivityItemOf(activities[i], now, localeDate)];
      }
      assert activities[..|activities|] == activities;
    }

    /** loadCourses: switch to the courses section, fetch, then re-render or report. */
    method LoadCourses(o: FetchOutcome<seq<Course>>) returns (sent: seq<Request>)
      requires Valid()
      modifies this`hidden, this`courseCards, this`notice, this`queuedHides
      ensures Valid() && OnlyShown(CoursesSection)
      ensures sent == [Request(Get, CoursesUrl, [])]
      ensures courseCards == Rebind(CourseCardOf, o, old(courseCards))
      ensures o.Ok? ==> notice == old(notice) && queuedHides == old(queuedHides)
      ensures !o.Ok? ==> notice == ErrorNotice(o, CoursesFailure) && queuedHides == old(queuedHides) + 1
    {
      SwitchTo(CoursesSection);
      sent := [Request(Get, CoursesUrl, [])];
      match o
      case Ok(courses) => ReplaceCourseCards(courses);
      case NotOk => ShowNotification(CoursesFailure, true);
      case Rejected(message) => ShowNotification(message, true);
    }

    /** loadAssignments: as loadCourses, for the assignments section. */
    method LoadAssignments(o: FetchOutcome<seq<Assignment>>, localeDate: int -> string)
      returns (sent: seq<Request>)
      requires Valid()
      modifies this`hidden, this`assignmentCards, this`notice, this`queuedHides
      ensures Valid() && OnlyShown(AssignmentsSection)
      ensures sent == [Request(Get, AssignmentsUrl, [])]
      ensures assignmentCards == Rebind(AssignmentRenderer(localeDate), o, old(assignmentCards))
      ensures o.Ok? ==> notice == old(notice) && queuedHides == old(queuedHides)
      ensures !o.Ok? ==> notice == ErrorNotice(o, AssignmentsFailure) && queuedHides == old(queuedHides) + 1
    {
      SwitchTo(AssignmentsSection);
      sent := [Request(Get, AssignmentsUrl, [])];
      match o
      case Ok(assignments) => ReplaceAssignmentCards(assignments, localeDate);
      case NotOk => ShowNotification(AssignmentsFailure, true);
      case Rejected(message) => ShowNotification(message, true);
    }

    /** loadRecentActivity: fetch and re-render the activity list; no section switch. */
    method LoadRecentActivity(o: FetchOutcome<seq<Activity>>, now: int, localeDate: int -> string)
      returns (sent: seq<Request>)
      modifies this`activityItems, this`notice, this`queuedHides
      ensures sent == [Request(Get, ActivityUrl, [])]
      ensures activityItems == Rebind(ActivityRenderer(now, localeDate), o, old(activityItems))
      ensures o.Ok? ==> notice == old(notice) && queuedHides == old(queuedHides)
      ensures !o.Ok? ==> notice == ErrorNotice(o, ActivityFailure) && queuedHides == old(queuedHides) + 1
    {
      sent := [Request(Get, ActivityUrl, [])];
      match o
      case Ok(activities) => ReplaceActivityItems(activities, now, localeDate);
      case NotOk => ShowNotification(ActivityFailure, true);
      case Rejected(message) => ShowNotification(message, true);
    }

    /** loadProfile: switch to the profile section, fetch and bind the profile,
        then load the recent activity; a failed profile fetch loads no activity. */
    method LoadProfile(p: FetchOutcome<Profile>, acts: FetchOutcome<seq<Activity>>,
                       now: int, localeDate: int -> string)
      returns (sent: seq<Request>)
      requires Valid()
      modifies this`hidden, this`profileView, this`activityItems, this`notice, this`queuedHides
      ensures Valid() && OnlyShown(ProfileSection)
      ensures p.Ok? ==>
        && profileView == BindProfile(p.value)
        && activityItems == Rebind(ActivityRenderer(now, localeDate), acts, old(activityItems))
        && sent == [Request(Get, ProfileUrl, []), Request(Get, ActivityUrl, [])]
        && (acts.Ok? ==> notice == old(notice) && queuedHides == old(queuedHides))
        && (!acts.Ok? ==> notice == ErrorNotice(acts, ActivityFailure) && queuedHides == old(queuedHides) + 1)
      ensures !p.Ok? ==>
        && profileView == old(profileView) && activityItems == old(activityItems)
        && sent == [Request(Get, ProfileUrl, [])]
        && notice == ErrorNotice(p, ProfileFailure) && queuedHides == old(queuedHides) + 1
    {
      SwitchTo(ProfileSection);
      ghost var shown := hidden;
      sent := FetchProfile(p, acts, now, localeDate);
      assert hidden == shown;
    }

    /** loadProfile after the section switch: bind the fetched profile and load
        the recent activity, or report the failure. */
    method FetchProfile(p: FetchOutcome<Profile>, acts: FetchOutcome<seq<Activity>>,
                        now: int, localeDate: int -> string)
      returns (sent: seq<Request>)
      modifies this`profileView, this`activityItems, this`notice, this`queuedHides
      ensures p.Ok? ==>
        && profileView == BindProfile(p.value)
        && activityItems == Rebind(ActivityRenderer(now, localeDate), acts, old(activityItems))
        && sent == [Request(Get, ProfileUrl, []), Request(Get, ActivityUrl, [])]
        && (acts.Ok? ==> notice == old(notice) && queuedHides == old(queuedHides))
        && (!acts.Ok? ==> notice == ErrorNotice(acts, ActivityFailure) && queuedHides == old(queuedHides) + 1)
      ensures !p.Ok? ==>
        && profileView == old(profileView) && activityItems == old(activityItems)
        && sent == [Request(Get, ProfileUrl, [])]
        && notice == ErrorNotice(p, ProfileFailure) && queuedHides == old(queuedHides) + 1
    {
      sent := [Request(Get, ProfileUrl, [])];
      match p
      case Ok(profile) =>
        profileView := BindProfile(profile);
        var more := LoadRecentActivity(acts, now, localeDate);
        sent := sent + more;
      case NotOk => ShowNotification(ProfileFailure, true);
      case Rejected(message) => ShowNotification(message, true);
    }

    // ------------------------------------------------------------ actions

    /** enrollCourse: one POST to the course's enroll URL; only the notification changes. */
    method EnrollCourse(courseId: nat, o: FetchOutcome<()>) returns (sent: seq<Request>)
      modifies this`notice, this`queuedHides
      ensures sent == [Request(Post, EnrollUrl(courseId), [])]
      ensures notice == ActionNotice(o, EnrollSuccess, EnrollFailure)
      ensures queuedHides == old(queuedHides) + 1
    {
      sent := [Request(Post, EnrollUrl(courseId), [])];
      match o
      case Ok(_) => ShowNotification(EnrollSuccess, false);
      case NotOk => ShowNotification(EnrollFailure, true);
      case Rejected(message) => ShowNotification(message, true);
    }

    /** submitAssignment: one POST to the assignment's submit URL; only the notification changes. */
    method SubmitAssignment(assignmentId: nat, o: FetchOutcome<()>) returns (sent: seq<Request>)
      modifies this`notice, this`queuedHides
      ensures sent == [Request(Post, SubmitUrl(assignmentId), [])]
      ensures notice == ActionNotice(o, SubmitSuccess, SubmitFailure)
      ensures queuedHides == old(queuedHides) + 1
    {
      sent := [Request(Post, SubmitUrl(assignmentId), [])];
      match o
      case Ok(_) => ShowNotification(SubmitSuccess, false);
      case NotOk => ShowNotification(SubmitFailure, true);
      case Rejected(message) => ShowNotification(message, true);
    }

    /** The "Enroll Now" button of course card `k`. */
    method ClickEnroll(k: nat, o: FetchOutcome<()>) returns (sent: seq<Request>)
      requires k < |courseCards|
      modifies this`notice, this`queuedHides
      ensures sent == [Request(Post, EnrollUrl(courseCards[k].enrollId), [])]
      ensures notice == ActionNotice(o, EnrollSuccess, EnrollFailure)
      ensures queuedHides == old(queuedHides) + 1
    {
      sent := EnrollCourse(courseCards[k].enrollId, o);
    }

    /** The "Submit Assignment" button of assignment card `k`. */
    method ClickSubmit(k: nat, o: FetchOutcome<()>) returns (sent: seq<Request>)
      requires k < |assignmentCards|
      modifies this`notice, this`queuedHides
      ensures sent == [Request(Post, SubmitUrl(assignmentCards[k].submitId), [])]
      ensures notice == ActionNotice(o, SubmitSuccess, SubmitFailure)
      ensures queuedHides == old(queuedHides) + 1
    {
      sent := SubmitAssignment(assignmentCards[k].submitId, o);
    }

    /** viewProgress: the overall percentage as an info message, or the error. */
    method ViewProgress(o: FetchOutcome<nat>) returns (sent: seq<Request>)
      modifies this`notice, this`queuedHides
      ensures sent == [Request(Get, ProgressUrl, [])]
      ensures o.Ok? ==> notice == Notice(ProgressText(o.value), false, true)
      ensures !o.Ok? ==> notice == ErrorNotice(o, ProgressFailure)
      ensures queuedHides == old(queuedHides) + 1
    {
      sent := [Request(Get, ProgressUrl, [])];
      match o
      case Ok(overall) => ShowNotification(ProgressText(overall), false);
      case NotOk => ShowNotification(ProgressFailure, true);
      case Rejected(message) => ShowNotification(message, true);
    }

    /** downloadTranscript: the file save itself is outside the model; only the
        notification changes. */
    method DownloadTranscript(o: FetchOutcome<seq<bv8>>) returns (sent: seq<Request>)
      modifies this`notice, this`queuedHides
      ensures sent == [Request(Get, TranscriptUrl, [])]
      ensures notice == ActionNotice(o, TranscriptSuccess, TranscriptFailure)
      ensures queuedHides == old(queuedHides) + 1
    {
      sent := [Request(Get, TranscriptUrl, [])];
      match o
      case Ok(_) => ShowNotification(TranscriptSuccess, false);
      case NotOk => ShowNotification(TranscriptFailure, true);
      case Rejected(message) => ShowNotification(message, true);
    }

    // --------------------------------------------------------- navigation

    /** Lines 318-319: clear `active` from every link, then set it on link `i`. */
    method MarkActive(i: nat)
      requires Valid() && i < |navHrefs|
      modifies this`active
      ensures Valid()
      ensures forall j :: 0 <= j < |active| ==> active[j] == (j == i)
    {
      for j := 0 to |active|
        invariant |active| == |navHrefs|
        invariant forall k :: 0 <= k < j ==> !active[k]
      {
        active := active[j := false];
      }
      active := active[i := true];
    }

    /** A click on navigation link `i`: mark it, then dispatch on its fragment. */
    method ClickNavLink(i: nat, net: Responses, now: int, localeDate: int -> string)
      returns (sent: seq<Request>)
      requires Valid() && i < |navHrefs|
      modifies this`active, this`hidden, this`courseCards, this`assignmentCards
      modifies this`activityItems, this`profileView, this`notice, this`queuedHides
      ensures Valid()
      ensures forall j :: 0 <= j < |active| ==> active[j] == (j == i)
      ensures RouteOf(navHrefs[i]) == ToCourses ==>
        && OnlyShown(CoursesSection) && sent == [Request(Get, CoursesUrl, [])]
        && courseCards == Rebind(CourseCardOf, net.courses, old(courseCards))
        && assignmentCards == old(assignmentCards) && activityItems == old(activityItems)
        && profileView == old(profileView)
        && (net.courses.Ok? ==> notice == old(notice) && queuedHides == old(queuedHides))
        && (!net.courses.Ok? ==>
              notice == ErrorNotice(net.courses, CoursesFailure) && queuedHides == old(queuedHides) + 1)
      ensures RouteOf(navHrefs[i]) == ToAssignments ==>
        && OnlyShown(AssignmentsSection) && sent == [Request(Get, AssignmentsUrl, [])]
        && assignmentCards == Rebind(AssignmentRenderer(localeDate), net.assignments, old(assignmentCards))
        && courseCards == old(courseCards) && activityItems == old(activityItems)
        && profileView == old(profileView)
        && (net.assignments.Ok? ==> notice == old(notice) && queuedHides == old(queuedHides))
        && (!net.assignments.Ok? ==>
              notice == ErrorNotice(net.assignments, AssignmentsFailure) && queuedHides == old(queuedHides) + 1)
      ensures RouteOf(navHrefs[i]) == ToProfile ==>
        && OnlyShown(ProfileSection)
        && courseCards == old(courseCards) && assignmentCards == old(assignmentCards)
        && (net.profile.Ok? ==>
              && profileView == BindProfile(net.profile.value)
              && activityItems == Rebind(ActivityRenderer(now, localeDate), net.activity, old(activityItems))
              && sent == [Request(Get, ProfileUrl, []), Request(Get, ActivityUrl, [])]
              && (net.activity.Ok? ==> notice == old(notice) && queuedHides == old(queuedHides))
              && (!net.activity.Ok? ==>
                    notice == ErrorNotice(net.activity, ActivityFailure) && queuedHides == old(queuedHides) + 1))
        && (!net.profile.Ok? ==>
              && profileView == old(profileView) && activityItems == old(activityItems)
              && sent == [Request(Get, ProfileUrl, [])]
              && notice == ErrorNotice(net.profile, ProfileFailure) && queuedHides == old(queuedHides) + 1)
      ensures RouteOf(navHrefs[i]) == Stay ==>
        && sent == [] && hidden == old(hidden)
        && courseCards == old(courseCards) && assignmentCards == old(assignmentCards)
        && activityItems == old(activityItems) && profileView == old(profileView)
        && notice == old(notice) && queuedHides == old(queuedHides)
    {
      MarkActive(i);
      match RouteOf(navHrefs[i])
      case ToCourses => sent := LoadCourses(net.courses);
      case ToAssignments => sent := LoadAssignments(net.assignments, localeDate);
      case ToProfile => sent := LoadProfile(net.profile, net.activity, now, localeDate);
      case Stay => sent := [];
    }

    // ---------------------------------------------------- profile editing

    /** editProfile: appends a fresh, empty form; an open form is not closed first. */
    method EditProfile()
      modifies this`forms
      ensures forms == old(forms) + [BlankForm]
    {
      forms := forms + [BlankForm];
    }

    /** The user fills in the inputs of open form `k`. */
    method FillForm(k: nat, name: string, email: string, avatar: Option<FileRef>)
      requires k < |forms|
      modifies this`forms
      ensures forms == old(forms)[k := EditForm(name, email, avatar)]
    {
      forms := forms[k := EditForm(name, email, avatar)];
    }

    /** closeModal: removes the first open form, if any. */
    method CloseModal()
      modifies this`forms
      ensures forms == CloseFirst(old(forms))
    {
      if forms != [] {
        forms := forms[1..];
      }
    }

    /** Submitting an edit form. The inputs are looked up by id, so the values
        sent are those of the first open form. On success: notify, close the first
        form and reload the profile; on failure the forms stay open. */
    method SubmitProfileEdit(o: FetchOutcome<()>, p: FetchOutcome<Profile>,
                             acts: FetchOutcome<seq<Activity>>, now: int, localeDate: int -> string)
      returns (sent: seq<Request>)
      requires Valid() && forms != []
      modifies this`forms, this`hidden, this`profileView, this`activityItems
      modifies this`notice, this`queuedHides
      ensures Valid()
      ensures |sent| >= 1 && sent[0] == Request(Put, ProfileUrl, ProfilePayload(old(forms)[0]))
      ensures !o.Ok? ==>
        && sent == [sent[0]] && forms == old(forms)
        && hidden == old(hidden) && profileView == old(profileView) && activityItems == old(activityItems)
        && notice == ErrorNotice(o, UpdateFailure) && queuedHides == old(queuedHides) + 1
      ensures o.Ok? ==>
        && forms == CloseFirst(old(forms)) && OnlyShown(ProfileSection)
        && (p.Ok? ==>
              && profileView == BindProfile(p.value)
              && activityItems == Rebind(ActivityRenderer(now, localeDate), acts, old(activityItems))
              && sent == [sent[0], Request(Get, ProfileUrl, []), Request(Get, ActivityUrl, [])]
              && (acts.Ok? ==> notice == Notice(UpdateSuccess, false, true)
                               && queuedHides == old(queuedHides) + 1)
              && (!acts.Ok? ==> notice == ErrorNotice(acts, ActivityFailure)
                                && queuedHides == old(queuedHides) + 2))
        && (!p.Ok? ==>
              && profileView == old(profileView) && activityItems == old(activityItems)
              && sent == [sent[0], Request(Get, ProfileUrl, [])]
              && notice == ErrorNotice(p, ProfileFailure) && queuedHides == old(queuedHides) + 2)
    {
      sent := [Request(Put, ProfileUrl, ProfilePayload(forms[0]))];
      match o
      case Ok(_) =>
        var more := CompleteEdit(p, acts, now, localeDate);
        sent := sent + more;
      case NotOk => ShowNotification(UpdateFailure, true);
      case Rejected(message) => ShowNotification(message, true);
    }

    /** The profile update after an ok response: notify, close the first form
        and reload the profile; `sent` is the reload's requests. */
    method CompleteEdit(p: FetchOutcome<Profile>, acts: FetchOutcome<seq<Activity>>,
                        now: int, localeDate: int -> string)
      returns (sent: seq<Request>)
      requires Valid()
      modifies this`forms, this`hidden, this`profileView, this`activityItems
      modifies this`notice, this`queuedHides
      ensures Valid()
      ensures forms == CloseFirst(old(forms)) && OnlyShown(ProfileSection)
      ensures p.Ok? ==>
        && profileView == BindProfile(p.value)
        && activityItems == Rebind(ActivityRenderer(now, localeDate), acts, old(activityItems))
        && sent == [Request(Get, ProfileUrl, []), Request(Get, ActivityUrl, [])]
        && (acts.Ok? ==> notice == Notice(UpdateSuccess, false, true)
                         && queuedHides == old(queuedHides) + 1)
        && (!acts.Ok? ==> notice == ErrorNotice(acts, ActivityFailure)
                          && queuedHides == old(queuedHides) + 2)
      ensures !p.Ok? ==>
        && profileView == old(profileView) && activityItems == old(activityItems)
        && sent == [Request(Get, ProfileUrl, [])]
        && notice == ErrorNotice(p, ProfileFailure) && queuedHides == old(queuedHides) + 2
    {
      ShowNotification(UpdateSuccess, false);
      CloseModal();
      ghost var closed := forms;
      sent := LoadProfile(p, acts, now, localeDate);
      assert forms == closed;
    }
  }
}
