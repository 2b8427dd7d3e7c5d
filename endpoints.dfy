/** The remote resource service as the dashboard sees it: a fixed base URL,
    the paths appended to it, the requests issued, and the three ways a call
    can end (script.js, lines 2, 34-37, 62-65, 87-94, 105-112, 123-126,
    139-142, 164-167, 243-248, 270-273). */
module Endpoints {
  import opened DecimalText

  const BaseUrl: string := "http://localhost:8080/api"

  const CoursesUrl: string := BaseUrl + "/courses"
  const AssignmentsUrl: string := BaseUrl + "/assignments"
  const ProgressUrl: string := BaseUrl + "/progress"
  const ProfileUrl: string := BaseUrl + "/user/profile"
  const ActivityUrl: string := BaseUrl + "/user/activity"
  const TranscriptUrl: string := BaseUrl + "/user/transcript"

  /** The URL enrollCourse posts to for a course identifier: the course
      collection's path, the identifier's numeral, then "/enroll". */
  function EnrollUrl(courseId: nat): (url: string)
    ensures |url| > |BaseUrl + "/courses/"| + |"/enroll"|
    ensures url[..|BaseUrl + "/courses/"|] == BaseUrl + "/courses/"
    ensures url[|url| - |"/enroll"|..] == "/enroll"
    ensures url[|BaseUrl + "/courses/"|..|url| - |"/enroll"|] == NatToString(courseId)
    ensures AllDigits(url[|BaseUrl + "/courses/"|..|url| - |"/enroll"|])
  {
    var url := BaseUrl + "/courses/" + NatToString(courseId) + "/enroll";
    assert url[|BaseUrl + "/courses/"|..|url| - |"/enroll"|] == NatToString(courseId);
    url
  }

  /** The URL submitAssignment posts to for an assignment identifier: the
      assignment collection's path, the identifier's numeral, then "/submit". */
  function SubmitUrl(assignmentId: nat): (url: string)
    ensures |url| > |BaseUrl + "/assignments/"| + |"/submit"|
    ensures url[..|BaseUrl + "/assignments/"|] == BaseUrl + "/assignments/"
    ensures url[|url| - |"/submit"|..] == "/submit"
    ensures url[|BaseUrl + "/assignments/"|..|url| - |"/submit"|] == NatToString(assignmentId)
    ensures AllDigits(url[|BaseUrl + "/assignments/"|..|url| - |"/submit"|])
  {
    var url := BaseUrl + "/assignments/" + NatToString(assignmentId) + "/submit";
    assert url[|BaseUrl + "/assignments/"|..|url| - |"/submit"|] == NatToString(assignmentId);
    url
  }

  datatype Verb = Get | Post | Put

  /** An uploaded file: its name and its bytes. */
  datatype FileRef = FileRef(fileName: string, bytes: seq<bv8>)

  /** One entry of a multipart (FormData) body. */
  datatype FormEntry = TextField(key: string, text: string) | FilePart(key: string, file: FileRef)

  /** A request as the dashboard issues it; `body` is empty for requests without one. */
  datatype Request = Request(verb: Verb, url: string, body: seq<FormEntry>)

  /** How one call to the service ends, as the dashboard can observe it:
      - `Ok(value)`: the response was ok and its body decoded to `value`;
      - `NotOk`: the response arrived with a non-ok status, and the caller
        throws its own fixed message;
      - `Rejected(message)`: the request itself failed, or the body could not be
        decoded; the exception carries `message`. */
  datatype FetchOutcome<+T> = Ok(value: T) | NotOk | Rejected(message: string)

  /** The message a failed call reports: the caller's fixed text for a non-ok
      status, the exception's own text otherwise. */
  function FailureMessage<T>(o: FetchOutcome<T>, fixedMessage: string): (m: string)
    requires !o.Ok?
    ensures o.NotOk? ==> m == fixedMessage
    ensures o.Rejected? ==> m == o.message
  {
    match o
    case NotOk => fixedMessage
    case Rejected(message) => message
  }

  /** The enroll URL lies under the base URL's course collection and names exactly one course. */
  lemma EnrollUrlIdentifiesCourse(a: nat, b: nat)
    ensures EnrollUrl(a)[..|BaseUrl + "/courses/"|] == BaseUrl + "/courses/"
    ensures EnrollUrl(a) == EnrollUrl(b) <==> a == b
  {
    if EnrollUrl(a) == EnrollUrl(b) {
      CancelAffixes(BaseUrl + "/courses/", NatToString(a), NatToString(b), "/enroll");
      NatToStringInjective(a, b);
    }
  }

  /** The submit URL lies under the assignment collection and names exactly one assignment. */
  lemma SubmitUrlIdentifiesAssignment(a: nat, b: nat)
    ensures SubmitUrl(a)[..|BaseUrl + "/assignments/"|] == BaseUrl + "/assignments/"
    ensures SubmitUrl(a) == SubmitUrl(b) <==> a == b
  {
    if SubmitUrl(a) == SubmitUrl(b) {
      CancelAffixes(BaseUrl + "/assignments/", NatToString(a), NatToString(b), "/submit");
      NatToStringInjective(a, b);
    }
  }

  /** An enroll request never reaches a submit endpoint or the course list. */
  lemma EnrollAndSubmitUrlsDiffer(a: nat, b: nat)
    ensures EnrollUrl(a) != SubmitUrl(b)
    ensures EnrollUrl(a) != CoursesUrl
  {
    var k := |BaseUrl| + 1;
    assert EnrollUrl(a)[k] == 'c';
    assert SubmitUrl(b)[k] == 'a';
    assert |EnrollUrl(a)| > |CoursesUrl|;
  }
}
