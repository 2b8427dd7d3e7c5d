/** Client-side consequences of the Page operations, proved from their
    contracts alone. */
module Scenarios {
  import opened Wrappers
  import opened Endpoints
  import opened Views
  import opened ProfileForm
  import opened Dashboard

  /** Two notifications in a row: the first one's timer is not cancelled, so when
      it fires the second message is hidden while its own timer is still queued. */
  method StaleTimerHidesNewerMessage(page: Page, first: string, second: string)
    requires page.queuedHides == 0
    modifies page`notice, page`queuedHides
    ensures page.notice == Notice(second, false, false)
    ensures page.queuedHides == 1
  {
    page.ShowNotification(first, false);
    page.ShowNotification(second, false);
    page.HideTimerFires();
  }

  /** Opening the editor twice leaves two forms open; what the user types into
      the second one is not what is sent, because the inputs are looked up by id
      and the first form's inputs come first. */
  method SecondFormIsShadowed(page: Page, name: string, email: string, acts: FetchOutcome<seq<Activity>>,
                              now: int, localeDate: int -> string)
    returns (sent: seq<Request>)
    requires page.Valid() && page.forms == []
    modifies page`forms, page`hidden, page`profileView, page`activityItems, page`notice, page`queuedHides
    ensures |sent| >= 1 && sent[0] == Request(Put, ProfileUrl, ProfilePayload(BlankForm))
    ensures page.forms == [EditForm(name, email, None)]
  {
    page.EditProfile();
    page.EditProfile();
    assert |page.forms| == 2;
    page.FillForm(1, name, email, None);
    sent := page.SubmitProfileEdit(Ok(()), NotOk, acts, now, localeDate);
  }

  /** Against a service that stores what it receives and returns it on the
      next profile read, the displayed name and email are the submitted ones and
      the editor is closed. */
  method EditRoundTrip(page: Page, name: string, email: string, stats: Profile,
                       acts: FetchOutcome<seq<Activity>>, now: int, localeDate: int -> string)
    returns (sent: seq<Request>)
    requires page.Valid() && page.forms == []
    modifies page`forms, page`hidden, page`profileView, page`activityItems, page`notice, page`queuedHides
    ensures page.profileView.userName == name && page.profileView.userEmail == email
    ensures page.forms == [] && page.OnlyShown(ProfileSection)
  {
    page.EditProfile();
    page.FillForm(0, name, email, None);
    var echoed := FormOfPayload(ProfilePayload(page.forms[0]));
    PayloadRoundTrip(page.forms[0]);
    var stored := stats.(name := echoed.value.name, email := echoed.value.email);
    sent := page.SubmitProfileEdit(Ok(()), Ok(stored), acts, now, localeDate);
  }

  /** Every load of a list leaves exactly one section visible, the requested one,
      whether or not the fetch succeeded. */
  method LoadersSwitchFirst(page: Page, o: FetchOutcome<seq<Course>>)
    requires page.Valid()
    modifies page`hidden, page`courseCards, page`notice, page`queuedHides
    ensures page.Valid() && VisibleSections(page.sections, page.hidden) == {CoursesSection}
  {
    var sent := page.LoadCourses(o);
    ExactlyOneVisible(page.sections, page.hidden, CoursesSection);
  }
}
