/** The profile edit flow's values: what an edit form holds, the multipart
    body its submission sends (script.js, lines 234-246), and closeModal's
    removal of the first open form (lines 260-265). */
module ProfileForm {
  import opened Wrappers
  import opened Endpoints

  /** The values currently in one edit form's name, email and file inputs. */
  datatype EditForm = EditForm(name: string, email: string, avatar: Option<FileRef>)

  /** editProfile's inputs start empty: nothing is filled in from the profile. */
  const BlankForm: EditForm := EditForm("", "", None)

  /** The FormData: name, then email, then the avatar only when a file was chosen. */
  function ProfilePayload(f: EditForm): (body: seq<FormEntry>)
    ensures |body| == if f.avatar.Some? then 3 else 2
    ensures body[0] == TextField("name", f.name) && body[1] == TextField("email", f.email)
    ensures f.avatar.Some? ==> body[2] == FilePart("avatar", f.avatar.value)
  {
    [TextField("name", f.name), TextField("email", f.email)]
      + (if f.avatar.Some? then [FilePart("avatar", f.avatar.value)] else [])
  }

  function Keys(body: seq<FormEntry>): (keys: seq<string>)
    ensures |keys| == |body| && forall i :: 0 <= i < |body| ==> keys[i] == body[i].key
  {
    seq(|body|, i requires 0 <= i < |body| => body[i].key)
  }

  /** What a server reads from such a body: the name and email fields, and the
      avatar file when present. */
  function FormOfPayload(body: seq<FormEntry>): Option<EditForm> {
    if |body| == 2 && body[0].TextField? && body[0].key == "name"
       && body[1].TextField? && body[1].key == "email"
    then Some(EditForm(body[0].text, body[1].text, None))
    else if |body| == 3 && body[0].TextField? && body[0].key == "name"
       && body[1].TextField? && body[1].key == "email"
       && body[2].FilePart? && body[2].key == "avatar"
    then Some(EditForm(body[0].text, body[1].text, Some(body[2].file)))
    else None
  }

  /** The payload carries the form's values and nothing else: it reads back as the form,
      its keys are name and email in that order, and "avatar" occurs iff a file was chosen. */
  lemma PayloadRoundTrip(f: EditForm)
    ensures FormOfPayload(ProfilePayload(f)) == Some(f)
    ensures Keys(ProfilePayload(f))[..2] == ["name", "email"]
    ensures "avatar" in Keys(ProfilePayload(f)) <==> f.avatar.Some?
  {
    var keys := Keys(ProfilePayload(f));
    if f.avatar.Some? {
      assert keys == ["name", "email", "avatar"];
    } else {
      assert keys == ["name", "email"];
    }
  }

  /** closeModal: the first open form goes; with none open nothing changes. */
  function CloseFirst(forms: seq<EditForm>): (rest: seq<EditForm>)
    ensures forms != [] ==> [forms[0]] + rest == forms
    ensures forms == [] ==> rest == []
  {
    if forms != [] then forms[1..] else forms
  }

  /** Closing is a no-op exactly when no form is open, and closing twice with one
      form open is the same as closing once. */
  lemma CloseFirstIdempotent(forms: seq<EditForm>)
    ensures CloseFirst(forms) == forms <==> forms == []
    ensures |forms| <= 1 ==> CloseFirst(CloseFirst(forms)) == CloseFirst(forms) == []
  {
    if forms != [] {
      assert |CloseFirst(forms)| < |forms|;
    }
  }
}
