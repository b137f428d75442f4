/** The profile editor of the SkillSwap client
    (project/src/components/pages/Profile.js): a form over the signed-in
    user's name, bio and skill lists, with validated appends, removal by
    index, cancel and submit. */
module Profile {
  import opened Wrappers
  import opened Domain
  import opened Seqs
  import AuthContext

  /** The form's data: what is sent to the server on submit. */
  datatype ProfileForm = ProfileForm(name: string, bio: string, offeredSkills: seq<Skill>, requiredSkills: seq<RequiredSkill>)

  /** The form fields `handleInputChange` writes, by their input name. */
  datatype FormField = NameField | BioField

  const OfferedIncomplete: string := "Please fill in both category and title for the offered skill"
  const RequiredIncomplete: string := "Please fill in both category and title for the required skill"
  const SubmitFailed: string := "Failed to update profile"

  const EmptyOffered: Skill := Skill("", "", "", "Intermediate")
  const EmptyRequired: RequiredSkill := RequiredSkill("", "", "")

  /** The form as initialised from the session's user: each field of the
      user, or empty when there is no user. */
  function FormOf(user: Option<User>): (f: ProfileForm)
    ensures user.Some? ==> f == ProfileForm(user.value.name, user.value.bio, user.value.offeredSkills, user.value.requiredSkills)
    ensures user.None? ==> f == ProfileForm("", "", [], [])
  {
    match user
    case Some(u) => ProfileForm(u.name, u.bio, u.offeredSkills, u.requiredSkills)
    case None => ProfileForm("", "", [], [])
  }

  /** `{ ...prev, [name]: value }` for the form's two text inputs. */
  function ChangeField(f: ProfileForm, field: FormField, value: string): (r: ProfileForm)
    ensures field == NameField ==> r.name == value && r.bio == f.bio
    ensures field == BioField ==> r.bio == value && r.name == f.name
    ensures r.offeredSkills == f.offeredSkills && r.requiredSkills == f.requiredSkills
  {
    match field
    case NameField => f.(name := value)
    case BioField => f.(bio := value)
  }

  /** The check both add handlers make: category and title must be given. */
  predicate DraftComplete(category: string, title: string)
  {
    category != "" && title != ""
  }

  /** How far `handleSubmit` has got: no save pending, waiting for the PUT,
      or waiting for the session's `updateProfile`. */
  datatype SubmitStage = NotSaving | AwaitingPut | AwaitingUpdate

  class ProfileEditor {
    const auth: AuthContext.AuthSession
    var isEditing: bool
    var loading: bool
    var error: Option<string>
    var success: bool
    var formData: ProfileForm
    var newOffered: Skill
    var newRequired: RequiredSkill
    var saving: SubmitStage

    constructor (session: AuthContext.AuthSession)
      ensures auth == session
      ensures formData == FormOf(session.user)
      ensures !isEditing && !loading && error == None && !success
      ensures newOffered == EmptyOffered && newRequired == EmptyRequired && saving == NotSaving
    {
      auth := session;
      isEditing := false;
      loading := false;
      error := None;
      success := false;
      formData := FormOf(session.user);
      newOffered := EmptyOffered;
      newRequired := EmptyRequired;
      saving := NotSaving;
    }

    /** `handleInputChange`: only the named field of the form changes. */
    method HandleInputChange(field: FormField, value: string)
      modifies this
      ensures formData == ChangeField(old(formData), field, value)
      ensures newOffered == old(newOffered) && newRequired == old(newRequired)
      ensures error == old(error) && isEditing == old(isEditing)
      ensures loading == old(loading) && success == old(success)
      ensures saving == old(saving)
    {
      formData := ChangeField(formData, field, value);
    }

    /** `handleAddOfferedSkill`: an incomplete draft sets the error and
        changes nothing else; a complete one is appended, the draft resets
        and the error clears. */
    method HandleAddOfferedSkill()
      modifies this
      ensures !DraftComplete(old(newOffered).category, old(newOffered).title) ==>
        error == Some(OfferedIncomplete) && formData == old(formData) && newOffered == old(newOffered)
      ensures DraftComplete(old(newOffered).category, old(newOffered).title) ==>
        && formData == old(formData).(offeredSkills := old(formData).offeredSkills + [old(newOffered)])
        && newOffered == EmptyOffered
        && error == None
      ensures newRequired == old(newRequired) && isEditing == old(isEditing) && success == old(success)
      ensures loading == old(loading)
      ensures saving == old(saving)
    {
      if !DraftComplete(newOffered.category, newOffered.title) {
        error := Some(OfferedIncomplete);
        return;
      }
      formData := formData.(offeredSkills := formData.offeredSkills + [newOffered]);
      newOffered := EmptyOffered;
      error := None;
    }

    /** `handleAddRequiredSkill`: the same rule for the required list. */
    method HandleAddRequiredSkill()
      modifies this
      ensures !DraftComplete(old(newRequired).category, old(newRequired).title) ==>
        error == Some(RequiredIncomplete) && formData == old(formData) && newRequired == old(newRequired)
      ensures DraftComplete(old(newRequired).category, old(newRequired).title) ==>
        && formData == old(formData).(requiredSkills := old(formData).requiredSkills + [old(newRequired)])
        && newRequired == EmptyRequired
        && error == None
      ensures newOffered == old(newOffered) && isEditing == old(isEditing) && success == old(success)
      ensures loading == old(loading)
      ensures saving == old(saving)
    {
      if !DraftComplete(newRequired.category, newRequired.title) {
        error := Some(RequiredIncomplete);
        return;
      }
      formData := formData.(requiredSkills := formData.requiredSkills + [newRequired]);
      newRequired := EmptyRequired;
      error := None;
    }

    /** `handleRemoveOfferedSkill(index)`: exactly that entry goes, the rest
        keep their order; an index outside the list changes nothing. */
    method HandleRemoveOfferedSkill(index: int)
      modifies this
      ensures formData == old(formData).(offeredSkills := DropIndex(old(formData).offeredSkills, index))
      ensures 0 <= index < |old(formData).offeredSkills| ==>
        formData.offeredSkills == old(formData).offeredSkills[..index] + old(formData).offeredSkills[index + 1..]
      ensures !(0 <= index < |old(formData).offeredSkills|) ==> formData == old(formData)
      ensures error == old(error) && newOffered == old(newOffered) && newRequired == old(newRequired)
      ensures isEditing == old(isEditing) && loading == old(loading) && success == old(success)
      ensures saving == old(saving)
    {
      DropIndexSpec(formData.offeredSkills, index);
      formData := formData.(offeredSkills := DropIndex(formData.offeredSkills, index));
    }

    /** `handleRemoveRequiredSkill(index)`. */
    method HandleRemoveRequiredSkill(index: int)
      modifies this
      ensures formData == old(formData).(requiredSkills := DropIndex(old(formData).requiredSkills, index))
      ensures 0 <= index < |old(formData).requiredSkills| ==>
        formData.requiredSkills == old(formData).requiredSkills[..index] + old(formData).requiredSkills[index + 1..]
      ensures !(0 <= index < |old(formData).requiredSkills|) ==> formData == old(formData)
      ensures error == old(error) && newOffered == old(newOffered) && newRequired == old(newRequired)
      ensures isEditing == old(isEditing) && loading == old(loading) && success == old(success)
      ensures saving == old(saving)
    {
      DropIndexSpec(formData.requiredSkills, index);
      formData := formData.(requiredSkills := DropIndex(formData.requiredSkills, index));
    }

    /** The Edit button. */
    method StartEditing()
      modifies this
      ensures isEditing && formData == old(formData) && error == old(error)
      ensures success == old(success) && loading == old(loading)
      ensures newOffered == old(newOffered) && newRequired == old(newRequired)
      ensures saving == old(saving)
    {
      isEditing := true;
    }

    /** The Cancel button: leaves edit mode and restores name, bio and both
        skill lists from the saved user. The form is only shown on the
        private profile route, where a user is signed in. */
    method Cancel()
      requires auth.user.Some?
      modifies this
      ensures !isEditing
      ensures formData == ProfileForm(auth.user.value.name, auth.user.value.bio,
        auth.user.value.offeredSkills, auth.user.value.requiredSkills)
      ensures error == old(error) && success == old(success) && loading == old(loading)
      ensures newOffered == old(newOffered) && newRequired == old(newRequired)
      ensures saving == old(saving)
    {
      isEditing := false;
      var u := auth.user.value;
      formData := ProfileForm(u.name, u.bio, u.offeredSkills, u.requiredSkills);
    }

    /** The synchronous start of `handleSubmit`: loading starts and the
        error and success flags clear before the PUT of the form goes out.
        Save is disabled while a save is pending; the inputs and Cancel are
        not, so every other handler may run before the save settles. */
    method BeginSubmit() returns (sent: ProfileForm)
      requires saving == NotSaving
      modifies this
      ensures sent == formData && formData == old(formData)
      ensures loading && error == None && !success && saving == AwaitingPut
      ensures isEditing == old(isEditing)
      ensures newOffered == old(newOffered) && newRequired == old(newRequired)
    {
      loading := true;
      error := None;
      success := false;
      saving := AwaitingPut;
      sent := formData;
    }

    /** The PUT settles. Its answer goes on to the session's `updateProfile`;
        a failure shows the server's message or the fallback and ends
        loading in the `finally`. */
    method PutSettled(put: Outcome<User>) returns (answer: Option<User>)
      requires saving == AwaitingPut
      modifies this
      ensures put.Ok? ==> answer == Some(put.value) && saving == AwaitingUpdate
      ensures put.Ok? ==> loading == old(loading) && error == old(error)
      ensures put.Failed? ==>
        && answer == None && saving == NotSaving && !loading
        && error == Some(MessageOr(put.error, SubmitFailed))
      ensures success == old(success) && isEditing == old(isEditing) && formData == old(formData)
      ensures newOffered == old(newOffered) && newRequired == old(newRequired)
    {
      match put {
        case Ok(u) =>
          answer := Some(u);
          saving := AwaitingUpdate;
        case Failed(e) =>
          answer := None;
          error := Some(MessageOr(e, SubmitFailed));
          loading := false;
          saving := NotSaving;
      }
    }

    /** `await updateProfile(response.data)` settles (`update`). It
        reports failure by its result rather than by throwing, so the save
        counts as a success either way: success is reported and edit mode
        ends, whatever the form holds by now. Loading ends. */
    method UpdateSettled(update: Outcome<User>)
      requires saving == AwaitingUpdate
      modifies this, auth
      ensures success && !isEditing && !loading && saving == NotSaving
      ensures error == old(error) && formData == old(formData)
      ensures newOffered == old(newOffered) && newRequired == old(newRequired)
      ensures update.Ok? ==> auth.user == Some(update.value)
      ensures update.Failed? ==> auth.user == old(auth.user)
      ensures update.Failed? && AuthContext.IsUnauthorized(update.error) ==>
        auth.storage == old(auth.storage) - {AuthContext.TokenKey} && auth.redirect == Some("/login")
      ensures !(update.Failed? && AuthContext.IsUnauthorized(update.error)) ==>
        auth.storage == old(auth.storage) && auth.redirect == old(auth.redirect)
      ensures auth.token == old(auth.token) && auth.error == old(auth.error)
      ensures auth.loading == old(auth.loading) && auth.path == old(auth.path)
    {
      var _ := auth.UpdateProfile(update);
      success := true;
      isEditing := false;
      loading := false;
      saving := NotSaving;
    }
  }

  /** Rename A to B, save, and press Cancel while the PUT is pending. Cancel
      restores the form from the saved user, still A; the save then
      succeeds and the user becomes B, but the form, which the next Edit
      opens unchanged, still holds A. */
  method CancelDuringSaveLeavesStaleForm(a: User, renamed: string) returns (p: ProfileEditor)
    requires renamed != a.name
    ensures p.auth.user.Some? && p.auth.user.value.name == renamed
    ensures p.formData.name == a.name && !p.isEditing && p.success
  {
    var session := new AuthContext.AuthSession(map[], "/profile");
    var _ := session.UpdateProfile(Ok(a));
    p := new ProfileEditor(session);
    p.StartEditing();
    p.HandleInputChange(NameField, renamed);
    var sent := p.BeginSubmit();
    p.Cancel();
    var answer := p.PutSettled(Ok(a.(name := renamed)));
    p.UpdateSettled(Ok(a.(name := renamed)));
  }
}
