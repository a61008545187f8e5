/** The profile editing form: a required display name and three optional fields, saved trimmed. */
module ProfileForm {
  import opened Wrappers
  import opened Text
  import opened Documents

  /** The profile being edited, as loaded; a field the document lacks is None. */
  datatype ExistingProfile = ExistingProfile(displayName: Option<string>, bio: Option<string>,
                                             contactEmail: Option<string>, phoneNumber: Option<string>)

  /** The update sent for the user's profile document. */
  datatype ProfileUpdate = ProfileUpdate(documentId: string, displayName: string, bio: string,
                                         contactEmail: string, phoneNumber: string)

  const NameRequired := "Display name is required"
  const NameTooShort := "Display name must be at least 2 characters"
  const Saved := Alert("Success", "Profile saved successfully")
  const SaveFailed := "Failed to save profile."

  /** `field || ''`. */
  function OrEmpty(field: Option<string>): (r: string)
    ensures field.Some? ==> r == field.value
    ensures field.None? ==> r == ""
  {
    if field.Some? then field.value else ""
  }

  /** The guard of `saveProfile`: blank first, then too short. */
  function DisplayNameError(displayName: string): (r: Option<string>)
    ensures r.Some? ==> r.value != ""
    ensures r.None? ==> |Trim(displayName)| >= 2
  {
    if Trim(displayName) == "" then Some(NameRequired)
    else if |Trim(displayName)| < 2 then Some(NameTooShort)
    else None
  }

  /** A display name passes with at least two characters left after trimming; a blank one gets its own message. */
  lemma DisplayNameErrorCases(displayName: string)
    ensures DisplayNameError(displayName).None? <==> |Trim(displayName)| >= 2
    ensures DisplayNameError(displayName) == Some(NameRequired) <==> AllWhitespace(displayName)
    ensures DisplayNameError(displayName) == Some(NameTooShort) <==> |Trim(displayName)| == 1
  {
    TrimBlank(displayName);
  }

  /** What one press of the save button asked for and showed. */
  datatype SaveResult = SaveResult(update: Option<ProfileUpdate>, alert: Alert, notified: bool)

  class UserProfileForm {
    var displayName: string
    var bio: string
    var contactEmail: string
    var phoneNumber: string
    var isLoading: bool

    constructor (existing: Option<ExistingProfile>)
      ensures existing.None? ==> displayName == "" && bio == "" && contactEmail == "" && phoneNumber == ""
      ensures existing.Some? ==>
        && displayName == OrEmpty(existing.value.displayName) && bio == OrEmpty(existing.value.bio)
        && contactEmail == OrEmpty(existing.value.contactEmail) && phoneNumber == OrEmpty(existing.value.phoneNumber)
      ensures !isLoading
    {
      if existing.Some? {
        displayName := OrEmpty(existing.value.displayName);
        bio := OrEmpty(existing.value.bio);
        contactEmail := OrEmpty(existing.value.contactEmail);
        phoneNumber := OrEmpty(existing.value.phoneNumber);
      } else {
        displayName, bio, contactEmail, phoneNumber := "", "", "", "";
      }
      isLoading := false;
    }

    /**
     * `saveProfile`: `user` answers `account.get()` and `updated` the update;
     * `hasCallback` is whether an `onProfileSaved` callback was given, and
     * `notified` whether it was called.
     */
    method SaveProfile(user: Result<Account>, updated: Outcome, hasCallback: bool) returns (r: SaveResult)
      modifies this
      ensures displayName == old(displayName) && bio == old(bio)
      ensures contactEmail == old(contactEmail) && phoneNumber == old(phoneNumber)
      ensures DisplayNameError(displayName).Some? ==>
        r == SaveResult(None, Alert("Error", DisplayNameError(displayName).value), false) && isLoading == old(isLoading)
      ensures DisplayNameError(displayName).None? ==> !isLoading
      ensures DisplayNameError(displayName).None? && user.Err? ==>
        r == SaveResult(None, Alert("Error", MessageOr(user.error, SaveFailed)), false)
      ensures DisplayNameError(displayName).None? && user.Ok? ==>
        && r.update == Some(ProfileUpdate(user.value.id, Trim(displayName), Trim(bio), Trim(contactEmail), Trim(phoneNumber)))
        && r.notified == (updated.Done? && hasCallback)
        && r.alert == (if updated.Done? then Saved else Alert("Error", MessageOr(updated.error, SaveFailed)))
    {
      if Trim(displayName) == "" {
        return SaveResult(None, Alert("Error", NameRequired), false);
      }
      if |Trim(displayName)| < 2 {
        return SaveResult(None, Alert("Error", NameTooShort), false);
      }
      isLoading := true;
      if user.Err? {
        isLoading := false;
        return SaveResult(None, Alert("Error", MessageOr(user.error, SaveFailed)), false);
      }
      var update := ProfileUpdate(user.value.id, Trim(displayName), Trim(bio), Trim(contactEmail), Trim(phoneNumber));
      if updated.Failed? {
        isLoading := false;
        return SaveResult(Some(update), Alert("Error", MessageOr(updated.error, SaveFailed)), false);
      }
      isLoading := false;
      r := SaveResult(Some(update), Saved, hasCallback);
    }
  }
}
