/**
 * The profile editor (app/profile/page.tsx): the form copied from the
 * signed-in user, the single-field edits, and the save that sends the form
 * to the profile service and hands the mapped answer to the auth context.
 * The header's initials and name are those of `UserMenu`.
 */
module Profile {
  import opened Js
  import Api
  import UserMenu

  datatype ProfileForm = ProfileForm(
    firstName: string,
    lastName: string,
    email: string,
    phone: string,
    address: string,
    dateOfBirth: string,
    passportNumber: string)

  /** The inputs, named by their `id`. */
  datatype ProfileField = FirstName | LastName | Email | Phone | Address | DateOfBirth | PassportNumber

  /** The input's `id`, which is also the user field it is filled from. */
  function Id(field: ProfileField): string {
    match field
    case FirstName => "firstName"
    case LastName => "lastName"
    case Email => "email"
    case Phone => "phone"
    case Address => "address"
    case DateOfBirth => "dateOfBirth"
    case PassportNumber => "passportNumber"
  }

  function Get(f: ProfileForm, field: ProfileField): string {
    match field
    case FirstName => f.firstName
    case LastName => f.lastName
    case Email => f.email
    case Phone => f.phone
    case Address => f.address
    case DateOfBirth => f.dateOfBirth
    case PassportNumber => f.passportNumber
  }

  /** A copy of the form with the named field replaced and the other six kept. */
  function With(f: ProfileForm, field: ProfileField, value: string): (r: ProfileForm)
    ensures Get(r, field) == value
    ensures forall g :: g != field ==> Get(r, g) == Get(f, g)
  {
    match field
    case FirstName => f.(firstName := value)
    case LastName => f.(lastName := value)
    case Email => f.(email := value)
    case Phone => f.(phone := value)
    case Address => f.(address := value)
    case DateOfBirth => f.(dateOfBirth := value)
    case PassportNumber => f.(passportNumber := value)
  }

  /**
   * `s.split('T')[0]`: the longest prefix of `s` without a 'T', which is
   * all of `s` when it has none and otherwise stops at the first 'T'.
   */
  function BeforeT(s: string): (r: string)
    ensures r <= s
    ensures 'T' !in r
    ensures |r| < |s| ==> s[|r|] == 'T'
  {
    if s == [] || s[0] == 'T' then []
    else [s[0]] + BeforeT(s[1..])
  }

  /** The cut is determined: a prefix with no 'T', followed by a 'T' or the end, is the result. */
  lemma {:induction false} BeforeTUnique(s: string, i: nat)
    requires i <= |s| && 'T' !in s[..i]
    requires i < |s| ==> s[i] == 'T'
    ensures BeforeT(s) == s[..i]
  {
    if i > 0 {
      assert s[0] == s[..i][0];
      assert s[1..][..i - 1] == s[1..i];
      assert s[1..i] == s[..i][1..];
      BeforeTUnique(s[1..], i - 1);
      assert s[..i] == [s[0]] + s[1..i];
    }
  }

  /**
   * The form as it is filled from `user`: each field from the user field of
   * the same name, '' when that is missing or empty, and the date of birth
   * cut at its first 'T'.
   */
  function FormFor(user: map<string, string>): (f: ProfileForm)
    ensures forall field :: field != DateOfBirth ==> Get(f, field) == OrElse(Field(user, Id(field)), "")
    ensures Truthy(Field(user, "dateOfBirth")) ==>
      f.dateOfBirth <= user["dateOfBirth"] && 'T' !in f.dateOfBirth &&
      (|f.dateOfBirth| < |user["dateOfBirth"]| ==> user["dateOfBirth"][|f.dateOfBirth|] == 'T')
    ensures !Truthy(Field(user, "dateOfBirth")) ==> f.dateOfBirth == ""
  {
    ProfileForm(
      OrElse(Field(user, "firstName"), ""),
      OrElse(Field(user, "lastName"), ""),
      OrElse(Field(user, "email"), ""),
      OrElse(Field(user, "phone"), ""),
      OrElse(Field(user, "address"), ""),
      if Truthy(Field(user, "dateOfBirth")) then BeforeT(user["dateOfBirth"]) else "",
      OrElse(Field(user, "passportNumber"), ""))
  }

  /** What `updateUserProfile` did: answered with the stored user, or threw. */
  datatype SaveOutcome = Saved(response: map<string, string>) | SaveFailed(message: Option<string>)

  /** The request `handleSave` sends: the user's id and the whole form. */
  datatype SaveRequest = SaveRequest(userId: Option<string>, form: ProfileForm)

  class ProfilePage {
    var user: map<string, string>
    var formData: ProfileForm
    var isEditing: bool
    var isSaving: bool

    /** The page once the auth context has a user. */
    constructor(signedIn: map<string, string>)
      ensures user == signedIn && formData == FormFor(signedIn)
      ensures !isEditing && !isSaving
    {
      user := signedIn;
      formData := FormFor(signedIn);
      isEditing := false;
      isSaving := false;
    }

    /** "Edit Profile", shown while not editing. */
    method StartEditing()
      requires !isEditing
      modifies this`isEditing
      ensures isEditing
    {
      isEditing := true;
    }

    /** "Cancel", shown while editing: editing ends; the form keeps what was typed. */
    method CancelEditing()
      requires isEditing
      modifies this`isEditing
      ensures !isEditing
    {
      isEditing := false;
    }

    /**
     * `handleChange`: one input's value written to the field named by its id.
     * The inputs are disabled unless the page is editing, and the e-mail
     * input has no change handler, so only the six other fields are edited
     * and only while editing.
     */
    method HandleChange(field: ProfileField, value: string)
      requires isEditing && field != Email
      modifies this`formData
      ensures Get(formData, field) == value
      ensures forall g :: g != field ==> Get(formData, g) == Get(old(formData), g)
    {
      formData := With(formData, field, value);
    }

    /**
     * `handleSave`, as one step; the Save button exists only while editing
     * and is disabled while a save runs. Returns the request sent and the
     * value handed to `updateUser`: on success the answer with its names
     * mapped to camelCase, after which editing ends; on failure nothing, and
     * the page stays in editing mode. The form is not touched by the save
     * itself, and `isSaving` is false after either outcome.
     *
     * The auth context is not part of this model: `user` is taken to become
     * exactly the value handed to `updateUser`.
     */
    method HandleSave(outcome: SaveOutcome) returns (sent: SaveRequest, handed: Option<map<string, string>>)
      requires isEditing && !isSaving
      modifies this`user, this`isEditing, this`isSaving
      ensures sent == SaveRequest(Field(old(user), "id"), formData)
      ensures outcome.Saved? ==> handed == Some(Api.MapUser(outcome.response)) && user == handed.value && !isEditing
      ensures outcome.SaveFailed? ==> handed == None && user == old(user) && isEditing
      ensures !isSaving
    {
      isSaving := true;
      sent := SaveRequest(Field(user, "id"), formData);
      match outcome {
        case Saved(response) =>
          handed := Some(Api.MapUser(response));
          user := handed.value;
          isEditing := false;
        case SaveFailed(_) =>
          handed := None;
      }
      isSaving := false;
    }

    /** The effect on `user`: the form is refilled from the current user. */
    method SyncFromUser()
      modifies this`formData
      ensures formData == FormFor(user)
    {
      formData := FormFor(user);
    }

    /** The initials of the avatar: two letters from the names when both are set, one otherwise. */
    function Initials(): (r: string)
      reads this
      ensures 1 <= |r| <= 2
      ensures |r| == 2 <==> UserMenu.HasNames(user)
    {
      UserMenu.Initials(user)
    }

    /** The name under the avatar, never blank. */
    function DisplayName(): (r: string)
      reads this
      ensures r != ""
      ensures UserMenu.HasNames(user) ==> r == user["firstName"] + " " + user["lastName"]
    {
      UserMenu.DisplayName(user)
    }
  }

  /**
   * After a successful save the header shows the names the service stored,
   * read from its snake_case fields, whatever camelCase names it also sent.
   */
  lemma SavedNamesShown(response: map<string, string>)
    requires Truthy(Field(response, "first_name")) && Truthy(Field(response, "last_name"))
    ensures var user := Api.MapUser(response);
      && UserMenu.DisplayName(user) == response["first_name"] + " " + response["last_name"]
      && UserMenu.Initials(user) == [response["first_name"][0], response["last_name"][0]]
  {
    var user := Api.MapUser(response);
    assert Field(user, "firstName") == Field(response, "first_name");
    assert Field(user, "lastName") == Field(response, "last_name");
  }

  /** Refilling the form after a save shows the stored names in the name inputs. */
  lemma SavedNamesInForm(response: map<string, string>)
    ensures var f := FormFor(Api.MapUser(response));
      && f.firstName == OrElse(Field(response, "first_name"), "")
      && f.lastName == OrElse(Field(response, "last_name"), "")
  {
    var f := FormFor(Api.MapUser(response));
    assert Get(f, FirstName) == OrElse(Field(Api.MapUser(response), Id(FirstName)), "");
    assert Get(f, LastName) == OrElse(Field(Api.MapUser(response), Id(LastName)), "");
  }
}
