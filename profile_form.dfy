/** The profile editor of `src/components/customer/ProfileForm.tsx`: edit
    mode, field edits, avatar choice, cancel, and the decisions of the save
    handler. The upload and update calls are inputs (their outcomes), the
    request that would be sent is returned, and the toast is returned. */
module ProfileForm {
  import opened Wrappers

  /** `CustomerType`; `null` fields are `None`. */
  datatype Customer = Customer(
    id: Option<int>, email: string, fullName: string,
    phone: Option<string>, avatar: Option<string>, address: Option<string>)

  /** The fields the form's inputs edit. */
  datatype Field = FullName | Email | Phone | Address

  /** `{ ...prev, [field]: value }`. */
  function WithField(c: Customer, f: Field, value: string): Customer {
    match f
    case FullName => c.(fullName := value)
    case Email => c.(email := value)
    case Phone => c.(phone := Some(value))
    case Address => c.(address := Some(value))
  }

  /** The value a field shows. */
  function FieldValue(c: Customer, f: Field): Option<string> {
    match f
    case FullName => Some(c.fullName)
    case Email => Some(c.email)
    case Phone => c.phone
    case Address => c.address
  }

  /** Editing a field sets that field and no other; the id and avatar are
      never touched. */
  lemma WithFieldSetsOnlyThatField(c: Customer, f: Field, g: Field, value: string)
    ensures FieldValue(WithField(c, f, value), f) == Some(value)
    ensures g != f ==> FieldValue(WithField(c, f, value), g) == FieldValue(c, g)
    ensures WithField(c, f, value).id == c.id && WithField(c, f, value).avatar == c.avatar
  {
  }

  /** A chosen image file. */
  datatype FileRef = FileRef(name: string)

  /** How `uploadFile` ended: the URLs it returned (`None` for a null
      reply), or an exception with its message (`None` when the thrown
      value is not an `Error`). */
  datatype UploadOutcome = Uploaded(urls: Option<seq<string>>) | UploadThrew(uploadError: Option<string>)

  /** How `updateCustomerInfo` ended. */
  datatype UpdateOutcome = Updated | NotUpdated | UpdateThrew(updateError: Option<string>)

  datatype Toast = Toast(success: bool, message: string)

  /** The update request: the customer id and the data sent. */
  datatype UpdateRequest = UpdateRequest(customerId: int, data: Customer)

  const SavedMessage: string := "Profile updated successfully!"
  const FailedMessage: string := "Failed to update profile!"

  /** `!customer.id`: an absent id or id 0. */
  predicate HasNoId(c: Customer) {
    c.id.None? || c.id.value == 0
  }

  /** The avatar sent: the first uploaded URL when a file was chosen and
      the upload returned a non-empty list, else the customer's avatar. */
  function AvatarToSend(current: Option<string>, file: Option<FileRef>, upload: UploadOutcome): (avatar: Option<string>)
    ensures file.Some? && upload.Uploaded? && upload.urls.Some? && |upload.urls.value| > 0 ==> avatar == Some(upload.urls.value[0])
    ensures !(file.Some? && upload.Uploaded? && upload.urls.Some? && |upload.urls.value| > 0) ==> avatar == current
  {
    if file.Some? && upload.Uploaded? && upload.urls.Some? && |upload.urls.value| > 0 then Some(upload.urls.value[0])
    else current
  }

  /** The toast for an exception: its message, or the generic failure. */
  function ErrorToast(message: Option<string>): Toast {
    Toast(false, if message.Some? then message.value else FailedMessage)
  }

  class ProfileEditor {
    const customer: Customer
    var isEditing: bool
    var isLoading: bool
    var formData: Customer
    var avatarFile: Option<FileRef>
    var avatarPreview: Option<string>

    /** Not editing, not loading, the form showing the customer, and no
      avatar chosen. */
    constructor (customer: Customer)
      ensures this.customer == customer
      ensures !isEditing && !isLoading && formData == customer && avatarFile.None? && avatarPreview.None?
    {
      this.customer := customer;
      isEditing := false;
      isLoading := false;
      formData := customer;
      avatarFile := None;
      avatarPreview := None;
    }

    /** The "Edit Profile" button. */
    method StartEditing()
      modifies this
      ensures isEditing
      ensures formData == old(formData) && avatarFile == old(avatarFile) && avatarPreview == old(avatarPreview)
      ensures isLoading == old(isLoading)
    {
      isEditing := true;
    }

    /** `handleInputChange(field, value)`. */
    method HandleInputChange(field: Field, value: string)
      modifies this
      ensures formData == WithField(old(formData), field, value)
      ensures isEditing == old(isEditing) && isLoading == old(isLoading)
      ensures avatarFile == old(avatarFile) && avatarPreview == old(avatarPreview)
    {
      formData := WithField(formData, field, value);
    }

    /** `handleAvatarChange`: a chosen file is kept (its preview arrives
      later, see `PreviewLoaded`); no file changes nothing. */
    method HandleAvatarChange(file: Option<FileRef>)
      modifies this
      ensures avatarFile == if file.Some? then file else old(avatarFile)
      ensures avatarPreview == old(avatarPreview) && formData == old(formData)
      ensures isEditing == old(isEditing) && isLoading == old(isLoading)
    {
      if file.Some? {
        avatarFile := file;
      }
    }

    /** The `FileReader` finished: its data URL becomes the preview. */
    method PreviewLoaded(dataUrl: string)
      modifies this
      ensures avatarPreview == Some(dataUrl)
      ensures avatarFile == old(avatarFile) && formData == old(formData)
      ensures isEditing == old(isEditing) && isLoading == old(isLoading)
    {
      avatarPreview := Some(dataUrl);
    }

    /** `handleCancel`: back to the customer's data, out of edit mode, no
      avatar chosen. */
    method HandleCancel()
      modifies this
      ensures formData == customer && !isEditing && avatarFile.None? && avatarPreview.None?
      ensures isLoading == old(isLoading)
    {
      formData := customer;
      isEditing := false;
      avatarFile := None;
      avatarPreview := None;
    }

    /** `handleSave` given the outcomes of the upload (used only when a
      file was chosen) and of the update. Without an id nothing happens at
      all. Otherwise the request carries the edited data with only the
      avatar replaced; a failed upload sends no request; the toast reports
      the outcome; loading is off at the end whatever happened. */
    method HandleSave(upload: UploadOutcome, update: UpdateOutcome)
      returns (request: Option<UpdateRequest>, toast: Option<Toast>)
      modifies this
      ensures HasNoId(customer) ==> request.None? && toast.None? && isLoading == old(isLoading)
      ensures !HasNoId(customer) ==> !isLoading && toast.Some?
      ensures request.Some? <==> !HasNoId(customer) && (avatarFile.None? || upload.Uploaded?)
      ensures request.Some? ==> request.value == UpdateRequest(customer.id.value,
        formData.(avatar := AvatarToSend(customer.avatar, avatarFile, upload)))
      ensures request.Some? ==> toast.value == match update
        case Updated => Toast(true, SavedMessage)
        case NotUpdated => Toast(false, FailedMessage)
        case UpdateThrew(m) => ErrorToast(m)
      ensures !HasNoId(customer) && avatarFile.Some? && upload.UploadThrew? ==> toast == Some(ErrorToast(upload.uploadError))
      ensures formData == old(formData) && isEditing == old(isEditing)
      ensures avatarFile == old(avatarFile) && avatarPreview == old(avatarPreview)
    {
      request := None;
      toast := None;
      if customer.id.None? || customer.id.value == 0 {
        return;
      }
      isLoading := true;
      var avatarUrl := customer.avatar;
      if avatarFile.Some? {
        if upload.UploadThrew? {
          toast := Some(ErrorToast(upload.uploadError));
          isLoading := false;
          return;
        }
        if upload.urls.Some? && |upload.urls.value| > 0 {
          avatarUrl := Some(upload.urls.value[0]);
        }
      }
      var updatedData := formData.(avatar := avatarUrl);
      request := Some(UpdateRequest(customer.id.value, updatedData));
      match update {
        case Updated => toast := Some(Toast(true, SavedMessage));
        case NotUpdated => toast := Some(Toast(false, FailedMessage));
        case UpdateThrew(m) => toast := Some(ErrorToast(m));
      }
      isLoading := false;
    }

    /** The avatar image source: `avatarPreview || customer.avatar || ""`,
      where an empty string counts as missing. */
    function AvatarSrc(): (src: string)
      reads this
      ensures avatarPreview.Some? && avatarPreview.value != "" ==> src == avatarPreview.value
      ensures !(avatarPreview.Some? && avatarPreview.value != "") && customer.avatar.Some? ==> src == customer.avatar.value
      ensures !(avatarPreview.Some? && avatarPreview.value != "") && customer.avatar.None? ==> src == ""
    {
      if avatarPreview.Some? && avatarPreview.value != "" then avatarPreview.value
      else if customer.avatar.Some? && customer.avatar.value != "" then customer.avatar.value
      else ""
    }
  }
}
