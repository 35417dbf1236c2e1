/**
 * The serializers behind the profile update and the password set:
 * field validation of the request data and the update rules they apply to
 * a model instance before saving it.
 */
module Serializers {
  import opened Wrappers
  import opened Store

  /** The profile request body as received: each field may be absent. */
  datatype ProfileInput = ProfileInput(firstName: Option<string>, lastName: Option<string>, birthDate: Option<string>)

  /** `validated_data` of `UserCreateSerializer`: only the fields that were supplied. */
  datatype ProfileData = ProfileData(firstName: Option<string>, lastName: Option<string>, birthDate: Option<Date>)

  /** A `CharField(required=False)`: an absent value is accepted, a supplied one must not be blank. */
  predicate OptionalCharField(v: Option<string>) {
    v.None? || v.value != ""
  }

  /**
   * `UserCreateSerializer.is_valid()`: the two names are optional non-blank
   * strings and the birth date, when supplied, must parse as a date.
   */
  function ValidateProfile(input: ProfileInput, parseDate: string -> Option<Date>): (r: Option<ProfileData>)
    ensures r.Some? <==>
              OptionalCharField(input.firstName) && OptionalCharField(input.lastName) &&
              (input.birthDate.Some? ==> parseDate(input.birthDate.value).Some?)
    ensures r.Some? ==> r.value.firstName == input.firstName && r.value.lastName == input.lastName
    ensures r.Some? ==> (input.birthDate.None? ==> r.value.birthDate.None?)
    ensures r.Some? ==> (input.birthDate.Some? ==> r.value.birthDate == parseDate(input.birthDate.value))
  {
    if !OptionalCharField(input.firstName) || !OptionalCharField(input.lastName) then None
    else match input.birthDate
      case None => Some(ProfileData(input.firstName, input.lastName, None))
      case Some(raw) =>
        match parseDate(raw)
        case None => None
        case Some(d) => Some(ProfileData(input.firstName, input.lastName, Some(d)))
  }

  /** `validated_data.get(key, current)`: the supplied value if present, else the current one. */
  function Supplied<T>(v: Option<T>, current: Option<T>): Option<T> {
    if v.Some? then v else current
  }

  /** The row `UserCreateSerializer.update` leaves behind. */
  function MergeProfile(a: Account, d: ProfileData): (b: Account)
    ensures b.email == a.email && b.passwordHash == a.passwordHash && b.isVerified == a.isVerified
    ensures d.firstName.Some? ==> b.firstName == d.firstName
    ensures d.firstName.None? ==> b.firstName == a.firstName
    ensures d.lastName.Some? ==> b.lastName == d.lastName
    ensures d.lastName.None? ==> b.lastName == a.lastName
    ensures d.birthDate.Some? ==> b.birthDate == d.birthDate
    ensures d.birthDate.None? ==> b.birthDate == a.birthDate
  {
    a.(firstName := Supplied(d.firstName, a.firstName),
       lastName := Supplied(d.lastName, a.lastName),
       birthDate := Supplied(d.birthDate, a.birthDate))
  }

  /** An update that supplies no field leaves the account as it was. */
  lemma MergeNothing(a: Account)
    ensures MergeProfile(a, ProfileData(None, None, None)) == a
  {
  }

  /** Applying the same update twice is applying it once. */
  lemma MergeIdempotent(a: Account, d: ProfileData)
    ensures MergeProfile(MergeProfile(a, d), d) == MergeProfile(a, d)
  {
  }

  /**
   * `UserCreateSerializer.update(instance, validated_data)`: assigns the three
   * profile fields on the instance, then `instance.save()`.
   */
  method UpdateInstanceProfile(db: UserStore, instance: User, data: ProfileData)
    requires instance.id in db.users
    modifies instance, db
    ensures instance.Row() == MergeProfile(old(instance.Row()), data)
    ensures db.users == old(db.users)[instance.id := instance.Row()] && db.nextId == old(db.nextId)
  {
    instance.firstName := Supplied(data.firstName, instance.firstName);
    instance.lastName := Supplied(data.lastName, instance.lastName);
    instance.birthDate := Supplied(data.birthDate, instance.birthDate);
    db.Save(instance);
  }

  /** The password request body as received. */
  datatype PasswordInput = PasswordInput(password: Option<string>, password2: Option<string>)

  /**
   * Field validation of `UserSetPasswordSerializer`: both fields are required
   * non-blank strings, and `password` must pass `validate_password`.
   */
  predicate PasswordFieldsValid(input: PasswordInput, policy: string -> bool)
    ensures PasswordFieldsValid(input, policy) ==>
              input.password.Some? && input.password2.Some? && policy(input.password.value)
  {
    input.password.Some? && input.password.value != "" && policy(input.password.value) &&
    input.password2.Some? && input.password2.value != ""
  }

  datatype PasswordCheck = FieldErrors | Mismatch | Accepted(password: string)

  /**
   * `UserSetPasswordSerializer.is_valid()`: field validation first; only when
   * it passes does `validate` compare the two fields.
   */
  function ValidatePassword(input: PasswordInput, policy: string -> bool): (r: PasswordCheck)
    ensures r.FieldErrors? <==> !PasswordFieldsValid(input, policy)
    ensures r.Mismatch? <==> PasswordFieldsValid(input, policy) && input.password != input.password2
    ensures r.Accepted? ==> input.password == Some(r.password) && input.password2 == Some(r.password)
    ensures r.Accepted? ==> r.password != "" && policy(r.password)
  {
    if !PasswordFieldsValid(input, policy) then FieldErrors
    else if input.password.value != input.password2.value then Mismatch
    else Accepted(input.password.value)
  }

  /**
   * `UserSetPasswordSerializer.update(instance, validated_data)`:
   * `set_password` stores the hash of the new password, then `instance.save()`.
   */
  method UpdateInstancePassword(db: UserStore, instance: User, password: string, hash: string -> string)
    requires instance.id in db.users
    modifies instance, db
    ensures instance.Row() == old(instance.Row()).(passwordHash := Some(hash(password)))
    ensures db.users == old(db.users)[instance.id := instance.Row()] && db.nextId == old(db.nextId)
  {
    instance.passwordHash := Some(hash(password));
    db.Save(instance);
  }
}
