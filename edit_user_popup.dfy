/**
 * The member-edit form of the class administration: its initial values, its
 * validation rules, the role options it offers, and the member update it
 * submits.
 */
module EditUserPopUp {
  import opened Wrappers
  import opened Data
  import Users

  /** The form's values; the role is held as its string. */
  datatype EditForm = EditForm(displayName: string, role: string)

  /** One entry of the role menu: the role string it selects and its label. */
  datatype RoleOption = RoleOption(eventKey: string, text: string)

  /** The request to store `member` in the class with id `classId`. */
  datatype UpdateMember = UpdateMember(classId: string, member: ClassMember)

  const MaxDisplayNameLength: nat := 50

  /** The validation rules: a display name of 1 to 50 characters and a non-empty role. */
  predicate Validates(form: EditForm) {
    0 < |form.displayName| <= MaxDisplayNameLength && form.role != ""
  }

  /** The form as it opens: the member's current display name and role. */
  function InitialValues(member: ClassMember): (form: EditForm)
    ensures form.displayName == member.displayName
    ensures ParseRole(form.role) == Some(member.role)
  {
    ParseRoleKey(member.role);
    EditForm(member.displayName, RoleKey(member.role))
  }

  /** The form as it opens passes validation exactly when the current display name does. */
  lemma InitialValuesValidate(member: ClassMember)
    ensures Validates(InitialValues(member)) <==> 0 < |member.displayName| <= MaxDisplayNameLength
  {
  }

  /** The role menu: one entry per role below the member's own, in order, with its label. */
  function RoleOptions(member: ClassMember): (options: seq<RoleOption>)
    ensures |options| == |Users.RolesBelow(member.role)|
    ensures forall i :: 0 <= i < |options| ==>
      && ParseRole(options[i].eventKey) == Some(Users.RolesBelow(member.role)[i])
      && options[i].text == Users.MemberRoleLabel(Users.RolesBelow(member.role)[i])
  {
    var below := Users.RolesBelow(member.role);
    seq(|below|, i requires 0 <= i < |below| =>
      ParseRoleKey(below[i]);
      RoleOption(RoleKey(below[i]), Users.MemberRoleLabel(below[i])))
  }

  /** No entry of the menu selects the member's own role. */
  lemma RoleOptionsExcludeOwnRole(member: ClassMember)
    ensures forall o :: o in RoleOptions(member) ==> ParseRole(o.eventKey) != Some(member.role)
  {
  }

  /** Choosing a menu entry sets the form's role to the entry's role string. */
  function Select(form: EditForm, option: RoleOption): EditForm
  {
    form.(role := option.eventKey)
  }

  /**
   * The update a submitted form sends: the member with the form's display
   * name and role, everything else (the user id) kept. The role string is
   * taken as a role unchecked, so it must be one.
   */
  function HandleSubmit(classId: string, member: ClassMember, form: EditForm): (request: UpdateMember)
    requires ParseRole(form.role).Some?
    ensures request.classId == classId
    ensures request.member.user == member.user
    ensures request.member.displayName == form.displayName
    ensures RoleKey(request.member.role) == form.role
  {
    UpdateMember(classId, member.(displayName := form.displayName, role := ParseRole(form.role).value))
  }

  /** Submitting the form as it opened stores the member unchanged. */
  lemma SubmitInitialValuesKeepsMember(classId: string, member: ClassMember)
    ensures HandleSubmit(classId, member, InitialValues(member)).member == member
  {
  }

  /**
   * After choosing a menu entry, the form's role string is one `HandleSubmit`
   * accepts, and submitting gives the member a role listed after the member's
   * current one, never that role. (Validation of the display name is separate.)
   */
  lemma SubmitSelectedRole(classId: string, member: ClassMember, form: EditForm, option: RoleOption)
    requires option in RoleOptions(member)
    ensures ParseRole(Select(form, option).role).Some?
    ensures var updated := HandleSubmit(classId, member, Select(form, option)).member;
            && updated.role in Users.RolesBelow(member.role)
            && updated.role != member.role
            && updated.user == member.user
  {
  }
}
