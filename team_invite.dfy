/** The add-member page: which roles it offers, the guard against inviting someone who
    is already on the team, the record it builds for a new member and the role panel. */
module TeamInvite {
  import opened JsUtil
  import opened Policy
  import opened Stores

  // ---------------------------------------------------------------------------
  // Which roles are offered

  /** As written: the admin radio is rendered unless the acting member holds
      ADD_MANAGER_ONLY. Only admins hold it, so owners, managers and a member without an
      id are all offered the admin role. */
  predicate AdminOptionShownAsWritten(store: Store, acting: TeamMember) {
    !CheckIfAuthenticatedTeamMemberCan(store, acting, AddManagerOnly, [])
  }

  lemma AdminOptionByRoleAsWritten(store: Store, acting: TeamMember)
    ensures AdminOptionShownAsWritten(store, acting) <==> acting.id == "" || RoleOf(store, acting.id) != Admin
  {
    PolicyTableExact(AddManagerOnly);
  }

  /** A manager, who may not add anyone, is offered the admin role. */
  lemma ManagerOfferedAdminAsWritten(store: Store, acting: TeamMember)
    requires acting.id != "" && RoleOf(store, acting.id) == Manager
    ensures AdminOptionShownAsWritten(store, acting)
    ensures !CheckIfAuthenticatedTeamMemberCan(store, acting, AddMember, [])
    ensures !CheckIfAuthenticatedTeamMemberCan(store, acting, AddManagerOnly, [])
  {
    AdminOptionByRoleAsWritten(store, acting);
    PolicyTableExact(AddMember);
  }

  /** As evidently intended: the admin role is offered to whoever may add members
      without restriction, that is ADD_MEMBER. */
  predicate AdminOptionShown(store: Store, acting: TeamMember) {
    CheckIfAuthenticatedTeamMemberCan(store, acting, AddMember, [])
  }

  /** With the intended gate only the owner is offered the admin role; the two gates
      agree on owners and admins and differ exactly for managers and id-less members. */
  lemma AdminOptionOnlyForOwner(store: Store, acting: TeamMember)
    ensures AdminOptionShown(store, acting) <==> acting.id != "" && RoleOf(store, acting.id) == Owner
    ensures AdminOptionShown(store, acting) != AdminOptionShownAsWritten(store, acting) <==>
      acting.id == "" || RoleOf(store, acting.id) == Manager
  {
    PolicyTableExact(AddMember);
    AdminOptionByRoleAsWritten(store, acting);
  }

  // ---------------------------------------------------------------------------
  // The add flow

  /** `team.find((m) => m.email === email)`: the first member with that email. A member
      without an email never matches. */
  function FirstIndexOfEmail(team: seq<TeamMember>, email: string): (k: int)
    ensures -1 <= k < |team|
    ensures k >= 0 ==> team[k].email == Some(email) && forall j :: 0 <= j < k ==> team[j].email != Some(email)
    ensures k == -1 <==> forall j :: 0 <= j < |team| ==> team[j].email != Some(email)
  {
    if team == [] then -1
    else if team[0].email == Some(email) then 0
    else
      var k := FirstIndexOfEmail(team[1..], email);
      assert forall j :: 1 <= j < |team| ==> team[j] == team[1..][j - 1];
      if k == -1 then -1 else k + 1
  }

  /** The user-existence lookup's answer. */
  datatype Existence = Existence(doesExist: bool, userId: string)

  /** An awaited call: the value it resolves to, or the message of the error it rejects
      with. */
  datatype Awaited<T> = Resolved(value: T) | Rejected(message: string)

  /** How one press of "Add Member" ends; the three failures carry their messages. */
  datatype AddMemberOutcome =
    | AlreadyInStore(message: string)
    | UnknownUser(message: string)
    | Failed(message: string)
    | AddAs(member: TeamMember, role: Role)

  /** The team record of an invited user: every field present, falsy ones as "". */
  function MemberRecord(userId: string, user: Viewer): (m: TeamMember)
    ensures m.id == userId && m.joinedAt.None?
    ensures m.name.Some? && m.email.Some? && m.phoneNumber.Some?
    ensures user.displayName.Some? && user.displayName.value != "" ==> m.name.value == user.displayName.value
    ensures user.displayName.None? || user.displayName.value == "" ==> m.name.value == ""
    ensures user.email.Some? && user.email.value != "" ==> m.email.value == user.email.value
    ensures user.email.None? || user.email.value == "" ==> m.email.value == ""
    ensures user.phoneNumber.Some? && user.phoneNumber.value != "" ==> m.phoneNumber.value == user.phoneNumber.value
    ensures user.phoneNumber.None? || user.phoneNumber.value == "" ==> m.phoneNumber.value == ""
  {
    TeamMember(userId, Some(OrElse(user.displayName, "")), Some(OrElse(user.email, "")),
               Some(OrElse(user.phoneNumber, "")), None)
  }

  /** `addTeamMember` up to the writes, given the team list, the typed email, the
      existence lookup, the profile lookup (an answer of None when it finds no user) and
      the selected role. A team entry with the email blocks the add only when its id is
      truthy. A rejected lookup lands in the catch with its own message; the profile is
      looked up only for a user that exists. */
  function AddMemberDecision(team: seq<TeamMember>, email: string, existence: Awaited<Existence>,
                             profile: Awaited<Option<Viewer>>, role: Role): (o: AddMemberOutcome)
    ensures var k := FirstIndexOfEmail(team, email);
      (o.AlreadyInStore? <==> k >= 0 && team[k].id != "") &&
      (o.AlreadyInStore? ==> o.message == "This user already exist in your store!")
    ensures o.UnknownUser? ==>
      existence.Resolved? && !existence.value.doesExist && o.message == "This user does not exist on Pulse Industry App!"
    ensures !o.AlreadyInStore? ==>
      (existence.Rejected? ==> o == Failed(existence.message)) &&
      (o.UnknownUser? <==> existence.Resolved? && !existence.value.doesExist) &&
      (existence.Resolved? && existence.value.doesExist && profile.Rejected? ==> o == Failed(profile.message)) &&
      (existence.Resolved? && existence.value.doesExist && profile == Resolved(None) ==>
         o == Failed("Something went wrong. Please try again later!")) &&
      (o.AddAs? <==> existence.Resolved? && existence.value.doesExist && profile.Resolved? && profile.value.Some?)
    ensures o.AddAs? ==> o.member == MemberRecord(existence.value.userId, profile.value.value) && o.role == role
  {
    var k := FirstIndexOfEmail(team, email);
    if k >= 0 && team[k].id != "" then AlreadyInStore("This user already exist in your store!")
    else if existence.Rejected? then Failed(existence.message)
    else if !existence.value.doesExist then UnknownUser("This user does not exist on Pulse Industry App!")
    else if profile.Rejected? then Failed(profile.message)
    else if profile.value.None? then Failed("Something went wrong. Please try again later!")
    else AddAs(MemberRecord(existence.value.userId, profile.value.value), role)
  }

  /** An email held by a team member with an id is never added again, whatever the
      lookups answer. */
  lemma ListedEmailNeverAdded(team: seq<TeamMember>, email: string, existence: Awaited<Existence>,
                              profile: Awaited<Option<Viewer>>, role: Role)
    requires forall j :: 0 <= j < |team| ==> team[j].id != ""
    requires exists j :: 0 <= j < |team| && team[j].email == Some(email)
    ensures AddMemberDecision(team, email, existence, profile, role) ==
      AlreadyInStore("This user already exist in your store!")
  {
  }

  /** With an empty team the list holds the viewer's own placeholder, so a signed-in
      viewer who types their own email is told they are already in the store. */
  lemma OwnEmailOnEmptyTeam(v: Viewer, existence: Awaited<Existence>, profile: Awaited<Option<Viewer>>, role: Role)
    requires v.uid != "" && v.email.Some? && v.email.value != ""
    ensures AddMemberDecision(InvolvedTeam(Some(v), []), v.email.value, existence, profile, role) ==
      AlreadyInStore("This user already exist in your store!")
  {
    assert InvolvedTeam(Some(v), [])[0].email == Some(v.email.value);
  }

  /** The role panel: the selected role's title and its two description lists. */
  datatype RolePanel = RolePanel(title: string, can: seq<string>, cannot: seq<string>)

  function RolePanelFor(role: Role): (p: RolePanel)
    ensures p.title == GetStoreRoleDetails(role).title
    ensures p.can == GetStoreRoleDetails(role).permissionsDescription
    ensures p.cannot == GetStoreRoleDetails(role).restrictionsDescription
  {
    var d := GetStoreRoleDetails(role);
    RolePanel(d.title, d.permissionsDescription, d.restrictionsDescription)
  }

  // ---------------------------------------------------------------------------
  // The role radios

  /** The two radios. They carry different `name`s, so each is a group of its own, and
      `InputField` passes on neither `checked` nor `readonly`. So each starts unchecked,
      becomes checked on its first click and stays so, and a click on a checked radio
      fires no `onChange`. */
  datatype Radio = ManagerRadio | AdminRadio

  /** The selected role and which radios the browser shows as checked. */
  datatype RadioState = RadioState(selected: Role, managerChecked: bool, adminChecked: bool)

  const InitialRadios: RadioState := RadioState(Manager, false, false)

  function RadioRole(r: Radio): Role {
    if r == ManagerRadio then Manager else Admin
  }

  predicate IsChecked(st: RadioState, r: Radio) {
    if r == ManagerRadio then st.managerChecked else st.adminChecked
  }

  /** One click: an unchecked radio becomes checked and selects its role; a click on a
      checked radio changes nothing. No radio is ever unchecked. */
  function Click(st: RadioState, r: Radio): (t: RadioState)
    ensures IsChecked(t, r)
    ensures forall q :: IsChecked(st, q) ==> IsChecked(t, q)
    ensures forall q :: q != r ==> (IsChecked(t, q) <==> IsChecked(st, q))
    ensures IsChecked(st, r) ==> t == st
    ensures !IsChecked(st, r) ==> t.selected == RadioRole(r)
  {
    if IsChecked(st, r) then st
    else if r == ManagerRadio then st.(selected := Manager, managerChecked := true)
    else st.(selected := Admin, adminChecked := true)
  }

  function Clicks(st: RadioState, rs: seq<Radio>): RadioState
    decreases |rs|
  {
    if rs == [] then st else Clicks(Click(st, rs[0]), rs[1..])
  }

  /** Once both radios have been clicked, no further click changes the selected role. */
  lemma {:induction false} SettledOnceBothChecked(st: RadioState, rs: seq<Radio>)
    requires st.managerChecked && st.adminChecked
    ensures Clicks(st, rs) == st
    decreases |rs|
  {
    if rs != [] {
      assert IsChecked(st, rs[0]);
      SettledOnceBothChecked(Click(st, rs[0]), rs[1..]);
    }
  }

  /** Clicking admin, then manager, then admin again leaves the manager role selected. */
  lemma AdminManagerAdminEndsOnManager()
    ensures Clicks(InitialRadios, [AdminRadio, ManagerRadio, AdminRadio]).selected == Manager
  {
    var rs := [AdminRadio, ManagerRadio, AdminRadio];
    var s1 := Click(InitialRadios, AdminRadio);
    var s2 := Click(s1, ManagerRadio);
    SettledOnceBothChecked(s2, rs[2..]);
    assert rs[1..][1..] == rs[2..];
  }

  /** The add-member page state. `adminOptionShown` is fixed when the page is built from
      the acting member, with the gate as written: the admin radio is rendered unless the
      acting member holds ADD_MANAGER_ONLY. */
  class AddMemberPage {
    const adminOptionShown: bool
    var selectedRole: Role
    var managerChecked: bool
    var adminChecked: bool
    var email: string
    var isAdding: bool

    /** Only the two radio roles are selectable, and the admin role is selected, and its
        radio checked, only when it is offered. */
    ghost predicate Valid()
      reads this
    {
      (selectedRole == Manager || selectedRole == Admin) &&
      (!adminOptionShown ==> selectedRole == Manager && !adminChecked)
    }

    function Radios(): RadioState
      reads this
    {
      RadioState(selectedRole, managerChecked, adminChecked)
    }

    constructor (store: Store, acting: TeamMember)
      ensures Valid()
      ensures adminOptionShown == AdminOptionShownAsWritten(store, acting)
      ensures Radios() == InitialRadios && email == "" && !isAdding
    {
      AdminOptionByRoleAsWritten(store, acting);
      adminOptionShown := acting.id == "" || RoleOf(store, acting.id) != Admin;
      selectedRole := Manager;
      managerChecked := false;
      adminChecked := false;
      email := "";
      isAdding := false;
    }

    /** The panel shown below the radios. */
    function Panel(): RolePanel
      reads this
    {
      RolePanelFor(selectedRole)
    }

    /** A click on the manager radio. */
    method ClickManager()
      requires Valid()
      modifies this
      ensures Valid() && Radios() == Click(old(Radios()), ManagerRadio)
      ensures email == old(email) && isAdding == old(isAdding)
    {
      if !managerChecked {
        selectedRole := Manager;
        managerChecked := true;
      }
    }

    /** A click on the admin radio, which is rendered only when the option is offered. */
    method ClickAdmin()
      requires Valid() && adminOptionShown
      modifies this
      ensures Valid() && Radios() == Click(old(Radios()), AdminRadio)
      ensures email == old(email) && isAdding == old(isAdding)
    {
      if !adminChecked {
        selectedRole := Admin;
        adminChecked := true;
      }
    }

    method TypeEmail(text: string)
      requires Valid()
      modifies this
      ensures Valid() && email == text
      ensures Radios() == old(Radios()) && isAdding == old(isAdding)
    {
      email := text;
    }

    /** "Add Member": nothing happens unless the email passes the schema (non-empty and,
        by the validation library's test, address-shaped). Otherwise the decision is
        taken with the selected role; when it is an addition the writes are made, and a
        rejected write ends like any other failure, with its message. Only an addition
        whose writes resolve clears the email, and every outcome ends the adding state. */
    method Submit(team: seq<TeamMember>, emailShaped: bool, existence: Awaited<Existence>,
                  profile: Awaited<Option<Viewer>>, write: Awaited<()>)
      returns (o: Option<AddMemberOutcome>)
      requires Valid()
      modifies this
      ensures Valid() && Radios() == old(Radios())
      ensures o.None? <==> old(email) == "" || !emailShaped
      ensures o.None? ==> email == old(email) && isAdding == old(isAdding)
      ensures o.Some? ==> !isAdding
      ensures o.Some? ==> var d := AddMemberDecision(team, old(email), existence, profile, selectedRole);
        (d.AddAs? && write.Rejected? ==> o.value == Failed(write.message)) &&
        (!d.AddAs? || write.Resolved? ==> o.value == d)
      ensures o.Some? && o.value.AddAs? ==> email == ""
      ensures o.Some? && !o.value.AddAs? ==> email == old(email)
      ensures o.Some? && o.value.AddAs? ==> o.value.role == Manager || (o.value.role == Admin && adminOptionShown)
    {
      if email == "" || !emailShaped {
        return None;
      }
      isAdding := true;
      var decision := AddMemberDecision(team, email, existence, profile, selectedRole);
      if decision.AddAs? && write.Rejected? {
        o := Some(Failed(write.message));
      } else {
        o := Some(decision);
        if decision.AddAs? {
          email := "";
        }
      }
      isAdding := false;
    }
  }

  /** With the intended gate an invited member becomes an admin only when the acting
      member is the owner; admins and managers can only add managers. */
  lemma InvitedAdminOnlyByOwner(store: Store, acting: TeamMember, shown: bool, role: Role)
    requires shown == AdminOptionShown(store, acting)
    requires (role == Manager || role == Admin) && (!shown ==> role == Manager)
    ensures role == Admin ==> acting.id != "" && RoleOf(store, acting.id) == Owner
  {
    AdminOptionOnlyForOwner(store, acting);
  }

  /** The page opens on the manager's panel. */
  lemma InitialPanelIsManager()
    ensures RolePanelFor(Manager) == RolePanel("Manager",
      ["Can update the inventories for the products in the store."],
      ["Can't add more products", "Can\U{2019}t add/remove other members from the store", "Can\U{2019}t delete store"])
  {
  }
}
