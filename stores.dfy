/** The membership resolver of a store: role derivation from the store's owner and
    admin lists, the every-permission check, the role-bucketed team view, the team list
    with its self-placeholder, the acting ("who am I") member, and the records written
    when a store is created or a member is added. Snapshots and payloads are plain
    values; the document database itself is not modelled. */
module Stores {
  import opened JsUtil
  import opened Policy

  /** A member record of a store's team subcollection (`TeamMember`). The name is
      optional because the owner snapshot copies the account's display name, which the
      identity provider may leave null. Timestamps are kept as opaque strings. */
  datatype TeamMember = TeamMember(
    id: string,
    name: Option<string>,
    email: Option<string>,
    phoneNumber: Option<string>,
    joinedAt: Option<string>)

  datatype Address = Address(addressLine1: string, cityAndState: string, pinCode: string)

  /** A store document (`TStore`), without its timestamps. */
  datatype Store = Store(
    uid: string,
    name: string,
    about: string,
    address: Address,
    ownerId: string,
    owner: TeamMember,
    admins: Option<seq<string>>,
    managers: Option<seq<string>>,
    sharedWith: seq<string>)

  /** The signed-in account, as the identity provider reports it. */
  datatype Viewer = Viewer(
    uid: string,
    displayName: Option<string>,
    email: Option<string>,
    phoneNumber: Option<string>,
    creationTime: Option<string>)

  /** `store.admins || []`. */
  function AdminIds(store: Store): seq<string> {
    store.admins.GetOr([])
  }

  /** `store.managers || []`. */
  function ManagerIds(store: Store): seq<string> {
    store.managers.GetOr([])
  }

  // ---------------------------------------------------------------------------
  // Role derivation and the permission check

  /** `getStoreRoleDetailsForMember`: the ordered chain owner, then admin, then the
      manager fallback, which also covers the empty id. */
  function GetStoreRoleDetailsForMember(store: Store, memberId: string): (d: RoleDetails)
    ensures d == GetStoreRoleDetails(d.id)
    ensures d.id == Owner <==> memberId != "" && memberId == store.ownerId
    ensures d.id == Admin <==> memberId != "" && memberId != store.ownerId && memberId in AdminIds(store)
    ensures d.id == Manager <==>
      memberId == "" || (memberId != store.ownerId && memberId !in AdminIds(store))
  {
    var role :=
      if memberId == "" then Manager
      else if memberId == store.ownerId then Owner
      else if IndexOf(AdminIds(store), memberId) != -1 then Admin
      else Manager;
    GetStoreRoleDetails(role)
  }

  /** The role of a member id, as the chain above derives it. */
  function RoleOf(store: Store, memberId: string): Role {
    GetStoreRoleDetailsForMember(store, memberId).id
  }

  /** `permissions.every((p) => granted.indexOf(p) !== -1)`. */
  function EveryListed(permissions: seq<Permission>, granted: seq<Permission>): (r: bool)
    ensures r <==> forall i :: 0 <= i < |permissions| ==> permissions[i] in granted
  {
    if permissions == [] then true
    else IndexOf(granted, permissions[0]) != -1 && EveryListed(permissions[1..], granted)
  }

  /** `checkIfTeamMemberCan`: false for an empty member id; otherwise true exactly when
      every requested permission (AND, not OR) is granted to the member's role. */
  function CheckIfTeamMemberCan(store: Store, member: string, permissions: seq<Permission>): (r: bool)
    ensures member == "" ==> !r
    ensures member != "" ==>
      (r <==> forall i :: 0 <= i < |permissions| ==> Grants(RoleOf(store, member), permissions[i]))
  {
    if member == "" then false
    else EveryListed(permissions, GetStoreRoleDetailsForMember(store, member).permissions)
  }

  /** AND semantics: asking for two lists at once is asking for each of them. */
  lemma CheckConcat(store: Store, member: string, ps: seq<Permission>, qs: seq<Permission>)
    ensures CheckIfTeamMemberCan(store, member, ps + qs) <==>
      CheckIfTeamMemberCan(store, member, ps) && CheckIfTeamMemberCan(store, member, qs)
  {
    if member != "" {
      var role := RoleOf(store, member);
      if CheckIfTeamMemberCan(store, member, ps) && CheckIfTeamMemberCan(store, member, qs) {
        forall i | 0 <= i < |ps + qs| ensures Grants(role, (ps + qs)[i]) {
          if i >= |ps| { assert (ps + qs)[i] == qs[i - |ps|]; }
        }
      }
      if CheckIfTeamMemberCan(store, member, ps + qs) {
        forall i | 0 <= i < |ps| ensures Grants(role, ps[i]) {
          assert (ps + qs)[i] == ps[i];
        }
        forall i | 0 <= i < |qs| ensures Grants(role, qs[i]) {
          assert (ps + qs)[|ps| + i] == qs[i];
        }
      }
    }
  }

  /** One permission the role has and one it lacks: the check fails. */
  lemma CheckFailsOnAnyMissingPermission(store: Store, member: string, a: Permission, b: Permission)
    requires Grants(RoleOf(store, member), a) && !Grants(RoleOf(store, member), b)
    ensures !CheckIfTeamMemberCan(store, member, [a, b])
    ensures member != "" ==> CheckIfTeamMemberCan(store, member, [a])
  {
    assert [a, b][1] == b;
  }

  /** The owner can do everything but ADD_MANAGER_ONLY, even when the owner's id is
      also (wrongly) listed among the admins; a manager can only update inventory. */
  lemma CheckByRole(store: Store, member: string, p: Permission)
    requires member != ""
    ensures member == store.ownerId ==> (CheckIfTeamMemberCan(store, member, [p]) <==> p != AddManagerOnly)
    ensures RoleOf(store, member) == Manager ==>
      (CheckIfTeamMemberCan(store, member, [p]) <==> p == UpdateInventory)
    ensures RoleOf(store, member) == Admin ==>
      (CheckIfTeamMemberCan(store, member, [p]) <==> p !in {AddMember, DeleteStore, UpdateStore})
    ensures CheckIfTeamMemberCan(store, member, [])
  {
    PolicyTableExact(p);
    assert [p][0] == p;
  }

  /** The store of the end-to-end scenario: owner u1, admin u2, manager u3. */
  function ScenarioStore(address: Address, owner: TeamMember): Store {
    Store("s", "Shop", "", address, "u1", owner, Some(["u2"]), Some(["u3"]), ["u1", "u2", "u3"])
  }

  /** The scenario's permission answers: admin u2 may add a product, manager u3 may
      not but may update inventory, and owner u1 may delete the store. */
  lemma ScenarioChecks(address: Address, owner: TeamMember)
    ensures var store := ScenarioStore(address, owner);
      CheckIfTeamMemberCan(store, "u2", [AddProduct]) &&
      !CheckIfTeamMemberCan(store, "u3", [AddProduct]) &&
      CheckIfTeamMemberCan(store, "u3", [UpdateInventory]) &&
      CheckIfTeamMemberCan(store, "u1", [DeleteStore])
  {
    var store := ScenarioStore(address, owner);
    assert "u3" !in ["u2"] && "u2" in ["u2"];
    assert RoleOf(store, "u2") == Admin;
    assert RoleOf(store, "u3") == Manager;
    CheckByRole(store, "u2", AddProduct);
    CheckByRole(store, "u3", AddProduct);
    CheckByRole(store, "u3", UpdateInventory);
    CheckByRole(store, "u1", DeleteStore);
  }

  // ---------------------------------------------------------------------------
  // The role-bucketed team view (`involvedTeamWithRoles`)

  datatype TeamView = TeamView(owner: TeamMember, admins: seq<TeamMember>, managers: seq<TeamMember>)

  /** `ids?.includes(id)`: an absent list includes nothing. */
  predicate Listed(ids: Option<seq<string>>, id: string) {
    ids.Some? && id in ids.value
  }

  /** The members of `team`, in team order, whose id is listed in `ids`. */
  function MembersListedIn(team: seq<TeamMember>, ids: Option<seq<string>>): seq<TeamMember>
    decreases |team|
  {
    if team == [] then []
    else
      var last := team[|team| - 1];
      MembersListedIn(team[..|team| - 1], ids) + (if Listed(ids, last.id) then [last] else [])
  }

  /** A member is in the bucket exactly when it is in the team and its id is listed. */
  lemma {:induction false} MembersListedInMembership(team: seq<TeamMember>, ids: Option<seq<string>>, m: TeamMember)
    ensures m in MembersListedIn(team, ids) <==> m in team && Listed(ids, m.id)
    decreases |team|
  {
    if team != [] {
      var init := team[..|team| - 1];
      MembersListedInMembership(init, ids, m);
      assert team == init + [team[|team| - 1]];
    }
  }

  /** Bucketing keeps team order: it distributes over concatenation. */
  lemma {:induction false} MembersListedInAppend(a: seq<TeamMember>, b: seq<TeamMember>, ids: Option<seq<string>>)
    ensures MembersListedIn(a + b, ids) == MembersListedIn(a, ids) + MembersListedIn(b, ids)
    decreases |b|
  {
    if b == [] {
      assert a + b == a;
    } else {
      var init := b[..|b| - 1];
      MembersListedInAppend(a, init, ids);
      assert (a + b)[..|a + b| - 1] == a + init;
      assert (a + b)[|a + b| - 1] == b[|b| - 1];
    }
  }

  /** An absent id list gives an empty bucket; a list naming every member keeps the team. */
  lemma {:induction false} MembersListedInExtremes(team: seq<TeamMember>, ids: Option<seq<string>>)
    ensures ids.None? ==> MembersListedIn(team, ids) == []
    ensures (forall i :: 0 <= i < |team| ==> Listed(ids, team[i].id)) ==> MembersListedIn(team, ids) == team
    decreases |team|
  {
    if team != [] {
      MembersListedInExtremes(team[..|team| - 1], ids);
    }
  }

  /** The bucket builder: one pass over the team, pushing each member into `admins`
      and, independently, into `managers`. */
  method InvolvedTeamWithRoles(store: Store, team: seq<TeamMember>) returns (view: TeamView)
    ensures view.owner == store.owner
    ensures view.admins == MembersListedIn(team, store.admins)
    ensures view.managers == MembersListedIn(team, store.managers)
  {
    var admins: seq<TeamMember> := [];
    var managers: seq<TeamMember> := [];
    var i := 0;
    while i < |team|
      invariant 0 <= i <= |team|
      invariant admins == MembersListedIn(team[..i], store.admins)
      invariant managers == MembersListedIn(team[..i], store.managers)
    {
      var member := team[i];
      assert team[..i + 1][..i] == team[..i];
      if Listed(store.admins, member.id) {
        admins := admins + [member];
      }
      if Listed(store.managers, member.id) {
        managers := managers + [member];
      }
      i := i + 1;
    }
    assert team[..|team|] == team;
    view := TeamView(store.owner, admins, managers);
  }

  /** The documented hazard: the two tests are independent, so a member whose id is in
      both lists shows up in both buckets; nothing is de-duplicated. */
  lemma MemberInBothLists(store: Store, team: seq<TeamMember>, m: TeamMember)
    requires m in team && Listed(store.admins, m.id) && Listed(store.managers, m.id)
    ensures m in MembersListedIn(team, store.admins) && m in MembersListedIn(team, store.managers)
  {
    MembersListedInMembership(team, store.admins, m);
    MembersListedInMembership(team, store.managers, m);
  }

  /** The scenario's buckets: team records Alice (u2) and Bob (u3) split into
      admins = [Alice] and managers = [Bob]. */
  lemma ScenarioBuckets(address: Address, owner: TeamMember)
    ensures var store := ScenarioStore(address, owner);
      var alice := TeamMember("u2", Some("Alice"), None, None, None);
      var bob := TeamMember("u3", Some("Bob"), None, None, None);
      MembersListedIn([alice, bob], store.admins) == [alice] &&
      MembersListedIn([alice, bob], store.managers) == [bob]
  {
    var store := ScenarioStore(address, owner);
    var alice := TeamMember("u2", Some("Alice"), None, None, None);
    var bob := TeamMember("u3", Some("Bob"), None, None, None);
    assert "u3" !in ["u2"] && "u2" !in ["u3"];
    MembersListedInAppend([alice], [bob], store.admins);
    MembersListedInAppend([alice], [bob], store.managers);
    MembersListedInAppend([], [alice], store.admins);
    MembersListedInAppend([], [alice], store.managers);
    MembersListedInAppend([], [bob], store.admins);
    MembersListedInAppend([], [bob], store.managers);
    assert [alice] + [bob] == [alice, bob];
    assert [] + [alice] == [alice] && [] + [bob] == [bob];
  }

  // ---------------------------------------------------------------------------
  // The team list (`involvedTeam`) and the acting member (`authTeamMemberDetails`)

  /** The entry shown for the viewer when the team subcollection is empty. */
  function SelfPlaceholder(v: Viewer): (m: TeamMember)
    ensures m.id == v.uid && m.joinedAt.None?
    ensures m.name == Some(OrElse(v.displayName, "You"))
    ensures m.email == Some(OrElse(v.email, "")) && m.phoneNumber == Some(OrElse(v.phoneNumber, ""))
  {
    TeamMember(v.uid, Some(OrElse(v.displayName, "You")), Some(OrElse(v.email, "")),
               Some(OrElse(v.phoneNumber, "")), None)
  }

  /** `involvedTeam`: nothing without a viewer, the viewer's placeholder for an empty
      team, and otherwise the team as it was read. */
  function InvolvedTeam(viewer: Option<Viewer>, team: seq<TeamMember>): (r: seq<TeamMember>)
    ensures viewer.None? ==> r == []
    ensures viewer.Some? && team == [] ==>
      r == [TeamMember(viewer.value.uid, Some(OrElse(viewer.value.displayName, "You")),
                       Some(OrElse(viewer.value.email, "")), Some(OrElse(viewer.value.phoneNumber, "")), None)]
    ensures viewer.Some? && team != [] ==> r == team
    ensures r != [] <==> viewer.Some?
  {
    if viewer.None? then []
    else if |team| == 0 then [SelfPlaceholder(viewer.value)]
    else team
  }

  /** The position of the first member with id `id`, or -1. */
  function FirstIndexOfId(list: seq<TeamMember>, id: string): (k: int)
    ensures -1 <= k < |list|
    ensures k >= 0 ==> list[k].id == id && forall j :: 0 <= j < k ==> list[j].id != id
    ensures k == -1 <==> forall j :: 0 <= j < |list| ==> list[j].id != id
  {
    if list == [] then -1
    else if list[0].id == id then 0
    else
      var k := FirstIndexOfId(list[1..], id);
      assert forall j :: 1 <= j < |list| ==> list[j] == list[1..][j - 1];
      if k == -1 then -1 else k + 1
  }

  /** `list.find((m) => m.id === id)`: the first member with that id. */
  function FindById(list: seq<TeamMember>, id: string): (r: Option<TeamMember>)
    ensures r.Some? ==> r.value in list && r.value.id == id
    ensures r.Some? ==> exists k :: (0 <= k < |list| && list[k] == r.value &&
      forall j :: 0 <= j < k ==> list[j].id != id)
    ensures r.None? <==> forall j :: 0 <= j < |list| ==> list[j].id != id
  {
    var k := FirstIndexOfId(list, id);
    if k == -1 then None else Some(list[k])
  }

  function ViewerUid(viewer: Option<Viewer>): Option<string> {
    if viewer.Some? then Some(viewer.value.uid) else None
  }

  /** The record synthesised when the viewer is not in the team list. */
  function FallbackMember(viewer: Option<Viewer>): (m: TeamMember)
    ensures m.id != "" && m.name.Some? && m.name.value != "" && m.email.Some?
    ensures viewer.Some? && viewer.value.uid != "" ==> m.id == viewer.value.uid
    ensures viewer.Some? ==> m.phoneNumber == viewer.value.phoneNumber && m.joinedAt == viewer.value.creationTime
  {
    match viewer
    case None => TeamMember("id", Some("User"), Some(""), None, None)
    case Some(v) =>
      TeamMember(OrElse(Some(v.uid), "id"), Some(OrElse(v.displayName, "User")), Some(OrElse(v.email, "")),
                 v.phoneNumber, v.creationTime)
  }

  /** `authTeamMemberDetails`: the team-list entry with the viewer's id, or the fallback.
      Its id is never empty: it is the viewer's uid when that is non-empty, and "id"
      when there is no viewer. */
  function AuthTeamMemberDetails(viewer: Option<Viewer>, involvedTeam: seq<TeamMember>): (r: TeamMember)
    ensures viewer.Some? && (exists j :: 0 <= j < |involvedTeam| && involvedTeam[j].id == viewer.value.uid) ==>
      r in involvedTeam && r.id == viewer.value.uid
    ensures viewer.Some? && FindById(involvedTeam, viewer.value.uid).Some? ==>
      r == FindById(involvedTeam, viewer.value.uid).value
    ensures viewer.Some? && (forall j :: 0 <= j < |involvedTeam| ==> involvedTeam[j].id != viewer.value.uid) ==>
      r == TeamMember(OrElse(Some(viewer.value.uid), "id"), Some(OrElse(viewer.value.displayName, "User")),
                      Some(OrElse(viewer.value.email, "")), viewer.value.phoneNumber, viewer.value.creationTime)
    ensures viewer.None? ==> r == TeamMember("id", Some("User"), Some(""), None, None)
    ensures viewer.Some? && viewer.value.uid != "" ==> r.id == viewer.value.uid
    ensures viewer.None? ==> r.id == "id"
  {
    var found := if viewer.Some? then FindById(involvedTeam, viewer.value.uid) else None;
    if found.Some? then found.value else FallbackMember(viewer)
  }

  /** `checkIfAuthenticatedTeamMemberCan`: the permission check for the acting member,
      with at least one permission always requested. */
  function CheckIfAuthenticatedTeamMemberCan(store: Store, acting: TeamMember, permission: Permission,
                                             permissions: seq<Permission>): (r: bool)
    ensures r <==> (acting.id != "" && Grants(RoleOf(store, acting.id), permission) &&
      forall i :: 0 <= i < |permissions| ==> Grants(RoleOf(store, acting.id), permissions[i]))
  {
    var all := [permission] + permissions;
    assert all[0] == permission;
    assert forall i :: 0 <= i < |permissions| ==> all[i + 1] == permissions[i];
    CheckIfTeamMemberCan(store, acting.id, all)
  }

  /** A signed-in viewer acts with the role of its own uid, whatever the team list holds. */
  lemma ViewerActsWithOwnRole(store: Store, v: Viewer, team: seq<TeamMember>, p: Permission)
    requires v.uid != ""
    ensures var acting := AuthTeamMemberDetails(Some(v), InvolvedTeam(Some(v), team));
      CheckIfAuthenticatedTeamMemberCan(store, acting, p, []) == CheckIfTeamMemberCan(store, v.uid, [p])
  {
  }

  /** With an empty team, the acting member is the placeholder (named "You", not "User"). */
  lemma EmptyTeamActingIsPlaceholder(v: Viewer)
    ensures AuthTeamMemberDetails(Some(v), InvolvedTeam(Some(v), [])) == SelfPlaceholder(v)
  {
  }

  /** Without a viewer the acting id is the non-empty "id", so unless a store happens to
      list "id" the check answers with the manager's permissions instead of false. */
  lemma NoViewerActsAsManager(store: Store, team: seq<TeamMember>, p: Permission)
    requires store.ownerId != "id" && "id" !in AdminIds(store)
    ensures var acting := AuthTeamMemberDetails(None, InvolvedTeam(None, team));
      CheckIfAuthenticatedTeamMemberCan(store, acting, p, []) <==> p == UpdateInventory
  {
    PolicyTableExact(p);
  }

  // ---------------------------------------------------------------------------
  // Adding a member (`useAddTeamMember`) and creating a store (`useAddStore`)

  /** The role list the store update rewrites: `admins` for role admin, `managers` otherwise. */
  datatype RoleListUpdate = AdminsUpdate(admins: seq<string>) | ManagersUpdate(managers: seq<string>)

  /** The fields `updateDoc` writes on the store when a member is added. */
  datatype StoreUpdate = StoreUpdate(sharedWith: seq<string>, roleList: RoleListUpdate)

  /** The two writes of an addition: the member document and the store update. */
  datatype MemberWrites = MemberWrites(memberDocument: TeamMember, storeUpdate: StoreUpdate)

  /** `useAddTeamMember`'s writes for member `data` with `role`, stamped `joinedAt`. */
  function AddTeamMemberWrites(store: Store, data: TeamMember, role: Role, joinedAt: string): (w: MemberWrites)
    ensures w.memberDocument.id == data.id && w.memberDocument.name == data.name
    ensures w.memberDocument.email == data.email && w.memberDocument.phoneNumber == data.phoneNumber
    ensures w.memberDocument.joinedAt == Some(joinedAt)
    ensures w.storeUpdate.sharedWith == store.sharedWith + [data.id]
    ensures role == Admin ==> w.storeUpdate.roleList == AdminsUpdate(AdminIds(store) + [data.id])
    ensures role != Admin ==> w.storeUpdate.roleList == ManagersUpdate(ManagerIds(store) + [data.id])
  {
    var id := data.id;
    assert [] + [id] == [id];
    var roleList :=
      if role == Admin then
        AdminsUpdate(if store.admins.Some? && |store.admins.value| > 0 then store.admins.value + [id] else [id])
      else
        ManagersUpdate(if store.managers.Some? && |store.managers.value| > 0 then store.managers.value + [id] else [id]);
    MemberWrites(data.(joinedAt := Some(joinedAt)), StoreUpdate(store.sharedWith + [id], roleList))
  }

  /** `updateDoc` merges the written fields into the store; the rest is untouched. */
  function ApplyStoreUpdate(store: Store, u: StoreUpdate): (s: Store)
    ensures s.sharedWith == u.sharedWith
    ensures u.roleList.AdminsUpdate? ==> s.admins == Some(u.roleList.admins) && s.managers == store.managers
    ensures u.roleList.ManagersUpdate? ==> s.managers == Some(u.roleList.managers) && s.admins == store.admins
    ensures s.uid == store.uid && s.name == store.name && s.about == store.about && s.address == store.address
    ensures s.ownerId == store.ownerId && s.owner == store.owner
  {
    match u.roleList
    case AdminsUpdate(a) => store.(sharedWith := u.sharedWith, admins := Some(a))
    case ManagersUpdate(m) => store.(sharedWith := u.sharedWith, managers := Some(m))
  }

  /** After an addition the new id is shared and takes the requested role (the owner
      is never demoted), and no other id changes role. Nothing is de-duplicated. */
  lemma AddedMemberTakesRole(store: Store, data: TeamMember, role: Role, joinedAt: string)
    requires data.id != ""
    ensures var s := ApplyStoreUpdate(store, AddTeamMemberWrites(store, data, role, joinedAt).storeUpdate);
      data.id in s.sharedWith && |s.sharedWith| == |store.sharedWith| + 1 &&
      (data.id == store.ownerId ==> RoleOf(s, data.id) == Owner) &&
      (data.id != store.ownerId && role == Admin ==> RoleOf(s, data.id) == Admin) &&
      (data.id != store.ownerId && role != Admin && data.id !in AdminIds(store) ==>
         RoleOf(s, data.id) == Manager && Listed(s.managers, data.id)) &&
      (forall x :: x != data.id ==> RoleOf(s, x) == RoleOf(store, x))
  {
    var s := ApplyStoreUpdate(store, AddTeamMemberWrites(store, data, role, joinedAt).storeUpdate);
    assert s.ownerId == store.ownerId;
    forall x | x != data.id ensures RoleOf(s, x) == RoleOf(store, x) {
      assert x in AdminIds(s) <==> x in AdminIds(store);
    }
  }

  /** The new member document lands at the end of its role's bucket. */
  lemma AddedMemberJoinsBucket(store: Store, team: seq<TeamMember>, data: TeamMember, role: Role, joinedAt: string)
    ensures var w := AddTeamMemberWrites(store, data, role, joinedAt);
      var s := ApplyStoreUpdate(store, w.storeUpdate);
      var ids := if role == Admin then s.admins else s.managers;
      MembersListedIn(team + [w.memberDocument], ids) == MembersListedIn(team, ids) + [w.memberDocument]
  {
    var w := AddTeamMemberWrites(store, data, role, joinedAt);
    var s := ApplyStoreUpdate(store, w.storeUpdate);
    var ids := if role == Admin then s.admins else s.managers;
    MembersListedInAppend(team, [w.memberDocument], ids);
    assert [w.memberDocument][..0] == [];
  }

  /** The fields the store form supplies. */
  datatype NewStoreData = NewStoreData(name: string, about: string, address: Address)

  /** `useAddStore`'s record for document id `docId`, created by `user`. */
  function NewStore(data: NewStoreData, user: Viewer, docId: string): (s: Store)
    ensures s.uid == docId && s.about == data.about && s.address == data.address
    ensures s.ownerId == user.uid && s.sharedWith == [user.uid]
    ensures s.owner == TeamMember(user.uid, user.displayName, user.email, user.phoneNumber, None)
    ensures s.admins.None? && s.managers.None?
    ensures exists i, j :: (0 <= i <= j <= |data.name| && s.name == data.name[i..j] &&
      WhitespaceOnly(data.name[..i]) && WhitespaceOnly(data.name[j..]))
    ensures s.name != [] ==> !IsJsWhitespace(s.name[0]) && !IsJsWhitespace(s.name[|s.name| - 1])
  {
    Store(docId, Trim(data.name), data.about, data.address, user.uid,
          TeamMember(user.uid, user.displayName, user.email, user.phoneNumber, None),
          None, None, [user.uid])
  }

  /** The creator of a store is its owner, holds every owner permission, and the new
      store's admin and manager buckets are empty whatever the team holds. */
  lemma CreatorIsOwner(data: NewStoreData, user: Viewer, docId: string, team: seq<TeamMember>, p: Permission)
    requires user.uid != ""
    ensures var s := NewStore(data, user, docId);
      RoleOf(s, user.uid) == Owner &&
      (CheckIfTeamMemberCan(s, user.uid, [p]) <==> p != AddManagerOnly) &&
      MembersListedIn(team, s.admins) == [] && MembersListedIn(team, s.managers) == []
  {
    var s := NewStore(data, user, docId);
    CheckByRole(s, user.uid, p);
    MembersListedInExtremes(team, s.admins);
    MembersListedInExtremes(team, s.managers);
  }
}
