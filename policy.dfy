/** The store role policy: the three team roles, the permission identifiers and the
    static, read-only table that maps each role to the permissions it grants and to
    the descriptive text shown when a member is added. */
module Policy {

  /** `TeamRoles` in the source: "admin" | "manager" | "owner". */
  datatype Role = Owner | Admin | Manager

  /** `STORE_PERMISSIONS`; the misspelt REMOVER_MEMBER is the source's own identifier. */
  datatype Permission =
    | AddMember
    | AddProduct
    | RemoveProduct
    | RemoverMember
    | UpdateProduct
    | DeleteStore
    | UpdateStore
    | UpdateInventory
    | AddManagerOnly

  /** One entry of the policy table. The two description lists are display text only. */
  datatype RoleDetails = RoleDetails(
    id: Role,
    title: string,
    permissions: seq<Permission>,
    permissionsDescription: seq<string>,
    restrictionsDescription: seq<string>)

  /** `ROLES_AND_PERMISSIONS`, a record keyed by role, with every list in the source's order. */
  function RolesAndPermissions(role: Role): RoleDetails {
    match role
    case Admin => RoleDetails(
      Admin, "Admin",
      [AddProduct, AddManagerOnly, RemoveProduct, UpdateProduct, UpdateInventory, RemoverMember],
      ["Can add more team members (managers only)",
       "Can add more products to the store ",
       "Can update the products in the store"],
      ["Can\U{2019}t remove owners or other members from the store",
       "Can\U{2019}t delete store"])
    case Owner => RoleDetails(
      Owner, "Owner",
      [AddProduct, AddMember, RemoveProduct, DeleteStore, RemoverMember, UpdateProduct, UpdateStore,
       UpdateInventory],
      ["Can update role of a member",
       "Can add more team members as they like",
       "Can add/update products",
       "Can delete store"],
      [])
    case Manager => RoleDetails(
      Manager, "Manager",
      [UpdateInventory],
      ["Can update the inventories for the products in the store."],
      ["Can't add more products",
       "Can\U{2019}t add/remove other members from the store",
       "Can\U{2019}t delete store"])
  }

  /** `getStoreRoleDetails`: the table entry of a role. The table is total over the
      closed role domain, and each entry carries its own role as id. */
  function GetStoreRoleDetails(role: Role): (d: RoleDetails)
    ensures d.id == role
  {
    RolesAndPermissions(role)
  }

  /** Whether a role's table entry lists a permission. */
  predicate Grants(role: Role, p: Permission) {
    p in GetStoreRoleDetails(role).permissions
  }

  /** An independent statement of the policy, one permission at a time. */
  predicate ReferenceGrants(role: Role, p: Permission) {
    match p
    case AddMember => role == Owner
    case AddProduct => role != Manager
    case RemoveProduct => role != Manager
    case RemoverMember => role != Manager
    case UpdateProduct => role != Manager
    case DeleteStore => role == Owner
    case UpdateStore => role == Owner
    case UpdateInventory => true
    case AddManagerOnly => role == Admin
  }

  /** The table grants exactly what the reference policy says, for every role and permission. */
  lemma GrantedMatchesReference(role: Role, p: Permission)
    ensures Grants(role, p) <==> ReferenceGrants(role, p)
  {
    match role
    case Owner =>
    case Admin =>
    case Manager =>
  }

  /** The permission sets, written out: no more and no fewer than these. */
  lemma PolicyTableExact(p: Permission)
    ensures Grants(Owner, p) <==> p in {AddProduct, AddMember, RemoveProduct, DeleteStore,
                                        RemoverMember, UpdateProduct, UpdateStore, UpdateInventory}
    ensures Grants(Admin, p) <==> p in {AddProduct, AddManagerOnly, RemoveProduct, UpdateProduct,
                                        UpdateInventory, RemoverMember}
    ensures Grants(Manager, p) <==> p == UpdateInventory
  {
    GrantedMatchesReference(Owner, p);
    GrantedMatchesReference(Admin, p);
    GrantedMatchesReference(Manager, p);
  }

  /** The owner lacks ADD_MANAGER_ONLY, so the roles are not ordered by inclusion:
      admin's set is not a subset of the owner's. The manager's single permission is
      held by both other roles, and the owner's extra permissions over admin are exactly
      ADD_MEMBER, DELETE_STORE and UPDATE_STORE. */
  lemma RolesNotNested(p: Permission)
    ensures Grants(Admin, AddManagerOnly) && !Grants(Owner, AddManagerOnly)
    ensures Grants(Manager, p) ==> Grants(Admin, p) && Grants(Owner, p)
    ensures Grants(Owner, p) && !Grants(Admin, p) <==> p in {AddMember, DeleteStore, UpdateStore}
    ensures Grants(Admin, p) && !Grants(Owner, p) <==> p == AddManagerOnly
  {
    PolicyTableExact(p);
    PolicyTableExact(AddManagerOnly);
  }

  /** No table entry lists a permission twice. */
  lemma PermissionListsDistinct(role: Role)
    ensures forall i, j :: 0 <= i < j < |GetStoreRoleDetails(role).permissions| ==>
      GetStoreRoleDetails(role).permissions[i] != GetStoreRoleDetails(role).permissions[j]
  {
  }
}
