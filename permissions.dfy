/**
 * The permission table: 21 permission values, the fixed lists granted to
 * the "admin" and "seller" roles, and the membership checks built on them.
 */
module Permissions {
  import opened Wrappers

  datatype Permission =
    | ProductViewAll | ProductViewOwn | ProductCreate | ProductUpdateOwn | ProductUpdateAll
    | ProductDeleteOwn | ProductDeleteAll
    | OrderViewAll | OrderViewOwn | OrderUpdateAll | OrderCreate
    | FinancialViewAll | FinancialViewOwn | FinancialExport
    | PlatformManage | PlatformSync
    | UserViewAll | UserManage | UserDelete
    | SettingsView | SettingsUpdate

  /** The string each permission stands for. */
  function Value(p: Permission): string
  {
    match p
    case ProductViewAll => "product:view:all"
    case ProductViewOwn => "product:view:own"
    case ProductCreate => "product:create"
    case ProductUpdateOwn => "product:update:own"
    case ProductUpdateAll => "product:update:all"
    case ProductDeleteOwn => "product:delete:own"
    case ProductDeleteAll => "product:delete:all"
    case OrderViewAll => "order:view:all"
    case OrderViewOwn => "order:view:own"
    case OrderUpdateAll => "order:update:all"
    case OrderCreate => "order:create"
    case FinancialViewAll => "financial:view:all"
    case FinancialViewOwn => "financial:view:own"
    case FinancialExport => "financial:export"
    case PlatformManage => "platform:manage"
    case PlatformSync => "platform:sync"
    case UserViewAll => "user:view:all"
    case UserManage => "user:manage"
    case UserDelete => "user:delete"
    case SettingsView => "settings:view"
    case SettingsUpdate => "settings:update"
  }

  /** Every permission, in declaration order. */
  const AllPermissions: seq<Permission> := [
    ProductViewAll, ProductViewOwn, ProductCreate, ProductUpdateOwn, ProductUpdateAll,
    ProductDeleteOwn, ProductDeleteAll,
    OrderViewAll, OrderViewOwn, OrderUpdateAll, OrderCreate,
    FinancialViewAll, FinancialViewOwn, FinancialExport,
    PlatformManage, PlatformSync,
    UserViewAll, UserManage, UserDelete,
    SettingsView, SettingsUpdate]

  const AdminPermissions: seq<Permission> := [
    ProductViewAll, ProductCreate, ProductUpdateAll, ProductDeleteAll,
    OrderViewAll, OrderUpdateAll, OrderCreate,
    FinancialViewAll, FinancialExport,
    PlatformManage, PlatformSync,
    UserViewAll, UserManage, UserDelete,
    SettingsView, SettingsUpdate]

  const SellerPermissions: seq<Permission> := [
    ProductViewOwn, ProductCreate, ProductUpdateOwn, ProductDeleteOwn, OrderViewOwn, FinancialViewOwn]

  /** A permission limited to the user's own records: its value ends in ":own". */
  predicate OwnScoped(p: Permission)
  {
    var v := Value(p);
    |v| >= 4 && v[|v| - 4..] == ":own"
  }

  const OwnPermissions: set<Permission> := {ProductViewOwn, ProductUpdateOwn, ProductDeleteOwn, OrderViewOwn, FinancialViewOwn}

  predicate NoDuplicates<T(==)>(s: seq<T>)
  {
    forall i, j :: 0 <= i < j < |s| ==> s[i] != s[j]
  }

  /** `rolePermissions[role] || []`: the list of a known role, and nothing for any other role. */
  function GetRolePermissions(role: string): (r: seq<Permission>)
    ensures NoDuplicates(r)
    ensures role != "admin" && role != "seller" ==> r == []
  {
    if role == "admin" then AdminPermissions
    else if role == "seller" then SellerPermissions
    else []
  }

  /** `hasPermission`: the permission is in the role's list. */
  predicate HasPermission(role: string, permission: Permission)
    ensures HasPermission(role, permission) ==> role == "admin" || role == "seller"
  {
    permission in GetRolePermissions(role)
  }

  /** `permissions.some(...)`, scanning left to right. */
  predicate HasAnyPermission(role: string, permissions: seq<Permission>)
    ensures HasAnyPermission(role, permissions) <==> exists i :: 0 <= i < |permissions| && HasPermission(role, permissions[i])
  {
    permissions != [] && (HasPermission(role, permissions[0]) || HasAnyPermission(role, permissions[1..]))
  }

  /** `permissions.every(...)`, scanning left to right; true for an empty list. */
  predicate HasAllPermissions(role: string, permissions: seq<Permission>)
    ensures HasAllPermissions(role, permissions) <==> forall i :: 0 <= i < |permissions| ==> HasPermission(role, permissions[i])
  {
    permissions == [] || (HasPermission(role, permissions[0]) && HasAllPermissions(role, permissions[1..]))
  }

  /** The own-record permissions are exactly the five whose name ends in `Own`. */
  lemma OwnScopedCases(p: Permission)
    ensures OwnScoped(p) <==> p in OwnPermissions
  {
    if p in OwnPermissions {
      OwnScopedOwn(p);
    } else {
      NotOwnScoped(p);
    }
  }

  lemma OwnScopedOwn(p: Permission)
    requires p in OwnPermissions
    ensures OwnScoped(p)
  {
    match p
    case ProductViewOwn => assert Value(p)[|Value(p)| - 4..] == ":own";
    case ProductUpdateOwn => assert Value(p)[|Value(p)| - 4..] == ":own";
    case ProductDeleteOwn => assert Value(p)[|Value(p)| - 4..] == ":own";
    case OrderViewOwn => assert Value(p)[|Value(p)| - 4..] == ":own";
    case FinancialViewOwn => assert Value(p)[|Value(p)| - 4..] == ":own";
  }

  lemma NotOwnScoped(p: Permission)
    requires p !in OwnPermissions
    ensures !OwnScoped(p)
  {
    match p
    case ProductViewAll => assert Value(p)[|Value(p)| - 4 + 1] == 'a';
    case ProductCreate => assert Value(p)[|Value(p)| - 4 + 0] == 'e';
    case ProductUpdateAll => assert Value(p)[|Value(p)| - 4 + 1] == 'a';
    case ProductDeleteAll => assert Value(p)[|Value(p)| - 4 + 1] == 'a';
    case OrderViewAll => assert Value(p)[|Value(p)| - 4 + 1] == 'a';
    case OrderUpdateAll => assert Value(p)[|Value(p)| - 4 + 1] == 'a';
    case OrderCreate => assert Value(p)[|Value(p)| - 4 + 0] == 'e';
    case FinancialViewAll => assert Value(p)[|Value(p)| - 4 + 1] == 'a';
    case FinancialExport => assert Value(p)[|Value(p)| - 4 + 0] == 'p';
    case PlatformManage => assert Value(p)[|Value(p)| - 4 + 0] == 'n';
    case PlatformSync => assert Value(p)[|Value(p)| - 4 + 0] == 's';
    case UserViewAll => assert Value(p)[|Value(p)| - 4 + 1] == 'a';
    case UserManage => assert Value(p)[|Value(p)| - 4 + 0] == 'n';
    case UserDelete => assert Value(p)[|Value(p)| - 4 + 0] == 'l';
    case SettingsView => assert Value(p)[|Value(p)| - 4 + 0] == 'v';
    case SettingsUpdate => assert Value(p)[|Value(p)| - 4 + 0] == 'd';
    case _ =>
  }

  /** The admin list is every permission outside the own-record ones. */
  lemma AdminList(p: Permission)
    ensures p in AdminPermissions <==> p !in OwnPermissions
  {
    if p in OwnPermissions {
      AdminExcludesOwn(p);
    } else {
      AdminIncludesOthers(p);
    }
  }

  lemma AdminExcludesOwn(p: Permission)
    requires p in OwnPermissions
    ensures p !in AdminPermissions
  {
  }

  lemma AdminIncludesOthers(p: Permission)
    requires p !in OwnPermissions
    ensures p in AdminPermissions
  {
    match p
    case ProductViewAll => assert AdminPermissions[0] == p;
    case ProductCreate => assert AdminPermissions[1] == p;
    case ProductUpdateAll => assert AdminPermissions[2] == p;
    case ProductDeleteAll => assert AdminPermissions[3] == p;
    case OrderViewAll => assert AdminPermissions[4] == p;
    case OrderUpdateAll => assert AdminPermissions[5] == p;
    case OrderCreate => assert AdminPermissions[6] == p;
    case FinancialViewAll => assert AdminPermissions[7] == p;
    case FinancialExport => assert AdminPermissions[8] == p;
    case PlatformManage => assert AdminPermissions[9] == p;
    case PlatformSync => assert AdminPermissions[10] == p;
    case UserViewAll => assert AdminPermissions[11] == p;
    case UserManage => assert AdminPermissions[12] == p;
    case UserDelete => assert AdminPermissions[13] == p;
    case SettingsView => assert AdminPermissions[14] == p;
    case SettingsUpdate => assert AdminPermissions[15] == p;
    case _ =>
  }

  /** Admins hold exactly the permissions not limited to their own records: 16 of the 21. */
  lemma AdminGrants(p: Permission)
    ensures HasPermission("admin", p) <==> !OwnScoped(p)
  {
    OwnScopedCases(p);
    AdminList(p);
  }

  /** Sellers hold the five own-record permissions and may create products, nothing else. */
  lemma SellerGrants(p: Permission)
    ensures HasPermission("seller", p) <==> OwnScoped(p) || p == ProductCreate
  {
    assert "seller"[0] != "admin"[0];
    assert GetRolePermissions("seller") == SellerPermissions;
    OwnScopedCases(p);
    SellerList(p);
  }

  /** The seller list is the own-record permissions and product creation. */
  lemma SellerList(p: Permission)
    ensures p in SellerPermissions <==> p in OwnPermissions || p == ProductCreate
  {
    match p
    case ProductViewOwn => assert SellerPermissions[0] == p;
    case ProductCreate => assert SellerPermissions[1] == p;
    case ProductUpdateOwn => assert SellerPermissions[2] == p;
    case ProductDeleteOwn => assert SellerPermissions[3] == p;
    case OrderViewOwn => assert SellerPermissions[4] == p;
    case FinancialViewOwn => assert SellerPermissions[5] == p;
    case _ =>
  }

  /** Any other role, including the empty one, holds no permission. */
  lemma OtherRolesGrantNothing(role: string, p: Permission)
    requires role != "admin" && role != "seller"
    ensures !HasPermission(role, p)
    ensures GetRolePermissions(role) == []
  {
  }

  /** The two lists have 16 and 6 entries, without repetition, and share only `product:create`. */
  lemma RoleListsShape()
    ensures |GetRolePermissions("admin")| == 16 && NoDuplicates(GetRolePermissions("admin"))
    ensures |GetRolePermissions("seller")| == 6 && NoDuplicates(GetRolePermissions("seller"))
    ensures forall p :: HasPermission("admin", p) && HasPermission("seller", p) <==> p == ProductCreate
  {
    forall p ensures HasPermission("admin", p) && HasPermission("seller", p) <==> p == ProductCreate {
      AdminGrants(p);
      SellerGrants(p);
    }
  }

  /** Holding all of a non-empty list implies holding one of them; the empty list is held entirely and never partly. */
  lemma AllImpliesAny(role: string, permissions: seq<Permission>)
    ensures HasAllPermissions(role, []) && !HasAnyPermission(role, [])
    ensures permissions != [] && HasAllPermissions(role, permissions) ==> HasAnyPermission(role, permissions)
  {
    if permissions != [] && HasAllPermissions(role, permissions) {
      assert HasPermission(role, permissions[0]);
    }
  }

  /** Checking a concatenation is checking both parts. */
  lemma {:induction false} ChecksSplit(role: string, ps: seq<Permission>, qs: seq<Permission>)
    ensures HasAllPermissions(role, ps + qs) <==> HasAllPermissions(role, ps) && HasAllPermissions(role, qs)
    ensures HasAnyPermission(role, ps + qs) <==> HasAnyPermission(role, ps) || HasAnyPermission(role, qs)
  {
    assert forall i :: 0 <= i < |ps| ==> (ps + qs)[i] == ps[i];
    assert forall i :: 0 <= i < |qs| ==> (ps + qs)[|ps| + i] == qs[i];
    if HasAnyPermission(role, ps + qs) {
      var i :| 0 <= i < |ps + qs| && HasPermission(role, (ps + qs)[i]);
      if i >= |ps| {
        assert qs[i - |ps|] == (ps + qs)[i];
      }
    }
  }

  /** Every permission is listed in `AllPermissions`, which has 21 entries. */
  lemma AllPermissionsComplete()
    ensures |AllPermissions| == 21
    ensures forall p: Permission :: p in AllPermissions
  {
    forall p: Permission
      ensures p in AllPermissions
    {
      match p
    case ProductViewAll => assert AllPermissions[0] == p;
    case ProductViewOwn => assert AllPermissions[1] == p;
    case ProductCreate => assert AllPermissions[2] == p;
    case ProductUpdateOwn => assert AllPermissions[3] == p;
    case ProductUpdateAll => assert AllPermissions[4] == p;
    case ProductDeleteOwn => assert AllPermissions[5] == p;
    case ProductDeleteAll => assert AllPermissions[6] == p;
    case OrderViewAll => assert AllPermissions[7] == p;
    case OrderViewOwn => assert AllPermissions[8] == p;
    case OrderUpdateAll => assert AllPermissions[9] == p;
    case OrderCreate => assert AllPermissions[10] == p;
    case FinancialViewAll => assert AllPermissions[11] == p;
    case FinancialViewOwn => assert AllPermissions[12] == p;
    case FinancialExport => assert AllPermissions[13] == p;
    case PlatformManage => assert AllPermissions[14] == p;
    case PlatformSync => assert AllPermissions[15] == p;
    case UserViewAll => assert AllPermissions[16] == p;
    case UserManage => assert AllPermissions[17] == p;
    case UserDelete => assert AllPermissions[18] == p;
    case SettingsView => assert AllPermissions[19] == p;
    case SettingsUpdate => assert AllPermissions[20] == p;
    }
  }

  /** Different permissions have different values, so a permission is identified by its string. */
  lemma ValueInjective(p: Permission, q: Permission)
    ensures Value(p) == Value(q) ==> p == q
  {
    ValueKey(p);
    ValueKey(q);
    FromKeyInverse(p);
    FromKeyInverse(q);
  }

  /** A short fingerprint of each value (its length and three of its characters) that already tells the 21 apart. */
  function Key(p: Permission): (int, char, char, char)
  {
    match p
    case ProductViewAll => (16, 'p', 'v', 'a')
    case ProductViewOwn => (16, 'p', 'v', 'o')
    case ProductCreate => (14, 'p', 'c', 'a')
    case ProductUpdateOwn => (18, 'p', 'u', 'o')
    case ProductUpdateAll => (18, 'p', 'u', 'a')
    case ProductDeleteOwn => (18, 'p', 'd', 'o')
    case ProductDeleteAll => (18, 'p', 'd', 'a')
    case OrderViewAll => (14, 'o', 'e', 'a')
    case OrderViewOwn => (14, 'o', 'e', 'o')
    case OrderUpdateAll => (16, 'o', 'd', 'a')
    case OrderCreate => (12, 'o', 'e', 'a')
    case FinancialViewAll => (18, 'f', 'l', 'a')
    case FinancialViewOwn => (18, 'f', 'l', 'o')
    case FinancialExport => (16, 'f', 'l', 'o')
    case PlatformManage => (15, 'p', ':', 'a')
    case PlatformSync => (13, 'p', ':', 'y')
    case UserViewAll => (13, 'u', 'w', 'a')
    case UserManage => (11, 'u', 'a', 'a')
    case UserDelete => (11, 'u', 'e', 'e')
    case SettingsView => (13, 's', ':', 'i')
    case SettingsUpdate => (15, 's', ':', 'a')
  }

  lemma ValueKey(p: Permission)
    ensures |Value(p)| > 8 && Key(p) == (|Value(p)|, Value(p)[0], Value(p)[8], Value(p)[|Value(p)| - 3])
  {
  }

  /** Recovers a permission from its fingerprint. */
  function FromKey(k: (int, char, char, char)): Option<Permission>
  {
    if k == (16, 'p', 'v', 'a') then Some(ProductViewAll)
    else if k == (16, 'p', 'v', 'o') then Some(ProductViewOwn)
    else if k == (14, 'p', 'c', 'a') then Some(ProductCreate)
    else if k == (18, 'p', 'u', 'o') then Some(ProductUpdateOwn)
    else if k == (18, 'p', 'u', 'a') then Some(ProductUpdateAll)
    else if k == (18, 'p', 'd', 'o') then Some(ProductDeleteOwn)
    else if k == (18, 'p', 'd', 'a') then Some(ProductDeleteAll)
    else if k == (14, 'o', 'e', 'a') then Some(OrderViewAll)
    else if k == (14, 'o', 'e', 'o') then Some(OrderViewOwn)
    else if k == (16, 'o', 'd', 'a') then Some(OrderUpdateAll)
    else if k == (12, 'o', 'e', 'a') then Some(OrderCreate)
    else if k == (18, 'f', 'l', 'a') then Some(FinancialViewAll)
    else if k == (18, 'f', 'l', 'o') then Some(FinancialViewOwn)
    else if k == (16, 'f', 'l', 'o') then Some(FinancialExport)
    else if k == (15, 'p', ':', 'a') then Some(PlatformManage)
    else if k == (13, 'p', ':', 'y') then Some(PlatformSync)
    else if k == (13, 'u', 'w', 'a') then Some(UserViewAll)
    else if k == (11, 'u', 'a', 'a') then Some(UserManage)
    else if k == (11, 'u', 'e', 'e') then Some(UserDelete)
    else if k == (13, 's', ':', 'i') then Some(SettingsView)
    else if k == (15, 's', ':', 'a') then Some(SettingsUpdate)
    else None
  }

  lemma FromKeyInverse(p: Permission)
    ensures FromKey(Key(p)) == Some(p)
  {
  }
}
