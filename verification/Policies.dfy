/** Authorization policies: decisions of a policy tree, and the builders that make its leaves. */
module Policies {
  import opened Prelude

  datatype Role = ADMIN | USER | WORKER

  datatype Permission = Permission(resource: string, action: string, ownerRequired: bool)

  /** A point in time with or without a time zone; Python refuses to compare the two kinds. */
  datatype Timestamp = Naive(time: int) | Aware(time: int)

  datatype AuthContext = AuthContext(userId: string, roles: seq<Role>, expiresAt: Timestamp)

  /** The context made from token claims: its expiry carries the UTC zone. */
  function FromClaims(userId: string, roles: seq<Role>, exp: int): AuthContext {
    AuthContext(userId, roles, Aware(exp))
  }

  /** The keyword arguments of an evaluation, and the naive clock reading it takes. */
  datatype Call = Call(resourceOwnerId: Option<string>, requiredPermission: Option<Permission>, now: int)

  datatype Mode = And | Or

  datatype Policy =
    | RoleBased(required: set<Role>, anyOf: set<Role>, allOf: set<Role>)
    | ResourceOwnership(allowAdminOverride: bool)
    | PermissionBased(grants: map<Role, set<Permission>>)
    | TimeBased
    | Composite(mode: Mode, parts: seq<Policy>)

  datatype Decision = Grant | Deny | Error(message: string)

  function Decide(b: bool): Decision { if b then Grant else Deny }

  predicate HasAll(c: AuthContext, rs: set<Role>) { forall r :: r in rs ==> r in c.roles }

  predicate HasAny(c: AuthContext, rs: set<Role>) { exists r :: r in rs && r in c.roles }

  function UserPermissions(grants: map<Role, set<Permission>>, roles: seq<Role>): set<Permission> {
    set r, p | r in roles && r in grants && p in grants[r] :: p
  }

  function Evaluate(p: Policy, c: AuthContext, call: Call): Decision
    decreases p
  {
    match p
    case RoleBased(required, anyOf, allOf) =>
      Decide(HasAll(c, required) && HasAll(c, allOf) && (anyOf == {} || HasAny(c, anyOf)))
    case ResourceOwnership(override) =>
      if call.resourceOwnerId.None? then Error("Missing 'resource_owner_id' in policy context")
      else Decide((override && ADMIN in c.roles) || c.userId == call.resourceOwnerId.value)
    case PermissionBased(grants) =>
      if call.requiredPermission.None? then Error("Missing 'required_permission' in policy context")
      else Decide(call.requiredPermission.value in UserPermissions(grants, c.roles))
    case TimeBased =>
      if c.expiresAt.Aware? then Error("can't compare offset-naive and offset-aware datetimes")
      else Decide(call.now <= c.expiresAt.time)
    case Composite(m, parts) => if parts == [] then Grant else Combine(m, parts, c, call)
  }

  /** The decision that settles a composite without looking at the rest. */
  predicate Settles(m: Mode, d: Decision) { d.Error? || d == (if m.And? then Deny else Grant) }

  /** Python's `all` and `any` over the parts: evaluation stops at the first part that settles the matter. */
  function Combine(m: Mode, parts: seq<Policy>, c: AuthContext, call: Call): Decision
    decreases parts
  {
    if parts == [] then Decide(m.And?)
    else
      var d := Evaluate(parts[0], c, call);
      if Settles(m, d) then d else Combine(m, parts[1..], c, call)
  }

  // ---------------------------------------------------------------------------------------------
  // What a policy decides
  // ---------------------------------------------------------------------------------------------

  /** An ownership leaf grants exactly the owner, and an admin if the override is on; without an owner to compare
      with it raises. */
  lemma OwnershipDecides(override: bool, c: AuthContext, call: Call)
    ensures var d := Evaluate(ResourceOwnership(override), c, call);
      && (call.resourceOwnerId.None? <==> d == Error("Missing 'resource_owner_id' in policy context"))
      && (d == Grant <==>
            || call.resourceOwnerId == Some(c.userId)
            || (call.resourceOwnerId.Some? && override && ADMIN in c.roles))
      && (d == Deny <==>
            call.resourceOwnerId.Some? && call.resourceOwnerId.value != c.userId && !(override && ADMIN in c.roles))
  {
  }

  /** A permission leaf grants exactly if some role of the caller was granted the required permission. */
  lemma PermissionDecides(grants: map<Role, set<Permission>>, c: AuthContext, call: Call)
    ensures var d := Evaluate(PermissionBased(grants), c, call);
      && (call.requiredPermission.None? <==> d == Error("Missing 'required_permission' in policy context"))
      && (d == Grant <==>
            && call.requiredPermission.Some?
            && exists r :: r in c.roles && r in grants && call.requiredPermission.value in grants[r])
      && (d == Deny <==>
            && call.requiredPermission.Some?
            && forall r :: r in c.roles && r in grants ==> call.requiredPermission.value !in grants[r])
  {
  }

  /** A role leaf grants exactly a caller who has every required role, and one of the alternatives if there are any;
      it never raises. */
  lemma RoleDecides(required: set<Role>, anyOf: set<Role>, allOf: set<Role>, c: AuthContext, call: Call)
    ensures var d := Evaluate(RoleBased(required, anyOf, allOf), c, call);
      && (d == Grant <==>
            && (forall r :: r in required + allOf ==> r in c.roles)
            && (anyOf == {} || exists r :: r in anyOf && r in c.roles))
      && (d == Deny <==> d != Grant)
  {
    assert forall r :: r in required || r in allOf ==> r in required + allOf;
  }

  /** A time leaf grants up to and including the moment of expiry, and raises on an expiry with a time zone. */
  lemma TimeDecides(c: AuthContext, call: Call)
    ensures var d := Evaluate(TimeBased, c, call);
      && (d.Error? <==> c.expiresAt.Aware?)
      && (d == Grant <==> c.expiresAt.Naive? && call.now <= c.expiresAt.time)
      && (d == Deny <==> c.expiresAt.Naive? && c.expiresAt.time < call.now)
  {
  }

  /** The part grants, and all before it deny. */
  ghost predicate GrantsFirst(parts: seq<Policy>, c: AuthContext, call: Call, i: int) {
    && 0 <= i < |parts| && Evaluate(parts[i], c, call) == Grant
    && forall k :: 0 <= k < i ==> Evaluate(parts[k], c, call) == Deny
  }

  /** An "and" grants exactly if all of its parts do, and an "or" if it is empty or has a part that grants with only
      denials before it: if no part raises, exactly if some part grants. */
  lemma CompositeDecides(parts: seq<Policy>, c: AuthContext, call: Call)
    ensures Evaluate(Composite(And, parts), c, call) == Grant <==>
      forall i :: 0 <= i < |parts| ==> Evaluate(parts[i], c, call) == Grant
    ensures Evaluate(Composite(Or, parts), c, call) == Grant <==>
      parts == [] || exists i :: GrantsFirst(parts, c, call, i)
    ensures (forall i :: 0 <= i < |parts| ==> !Evaluate(parts[i], c, call).Error?) ==>
      (Evaluate(Composite(Or, parts), c, call) == Grant <==>
        parts == [] || exists i :: 0 <= i < |parts| && Evaluate(parts[i], c, call) == Grant)
  {
    AllGrant(parts, c, call);
    FirstGrants(parts, c, call);
    if i :| 0 <= i < |parts| && Evaluate(parts[i], c, call) == Grant {
      var j := FirstGrant(parts, c, call, i);
      assert (forall k :: 0 <= k < |parts| ==> !Evaluate(parts[k], c, call).Error?) ==> GrantsFirst(parts, c, call, j);
    }
  }

  lemma {:induction false} FirstGrant(parts: seq<Policy>, c: AuthContext, call: Call, i: nat) returns (j: nat)
    requires i < |parts| && Evaluate(parts[i], c, call) == Grant
    ensures j <= i && Evaluate(parts[j], c, call) == Grant
    ensures forall k :: 0 <= k < j ==> Evaluate(parts[k], c, call) != Grant
  {
    if k :| 0 <= k < i && Evaluate(parts[k], c, call) == Grant {
      j := FirstGrant(parts, c, call, k);
    } else {
      j := i;
    }
  }

  lemma {:induction false} AllGrant(parts: seq<Policy>, c: AuthContext, call: Call)
    ensures Combine(And, parts, c, call) == Grant <==>
      forall i :: 0 <= i < |parts| ==> Evaluate(parts[i], c, call) == Grant
    decreases |parts|
  {
    if parts != [] {
      AllGrant(parts[1..], c, call);
      assert forall i :: 0 < i < |parts| ==> parts[i] == parts[1..][i - 1];
    }
  }

  lemma {:induction false} FirstGrants(parts: seq<Policy>, c: AuthContext, call: Call)
    ensures Combine(Or, parts, c, call) == Grant <==> exists i :: GrantsFirst(parts, c, call, i)
    decreases |parts|
  {
    if parts != [] {
      var rest := parts[1..];
      FirstGrants(rest, c, call);
      var d := Evaluate(parts[0], c, call);
      if d == Grant {
        assert GrantsFirst(parts, c, call, 0);
      } else if d == Deny {
        assert forall k :: 0 < k < |parts| ==> parts[k] == rest[k - 1];
        if i :| GrantsFirst(rest, c, call, i) {
          assert GrantsFirst(parts, c, call, i + 1);
        }
        if i :| GrantsFirst(parts, c, call, i) {
          assert forall k :: 0 <= k < i - 1 ==> rest[k] == parts[k + 1];
          assert GrantsFirst(rest, c, call, i - 1);
        }
      }
    }
  }

  // ---------------------------------------------------------------------------------------------
  // More roles never deny
  // ---------------------------------------------------------------------------------------------

  /** What a leaf needs in order to decide: its keyword argument, or an expiry it can compare. */
  predicate LeafSupplied(p: Policy, c: AuthContext, call: Call) {
    match p
    case ResourceOwnership(_) => call.resourceOwnerId.Some?
    case PermissionBased(_) => call.requiredPermission.Some?
    case TimeBased => c.expiresAt.Naive?
    case _ => true
  }

  /** Evaluation, with its short cuts, gets to a leaf that lacks what it needs. */
  predicate ReachesStarved(p: Policy, c: AuthContext, call: Call)
    decreases p
  {
    if p.Composite? then PartsReachStarved(p.mode, p.parts, c, call) else !LeafSupplied(p, c, call)
  }

  predicate PartsReachStarved(m: Mode, parts: seq<Policy>, c: AuthContext, call: Call)
    decreases parts
  {
    parts != [] &&
    (ReachesStarved(parts[0], c, call) ||
     (!Settles(m, Evaluate(parts[0], c, call)) && PartsReachStarved(m, parts[1..], c, call)))
  }

  lemma {:induction false} FailsIffStarved(p: Policy, c: AuthContext, call: Call)
    ensures Evaluate(p, c, call).Error? <==> ReachesStarved(p, c, call)
    decreases p
  {
    if p.Composite? {
      CombineFailsIffStarved(p.mode, p.parts, c, call);
    }
  }

  lemma {:induction false} CombineFailsIffStarved(m: Mode, parts: seq<Policy>, c: AuthContext, call: Call)
    ensures Combine(m, parts, c, call).Error? <==> PartsReachStarved(m, parts, c, call)
    decreases parts
  {
    if parts != [] {
      FailsIffStarved(parts[0], c, call);
      CombineFailsIffStarved(m, parts[1..], c, call);
    }
  }

  ghost predicate MoreRoles(c: AuthContext, d: AuthContext) {
    && d.userId == c.userId && d.expiresAt == c.expiresAt
    && forall r :: r in c.roles ==> r in d.roles
  }

  /** For every tree, caller and call: adding roles never turns a grant into a denial. */
  lemma {:induction false} RolesNeverDeny(p: Policy, c: AuthContext, d: AuthContext, call: Call)
    requires MoreRoles(c, d) && Evaluate(p, c, call) == Grant
    ensures Evaluate(p, d, call) != Deny
    decreases p
  {
    if p.Composite? && p.parts != [] {
      CombineNeverDenies(p.mode, p.parts, c, d, call);
    } else if p.RoleBased? && p.anyOf != {} {
      var r :| r in p.anyOf && r in c.roles;
      assert r in d.roles;
    }
  }

  lemma {:induction false} CombineNeverDenies(m: Mode, parts: seq<Policy>, c: AuthContext, d: AuthContext, call: Call)
    requires MoreRoles(c, d) && Combine(m, parts, c, call) == Grant
    ensures Combine(m, parts, d, call) != Deny
    decreases parts
  {
    if parts != [] {
      if Evaluate(parts[0], c, call) == Grant {
        RolesNeverDeny(parts[0], c, d, call);
      }
      if !Settles(m, Evaluate(parts[0], c, call)) {
        CombineNeverDenies(m, parts[1..], c, d, call);
      }
    }
  }

  /** A grant survives added roles exactly if the evaluation with them reaches no starved leaf. */
  lemma GrantSurvivesIff(p: Policy, c: AuthContext, d: AuthContext, call: Call)
    requires MoreRoles(c, d) && Evaluate(p, c, call) == Grant
    ensures Evaluate(p, d, call) == Grant <==> !ReachesStarved(p, d, call)
  {
    RolesNeverDeny(p, c, d, call);
    FailsIffStarved(p, d, call);
  }

  /** Every leaf of the tree has what it needs. */
  predicate Supplied(p: Policy, c: AuthContext, call: Call) {
    if p.Composite? then forall i :: 0 <= i < |p.parts| ==> Supplied(p.parts[i], c, call)
    else LeafSupplied(p, c, call)
  }

  lemma {:induction false} SuppliedNeverStarves(p: Policy, c: AuthContext, call: Call)
    requires Supplied(p, c, call)
    ensures !ReachesStarved(p, c, call)
    decreases p
  {
    if p.Composite? {
      PartsNeverStarve(p.mode, p.parts, c, call);
    }
  }

  lemma {:induction false} PartsNeverStarve(m: Mode, parts: seq<Policy>, c: AuthContext, call: Call)
    requires forall i :: 0 <= i < |parts| ==> Supplied(parts[i], c, call)
    ensures !PartsReachStarved(m, parts, c, call)
    decreases parts
  {
    if parts != [] {
      SuppliedNeverStarves(parts[0], c, call);
      PartsNeverStarve(m, parts[1..], c, call);
    }
  }

  lemma {:induction false} SuppliedWithMoreRoles(p: Policy, c: AuthContext, d: AuthContext, call: Call)
    requires MoreRoles(c, d) && Supplied(p, c, call)
    ensures Supplied(p, d, call)
    decreases p
  {
    if p.Composite? {
      forall i | 0 <= i < |p.parts| ensures Supplied(p.parts[i], d, call) {
        SuppliedWithMoreRoles(p.parts[i], c, d, call);
      }
    }
  }

  /** With all context present, adding roles to the caller never takes a grant away. */
  lemma RolesAreMonotone(p: Policy, c: AuthContext, d: AuthContext, call: Call)
    requires Supplied(p, c, call) && MoreRoles(c, d)
    requires Evaluate(p, c, call) == Grant
    ensures Evaluate(p, d, call) == Grant
  {
    SuppliedWithMoreRoles(p, c, d, call);
    SuppliedNeverStarves(p, d, call);
    GrantSurvivesIff(p, c, d, call);
  }

  /** An "or" whose first part is an "and" that only an admin gets far enough into to meet a starved leaf. */
  function Guarded(leaf: Policy): Policy {
    Composite(Or, [Composite(And, [RoleBased({ADMIN}, {}, {}), leaf]), RoleBased({USER}, {}, {})])
  }

  /** Whatever the starved leaf: without the admin role the caller is granted, with it evaluation raises. */
  lemma StarvedLeafBreaksMonotony(leaf: Policy, expiresAt: Timestamp, call: Call)
    requires !leaf.Composite? && !LeafSupplied(leaf, AuthContext("u", [USER], expiresAt), call)
    ensures Evaluate(Guarded(leaf), AuthContext("u", [USER], expiresAt), call) == Grant
    ensures Evaluate(Guarded(leaf), AuthContext("u", [USER, ADMIN], expiresAt), call).Error?
  {
    var user, admin := AuthContext("u", [USER], expiresAt), AuthContext("u", [USER, ADMIN], expiresAt);
    var isAdmin, isUser := RoleBased({ADMIN}, {}, {}), RoleBased({USER}, {}, {});
    var both := Composite(And, [isAdmin, leaf]);
    assert Evaluate(isAdmin, user, call) == Deny && Evaluate(both, user, call) == Deny;
    assert admin.roles[1] == ADMIN && Evaluate(isAdmin, admin, call) == Grant;
    assert [isAdmin, leaf][1..] == [leaf] && Combine(And, [leaf], admin, call).Error?;
    assert Evaluate(both, admin, call).Error?;
    assert user.roles[0] == USER && Evaluate(isUser, user, call) == Grant;
    assert [both, isUser][1..] == [isUser] && Combine(Or, [isUser], user, call) == Grant;
  }

  /** A time-based leaf never decides for a context made from token claims, so with one in the tree an added
      role can turn a grant into an error whatever the call supplies. */
  lemma TimeBasedAlwaysStarves(userId: string, roles: seq<Role>, exp: int, call: Call)
    ensures Evaluate(TimeBased, FromClaims(userId, roles, exp), call).Error?
    ensures Evaluate(Guarded(TimeBased), FromClaims("u", [USER], exp), call) == Grant
    ensures Evaluate(Guarded(TimeBased), FromClaims("u", [USER, ADMIN], exp), call).Error?
  {
    StarvedLeafBreaksMonotony(TimeBased, Aware(exp), call);
  }

  /** Without the argument the leaf asks for, the same happens to an ownership or permission leaf. */
  lemma MissingContextBreaksMonotony(expiresAt: Timestamp)
    ensures var call := Call(None, None, 0);
      && Evaluate(Guarded(ResourceOwnership(true)), AuthContext("u", [USER], expiresAt), call) == Grant
      && Evaluate(Guarded(ResourceOwnership(true)), AuthContext("u", [USER, ADMIN], expiresAt), call).Error?
  {
    StarvedLeafBreaksMonotony(ResourceOwnership(true), expiresAt, Call(None, None, 0));
  }

  // ---------------------------------------------------------------------------------------------
  // Flattening nested composites
  // ---------------------------------------------------------------------------------------------

  lemma {:induction false} CombineAppend(m: Mode, a: seq<Policy>, b: seq<Policy>, c: AuthContext, call: Call)
    ensures Combine(m, a + b, c, call) ==
      if Settles(m, Combine(m, a, c, call)) then Combine(m, a, c, call) else Combine(m, b, c, call)
  {
    if a == [] {
      assert a + b == b;
    } else {
      assert (a + b)[1..] == a[1..] + b;
      CombineAppend(m, a[1..], b, c, call);
    }
  }

  /** Splicing a nested composite into a parent of the same mode keeps every decision, errors included, unless
      an empty one sat in an "or": that one grants, and then it depends on the parts around it. */
  lemma SplicePreserves(m: Mode, pre: seq<Policy>, inner: seq<Policy>, post: seq<Policy>, c: AuthContext, call: Call)
    ensures Evaluate(Composite(m, pre + [Composite(m, inner)] + post), c, call) ==
            Evaluate(Composite(m, pre + inner + post), c, call)
      <==> inner != [] || m.And? || pre + post == []
           || Settles(Or, Combine(Or, pre, c, call)) || Combine(Or, post, c, call) == Grant
  {
    CombineAppend(m, pre + [Composite(m, inner)], post, c, call);
    CombineAppend(m, pre, [Composite(m, inner)], c, call);
    CombineAppend(m, pre + inner, post, c, call);
    CombineAppend(m, pre, inner, c, call);
    CombineOne(m, Composite(m, inner), c, call);
  }

  /** The exception is real: dropping an empty composite from an "or" can turn a grant into a denial. */
  lemma EmptyOrSpliceDenies(c: AuthContext, call: Call)
    requires ADMIN !in c.roles
    ensures Evaluate(Composite(Or, [Composite(Or, []), RoleBased({ADMIN}, {}, {})]), c, call) == Grant
    ensures Evaluate(Composite(Or, [RoleBased({ADMIN}, {}, {})]), c, call) == Deny
  {
    var isAdmin := RoleBased({ADMIN}, {}, {});
    assert [isAdmin][1..] == [];
    assert Evaluate(isAdmin, c, call) == Deny;
  }

  lemma CombineOne(m: Mode, p: Policy, c: AuthContext, call: Call)
    ensures Combine(m, [p], c, call) == Evaluate(p, c, call)
  {
    assert [p][1..] == [];
  }

  /** Every non-empty composite spliced into its parent where the modes agree, at all depths. */
  function Flatten(p: Policy): Policy
    decreases p
  {
    match p
    case Composite(m, parts) => Composite(m, FlattenInto(m, parts))
    case _ => p
  }

  function FlattenInto(m: Mode, parts: seq<Policy>): seq<Policy>
    decreases parts
  {
    if parts == [] then []
    else
      var q := Flatten(parts[0]);
      (if q.Composite? && q.mode == m && q.parts != [] then q.parts else [q]) + FlattenInto(m, parts[1..])
  }

  /** Flattening the whole tree changes no decision and no error. */
  lemma {:induction false} FlattenPreserves(p: Policy, c: AuthContext, call: Call)
    ensures Evaluate(Flatten(p), c, call) == Evaluate(p, c, call)
    decreases p
  {
    if p.Composite? {
      FlattenIntoPreserves(p.mode, p.parts, c, call);
    }
  }

  lemma {:induction false} FlattenIntoPreserves(m: Mode, parts: seq<Policy>, c: AuthContext, call: Call)
    ensures Combine(m, FlattenInto(m, parts), c, call) == Combine(m, parts, c, call)
    ensures FlattenInto(m, parts) == [] <==> parts == []
    decreases parts
  {
    if parts != [] {
      var q := Flatten(parts[0]);
      FlattenPreserves(parts[0], c, call);
      FlattenIntoPreserves(m, parts[1..], c, call);
      CombineOne(m, q, c, call);
      CombineAppend(m, if q.Composite? && q.mode == m && q.parts != [] then q.parts else [q],
                    FlattenInto(m, parts[1..]), c, call);
    }
  }

  /** No composite holds a non-empty composite of its own mode. */
  predicate IsFlat(p: Policy) {
    p.Composite? ==> forall i :: 0 <= i < |p.parts| ==>
      IsFlat(p.parts[i]) && (p.parts[i].Composite? && p.parts[i].mode == p.mode ==> p.parts[i].parts == [])
  }

  lemma {:induction false} FlattenIsFlat(p: Policy)
    ensures IsFlat(Flatten(p))
    decreases p
  {
    if p.Composite? {
      FlattenIntoIsFlat(p.mode, p.parts);
    }
  }

  lemma {:induction false} FlattenIntoIsFlat(m: Mode, parts: seq<Policy>)
    ensures IsFlat(Composite(m, FlattenInto(m, parts)))
    decreases parts
  {
    if parts != [] {
      FlattenIsFlat(parts[0]);
      FlattenIntoIsFlat(m, parts[1..]);
    }
  }

  // ---------------------------------------------------------------------------------------------
  // Builders
  // ---------------------------------------------------------------------------------------------

  class RoleBasedAuthorizationPolicy {
    var requiredRoles: set<Role>
    var allowAnyRole: set<Role>
    var requireAllRoles: set<Role>

    function View(): Policy
      reads this
    {
      RoleBased(requiredRoles, allowAnyRole, requireAllRoles)
    }

    constructor ()
      ensures View() == RoleBased({}, {}, {})
    {
      requiredRoles, allowAnyRole, requireAllRoles := {}, {}, {};
    }

    method RequireRole(role: Role)
      modifies this
      ensures View() == RoleBased(old(requiredRoles) + {role}, old(allowAnyRole), old(requireAllRoles))
    {
      requiredRoles := requiredRoles + {role};
    }

    method RequireAnyRole(roles: seq<Role>)
      modifies this
      ensures View() == RoleBased(old(requiredRoles), old(allowAnyRole) + Elements(roles), old(requireAllRoles))
    {
      allowAnyRole := allowAnyRole + Elements(roles);
    }

    method RequireAllRoles(roles: seq<Role>)
      modifies this
      ensures View() == RoleBased(old(requiredRoles), old(allowAnyRole), old(requireAllRoles) + Elements(roles))
    {
      requireAllRoles := requireAllRoles + Elements(roles);
    }

    method Judge(c: AuthContext, call: Call) returns (d: Decision)
      ensures d == Evaluate(View(), c, call)
    {
      if requiredRoles != {} && !HasAll(c, requiredRoles) {
        return Deny;
      }
      if requireAllRoles != {} && !HasAll(c, requireAllRoles) {
        return Deny;
      }
      if allowAnyRole != {} && !HasAny(c, allowAnyRole) {
        return Deny;
      }
      return Grant;
    }
  }

  /** Exactly the holders of `role` gain, and gain exactly `permissions`. */
  ghost predicate Gains(before: map<Role, set<Permission>>, after: map<Role, set<Permission>>,
                        role: Role, permissions: set<Permission>)
  {
    forall roles ::
      UserPermissions(after, roles) == UserPermissions(before, roles) + if role in roles then permissions else {}
  }

  lemma GrantAdds(before: map<Role, set<Permission>>, after: map<Role, set<Permission>>,
                  role: Role, permission: Permission)
    requires role in after && after[role] == {permission} + if role in before then before[role] else {}
    requires forall r :: r != role ==> (r in after <==> r in before) && (r in after ==> after[r] == before[r])
    ensures Gains(before, after, role, {permission})
  {
    forall roles, p
      ensures p in UserPermissions(after, roles) <==>
        p in UserPermissions(before, roles) || (role in roles && p == permission)
    {
      if p in UserPermissions(before, roles) {
        var r :| r in roles && r in before && p in before[r];
        assert r in after && p in after[r];
      }
      if role in roles && p == permission {
        assert p in after[role];
      }
      if p in UserPermissions(after, roles) {
        var r :| r in roles && r in after && p in after[r];
        assert r == role || (r in before && p in before[r]);
      }
    }
  }

  lemma GainsAdd(before: map<Role, set<Permission>>, so: map<Role, set<Permission>>, after: map<Role, set<Permission>>,
                 role: Role, permissions: set<Permission>, permission: Permission)
    requires Gains(before, so, role, permissions) && Gains(so, after, role, {permission})
    ensures Gains(before, after, role, permissions + {permission})
  {
    hide UserPermissions;
  }

  class PermissionBasedPolicy {
    var rolePermissions: map<Role, set<Permission>>

    constructor ()
      ensures rolePermissions == map[]
    {
      rolePermissions := map[];
    }

    method GrantPermission(role: Role, permission: Permission)
      modifies this
      ensures Gains(old(rolePermissions), rolePermissions, role, {permission})
    {
      if role !in rolePermissions {
        rolePermissions := rolePermissions[role := {}];
      }
      rolePermissions := rolePermissions[role := rolePermissions[role] + {permission}];
      GrantAdds(old(rolePermissions), rolePermissions, role, permission);
    }

    method GrantPermissions(role: Role, permissions: seq<Permission>)
      modifies this
      ensures Gains(old(rolePermissions), rolePermissions, role, Elements(permissions))
    {
      for i := 0 to |permissions|
        invariant Gains(old(rolePermissions), rolePermissions, role, Elements(permissions[..i]))
      {
        ghost var so := rolePermissions;
        GrantPermission(role, permissions[i]);
        assert permissions[..i + 1] == permissions[..i] + [permissions[i]];
        GainsAdd(old(rolePermissions), so, rolePermissions, role,
                 Elements(permissions[..i]), permissions[i]);
        assert Elements(permissions[..i + 1]) == Elements(permissions[..i]) + {permissions[i]};
      }
      assert permissions[..|permissions|] == permissions;
    }

    method GetUserPermissions(c: AuthContext) returns (permissions: set<Permission>)
      ensures permissions == UserPermissions(rolePermissions, c.roles)
    {
      permissions := {};
      for i := 0 to |c.roles|
        invariant permissions == UserPermissions(rolePermissions, c.roles[..i])
      {
        assert c.roles[..i + 1] == c.roles[..i] + [c.roles[i]];
        if c.roles[i] in rolePermissions {
          permissions := permissions + rolePermissions[c.roles[i]];
        }
      }
      assert c.roles[..|c.roles|] == c.roles;
    }

    method Judge(c: AuthContext, call: Call) returns (d: Decision)
      ensures d == Evaluate(PermissionBased(rolePermissions), c, call)
    {
      if call.requiredPermission.None? {
        return Error("Missing 'required_permission' in policy context");
      }
      var permissions := GetUserPermissions(c);
      d := Decide(call.requiredPermission.value in permissions);
    }
  }

  class CompositeAuthorizationPolicy {
    const mode: Mode
    var policies: seq<Policy>

    constructor (mode: Mode)
      ensures this.mode == mode && policies == []
    {
      this.mode, policies := mode, [];
    }

    method Add(policy: Policy)
      modifies this
      ensures policies == old(policies) + [policy]
    {
      policies := policies + [policy];
    }

    /** The short-circuit loop behind `all` and `any`. */
    method Judge(c: AuthContext, call: Call) returns (d: Decision)
      ensures d == Evaluate(Composite(mode, policies), c, call)
    {
      if policies == [] {
        return Grant;
      }
      for i := 0 to |policies|
        invariant Combine(mode, policies, c, call) == Combine(mode, policies[i..], c, call)
      {
        d := Evaluate(policies[i], c, call);
        if Settles(mode, d) {
          return;
        }
        assert policies[i..][1..] == policies[i + 1..];
      }
      d := Decide(mode.And?);
    }
  }
}
