/** The role predicates `_has_admin_access`, `_has_write_access` and `_has_read_access`. */
module Roles {
  import opened Wrappers

  /** The decoded identity-token claims: the string-valued claims other than `roles`
      (`name`, `preferred_username`, ...), and the `roles` list, which may be absent. */
  datatype Claims = Claims(attributes: map<string, string>, roles: Option<seq<string>>)

  /** Python truthiness of the claims dict: it is falsy exactly when it has no keys. */
  predicate Truthy(c: Claims) {
    |c.attributes| > 0 || c.roles.Some?
  }

  /** `user.get('roles', [])`. */
  function RolesOf(c: Claims): seq<string> {
    c.roles.GetOr([])
  }

  /** `str.upper()` restricted to ASCII letters. */
  function UpperChar(ch: char): (r: char)
    ensures 'a' <= ch <= 'z' ==> r as int == ch as int - 32
    ensures !('a' <= ch <= 'z') ==> r == ch
  {
    if 'a' <= ch <= 'z' then (ch as int - 32) as char else ch
  }

  function Upper(s: string): (r: string)
    ensures |r| == |s|
    ensures forall i :: 0 <= i < |s| ==> r[i] == UpperChar(s[i])
  {
    if s == [] then [] else [UpperChar(s[0])] + Upper(s[1..])
  }

  /** `w` occurs in `s` at offset `k`. */
  ghost predicate OccursAt(s: string, w: string, k: int) {
    0 <= k && k + |w| <= |s| && s[k..k + |w|] == w
  }

  /** Python's `w in s` on strings: `w` is a contiguous substring of `s`. */
  predicate Contains(s: string, w: string)
    ensures w == [] || w == s ==> Contains(s, w)
    decreases |s|
  {
    |w| <= |s| && (s[..|w|] == w || (s != [] && Contains(s[1..], w)))
  }

  /** The scan agrees with the definition by offsets. */
  lemma {:induction false} ContainsIff(s: string, w: string)
    ensures Contains(s, w) <==> exists k :: OccursAt(s, w, k)
    decreases |s|
  {
    if |w| > |s| {
      forall k | OccursAt(s, w, k) ensures false { }
    } else if s[..|w|] == w {
      assert OccursAt(s, w, 0);
    } else {
      assert s != [];
      ContainsIff(s[1..], w);
      if Contains(s[1..], w) {
        var k :| OccursAt(s[1..], w, k);
        assert s[1..][k..k + |w|] == s[k + 1..k + 1 + |w|];
        assert OccursAt(s, w, k + 1);
      } else {
        forall k | OccursAt(s, w, k) ensures false {
          if k > 0 {
            assert s[1..][k - 1..k - 1 + |w|] == s[k..k + |w|];
            assert OccursAt(s[1..], w, k - 1);
          }
        }
      }
    }
  }

  /** Upper-casing commutes with slicing. */
  lemma UpperSlice(s: string, i: int, j: int)
    requires 0 <= i <= j <= |s|
    ensures Upper(s)[i..j] == Upper(s[i..j])
  {
    forall k | 0 <= k < j - i ensures Upper(s)[i..j][k] == Upper(s[i..j])[k] {
      assert s[i..j][k] == s[i + k];
    }
  }

  /** Upper-casing preserves substrings: matching after `upper()` is case-insensitive. */
  lemma {:induction false} UpperPreservesContains(s: string, w: string)
    requires Contains(s, w)
    ensures Contains(Upper(s), Upper(w))
  {
    ContainsIff(s, w);
    var k :| OccursAt(s, w, k);
    UpperSlice(s, k, k + |w|);
    assert OccursAt(Upper(s), Upper(w), k);
    ContainsIff(Upper(s), Upper(w));
  }

  /** Role `i` grants the tier named `word`: its upper-cased form contains `word`. */
  ghost predicate RoleGrants(roles: seq<string>, i: int, word: string) {
    0 <= i < |roles| && Contains(Upper(roles[i]), word)
  }

  /** A role list grants `word` iff its head does or its tail does. */
  lemma RoleGrantsTail(roles: seq<string>, word: string)
    requires roles != []
    ensures (exists i :: RoleGrants(roles, i, word))
        <==> Contains(Upper(roles[0]), word) || exists i :: RoleGrants(roles[1..], i, word)
  {
    if i :| RoleGrants(roles, i, word) {
      if i > 0 { assert RoleGrants(roles[1..], i - 1, word); }
    }
    if i :| RoleGrants(roles[1..], i, word) {
      assert RoleGrants(roles, i + 1, word);
    }
    if Contains(Upper(roles[0]), word) {
      assert RoleGrants(roles, 0, word);
    }
  }

  /** `any(word in role.upper() for role in roles)`. */
  function AnyRoleContains(roles: seq<string>, word: string): (r: bool)
    ensures r <==> exists i :: RoleGrants(roles, i, word)
  {
    if roles == [] then false
    else
      RoleGrantsTail(roles, word);
      Contains(Upper(roles[0]), word) || AnyRoleContains(roles[1..], word)
  }

  function HasAdminAccess(c: Claims): (r: bool)
    ensures r <==> exists i :: RoleGrants(RolesOf(c), i, "ADMIN")
    ensures r ==> RolesOf(c) != []
  {
    AnyRoleContains(RolesOf(c), "ADMIN")
  }

  function HasWriteAccess(c: Claims): (r: bool)
    ensures HasAdminAccess(c) ==> r
    ensures r <==> HasAdminAccess(c) || exists i :: RoleGrants(RolesOf(c), i, "WRITE")
    ensures r ==> RolesOf(c) != []
  {
    HasAdminAccess(c) || AnyRoleContains(RolesOf(c), "WRITE")
  }

  function HasReadAccess(c: Claims): (r: bool)
    ensures HasWriteAccess(c) ==> r
    ensures r <==> HasWriteAccess(c) || exists i :: RoleGrants(RolesOf(c), i, "READ")
    ensures r ==> RolesOf(c) != [] && Truthy(c)
  {
    HasAdminAccess(c) || HasWriteAccess(c) || AnyRoleContains(RolesOf(c), "READ")
  }

  /** Absent or empty `roles` grants nothing. */
  lemma NoRolesNoAccess(c: Claims)
    requires c.roles.None? || c.roles == Some([])
    ensures !HasAdminAccess(c) && !HasWriteAccess(c) && !HasReadAccess(c)
  {
  }

  /** A role containing `w`, where `w` is "admin" in any letter casing, grants all three tiers. */
  lemma AdminInAnyCasing(c: Claims, i: int, w: string)
    requires 0 <= i < |RolesOf(c)|
    requires Contains(RolesOf(c)[i], w)
    requires Upper(w) == "ADMIN"
    ensures HasAdminAccess(c) && HasWriteAccess(c) && HasReadAccess(c)
  {
    UpperPreservesContains(RolesOf(c)[i], w);
    assert RoleGrants(RolesOf(c), i, "ADMIN");
  }

  // Worked examples: the role names below are matched by substring and in any casing.

  /** "SuperAdmin" is not "ADMIN", yet it grants admin access (and so write and read). */
  lemma SuperAdminRole(c: Claims)
    requires RolesOf(c) == ["SuperAdmin"]
    ensures HasAdminAccess(c) && HasWriteAccess(c) && HasReadAccess(c)
  {
    assert "SuperAdmin"[5..10] == "Admin";
    assert OccursAt("SuperAdmin", "Admin", 5);
    ContainsIff("SuperAdmin", "Admin");
    assert Upper("Admin") == "ADMIN";
    AdminInAnyCasing(c, 0, "Admin");
  }

  lemma UpperWriteAccess(s: string)
    requires s == "write-access"
    ensures Upper(s) == "WRITE-ACCESS"
  {
  }

  lemma UpperViewerRead(s: string)
    requires s == "viewer-read"
    ensures Upper(s) == "VIEWER-READ"
  {
  }

  /** The tier words that do not occur in the two example roles. */
  lemma NotContained(u: string, w: string)
    requires u == "WRITE-ACCESS" || u == "VIEWER-READ"
    requires w == "ADMIN" || (u == "VIEWER-READ" && w == "WRITE")
    ensures !Contains(u, w)
  {
    ContainsIff(u, w);
    forall k | 0 <= k <= |u| - |w| ensures u[k] != w[0] || u[k + 1] != w[1] { }
    forall k ensures !OccursAt(u, w, k) {
      if 0 <= k <= |u| - |w| {
        assert u[k..k + |w|][0] == u[k] && u[k..k + |w|][1] == u[k + 1];
      }
    }
  }

  /** A word found at an offset is contained. */
  lemma ContainedAt(s: string, w: string, k: int)
    requires 0 <= k && k + |w| <= |s| && s[k..k + |w|] == w
    ensures Contains(s, w)
  {
    assert OccursAt(s, w, k);
    ContainsIff(s, w);
  }

  /** With a single role, the tiers are decided by that role's upper-cased form `u`. */
  lemma SingleRoleTiers(c: Claims, u: string)
    requires |RolesOf(c)| == 1 && Upper(RolesOf(c)[0]) == u
    ensures HasAdminAccess(c) == Contains(u, "ADMIN")
    ensures HasWriteAccess(c) == (Contains(u, "ADMIN") || Contains(u, "WRITE"))
    ensures HasReadAccess(c) == (Contains(u, "ADMIN") || Contains(u, "WRITE") || Contains(u, "READ"))
  {
  }

  /** Only "write-access": write and read, not admin. */
  lemma WriteAccessRole(c: Claims, r: string)
    requires RolesOf(c) == [r] && r == "write-access"
    ensures HasWriteAccess(c) && !HasAdminAccess(c) && HasReadAccess(c)
  {
    UpperWriteAccess(r);
    WriteAccessWords(Upper(r));
    SingleRoleTiers(c, Upper(r));
  }

  /** The tier words in "WRITE-ACCESS": "WRITE" occurs, "ADMIN" does not. */
  lemma WriteAccessWords(u: string)
    requires u == "WRITE-ACCESS"
    ensures !Contains(u, "ADMIN") && Contains(u, "WRITE")
  {
    NotContained(u, "ADMIN");
    ContainedAt(u, "WRITE", 0);
  }

  /** Only "viewer-read": read, neither write nor admin. */
  lemma ViewerReadRole(c: Claims, r: string)
    requires RolesOf(c) == [r] && r == "viewer-read"
    ensures HasReadAccess(c) && !HasWriteAccess(c) && !HasAdminAccess(c)
  {
    UpperViewerRead(r);
    ViewerReadWords(Upper(r));
    SingleRoleTiers(c, Upper(r));
  }

  /** The tier words in "VIEWER-READ": "READ" occurs, "ADMIN" and "WRITE" do not. */
  lemma ViewerReadWords(u: string)
    requires u == "VIEWER-READ"
    ensures !Contains(u, "ADMIN") && !Contains(u, "WRITE") && Contains(u, "READ")
  {
    NotContained(u, "ADMIN");
    NotContained(u, "WRITE");
    ContainedAt(u, "READ", 7);
  }
}
