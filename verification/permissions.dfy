/** The permission bitmask: the PermissionChoices flags, the mask derived for the
    current user, and the check of a list of required masks against it. */
module Permissions {
  import opened Entities

  /** A permission mask. The flags occupy the three low bits, which is all that
      JavaScript's `&` and `|` touch for the PermissionChoices values. */
  type Mask = bv3

  // PermissionChoices
  const All: Mask := 7      // 0b111
  const Staff: Mask := 0    // 0b000
  const Boarder: Mask := 1  // 0b001
  const Leader: Mask := 2   // 0b010

  /** The department name that marks a member of the board of directors. */
  const BOARD_NAME: string := "董事会"

  /** own_permissions, given the value of is_logined and the user record read after it:
      Staff when logged out, else Staff with Boarder added for a board department and
      Leader added for the department's own leader. A logged-in record without a
      department makes the property access fault with a TypeError. */
  function OwnPermissions(logined: bool, u: User): (r: Result<Mask>)
    ensures !logined ==> r == Ok(Staff)
    ensures logined ==> (r.Err? <==> u.department.None?)
    ensures r.Err? ==> r.fault == TypeError
    ensures r.Ok? ==> r.value & (Boarder | Leader) == r.value
    ensures r.Ok? ==> r.value != All
    ensures r.Ok? && logined ==>
      (r.value & Boarder == Boarder <==> u.department.value.name == BOARD_NAME)
    ensures r.Ok? && logined ==>
      (r.value & Leader == Leader <==> u.uid == Some(u.department.value.leader))
  {
    if !logined then Ok(Staff)
    else match u.department
      case None => Err(TypeError)
      case Some(d) =>
        var m := Staff;
        var m := if d.name == BOARD_NAME then m | Boarder else m;
        var m := if Some(d.leader) == u.uid then m | Leader else m;
        Ok(m)
  }

  /** The session satisfies requirement `p` iff every bit of `p` is set in `own`. */
  predicate Satisfies(p: Mask, own: Mask) {
    p & own == p
  }

  lemma SatisfiesBitwise(p: Mask, own: Mask)
    ensures Satisfies(p, own) <==>
      (p & Boarder != 0 ==> own & Boarder != 0) &&
      (p & Leader != 0 ==> own & Leader != 0) &&
      (p & 4 != 0 ==> own & 4 != 0)
  {
  }

  /** `permissions.map(p => (p & own) == p)`. */
  function Results(ps: seq<Mask>, own: Mask): (rs: seq<bool>)
    ensures |rs| == |ps|
    ensures forall i :: 0 <= i < |ps| ==> rs[i] == Satisfies(ps[i], own)
  {
    if ps == [] then [] else [Satisfies(ps[0], own)] + Results(ps[1..], own)
  }

  /** Array.prototype.indexOf: the first position holding `x`, or -1. */
  function IndexOf(s: seq<bool>, x: bool): (r: int)
    ensures -1 <= r < |s|
    ensures r == -1 <==> x !in s
    ensures 0 <= r ==> s[r] == x && forall j :: 0 <= j < r ==> s[j] != x
  {
    if s == [] then -1
    else if s[0] == x then 0
    else
      var k := IndexOf(s[1..], x);
      if k == -1 then -1 else k + 1
  }

  /** The combination step of has_permission over the mapped answers: with `opt == "|"`
      (the default) some answer must be true, with any other `opt` none may be false. */
  function Combine(results: seq<bool>, opt: string := "|"): (r: bool)
    ensures opt == "|" ==> (r <==> true in results)
    ensures opt != "|" ==> (r <==> false !in results)
  {
    if opt == "|" then IndexOf(results, true) >= 0
    else !(IndexOf(results, false) >= 0)
  }

  /** has_permission against the mask `own`: with `opt == "|"` (the default) some
      requirement must be satisfied, with any other `opt` all of them must be. */
  function HasPermission(ps: seq<Mask>, own: Mask, opt: string := "|"): (r: bool)
    ensures opt == "|" ==> (r <==> exists i :: 0 <= i < |ps| && Satisfies(ps[i], own))
    ensures opt != "|" ==> (r <==> forall i :: 0 <= i < |ps| ==> Satisfies(ps[i], own))
  {
    Combine(Results(ps, own), opt)
  }

  /** The empty list: false for "|", true for any other combination mode, whatever the mask. */
  lemma HasPermissionVacuous(opt: string, own: Mask)
    ensures HasPermission([], own, opt) <==> opt != "|"
  {
  }

  /** No derived mask holds All, and every derived mask holds Staff. */
  lemma AllUnreachable(logined: bool, u: User, opt: string)
    requires OwnPermissions(logined, u).Ok?
    ensures !HasPermission([All], OwnPermissions(logined, u).value, opt)
    ensures HasPermission([Staff], OwnPermissions(logined, u).value, opt)
  {
  }

  /** The two flags are decided independently: the Boarder bit depends only on the
      department name, the Leader bit only on the department leader and the uid. */
  lemma FlagsIndependent(u: User, v: User)
    requires u.department.Some? && v.department.Some?
    ensures u.department.value.name == v.department.value.name ==>
      OwnPermissions(true, u).value & Boarder == OwnPermissions(true, v).value & Boarder
    ensures u.department.value.leader == v.department.value.leader && u.uid == v.uid ==>
      OwnPermissions(true, u).value & Leader == OwnPermissions(true, v).value & Leader
  {
  }

  /** The worked cases: a board member who is not the leader, and a leader who is not
      on the board, each logged in; and a logged-out session. A check without `opt`
      combines with "|". */
  lemma Scenarios()
    ensures var board := User(Some(5), Some(Department(BOARD_NAME, 9)), {});
      OwnPermissions(true, board) == Ok(Boarder) &&
      HasPermission([Boarder, Leader], Boarder) &&
      !HasPermission([Boarder, Leader], Boarder, "&")
    ensures var lead := User(Some(5), Some(Department("Engineering", 5)), {});
      OwnPermissions(true, lead) == Ok(Leader) &&
      HasPermission([Leader], Leader, "&")
    ensures OwnPermissions(false, EMPTY_USER) == Ok(Staff) &&
      HasPermission([Staff], Staff) && !HasPermission([Boarder], Staff)
  {
  }
}
