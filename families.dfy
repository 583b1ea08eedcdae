/**
 * The family registry: the families_list worksheet with columns
 * family_id, user_id and role, read through get_all_records and only ever
 * appended to.
 */
module Families {
  import opened Wrappers
  import opened Sheets
  import opened Ledger

  /** The row create_family and handle_family_id append. */
  function MemberRow(familyId: string, user: UserId, role: string): Row {
    [Str(familyId), Str(user), Str(role)]
  }

  /** any(str(user_id) == record.get("user_id") for record in records) */
  predicate HasMember(g: Grid, user: UserId) {
    exists i :: 1 <= i < |g| && Field(g, i, "user_id") == Some(Str(user))
  }

  /** any(family_id == record.get("family_id") for record in records) */
  predicate HasFamily(g: Grid, familyId: string) {
    exists i :: 1 <= i < |g| && Field(g, i, "family_id") == Some(Str(familyId))
  }

  /**
   * The text of the family_id field of row i when that field is text; a
   * number or a missing column gives none.
   */
  function FamilyText(g: Grid, i: nat): Option<string>
    requires 1 <= i < |g|
  {
    match Field(g, i, "family_id")
    case Some(Str(s)) => Some(s)
    case _ => None
  }

  function FirstFamilyFrom(g: Grid, user: UserId, k: nat): (r: Option<nat>)
    requires 1 <= k <= |g|
    ensures r.Some? ==> k <= r.value < |g| && Field(g, r.value, "user_id") == Some(Str(user))
                        && forall j :: k <= j < r.value ==> Field(g, j, "user_id") != Some(Str(user))
    ensures r.None? ==> forall j :: k <= j < |g| ==> Field(g, j, "user_id") != Some(Str(user))
    decreases |g| - k
  {
    if k == |g| then None
    else if Field(g, k, "user_id") == Some(Str(user)) then Some(k)
    else FirstFamilyFrom(g, user, k + 1)
  }

  /** Row i is the first registry row whose user_id is the user's. */
  predicate FirstNaming(g: Grid, user: UserId, i: nat)
    requires 1 <= i < |g|
  {
    && Field(g, i, "user_id") == Some(Str(user))
    && forall j :: 1 <= j < i ==> Field(g, j, "user_id") != Some(Str(user))
  }

  /**
   * The family of a user as process_expense and handle_stats_type find it:
   * the family_id of the first row naming the user, if that id is non-empty
   * text ("if family_id:").
   */
  function FamilyOf(g: Grid, user: UserId): (r: Option<string>)
    ensures r.Some? ==> r.value != "" && HasMember(g, user)
    ensures !HasMember(g, user) ==> r.None?
    ensures r.Some? ==> exists i :: 1 <= i < |g| && FirstNaming(g, user, i) && FamilyText(g, i) == r
    ensures forall i :: 1 <= i < |g| && FirstNaming(g, user, i) ==>
              (r.Some? <==> FamilyText(g, i).Some? && FamilyText(g, i).value != "")
  {
    if |g| == 0 then None
    else match FirstFamilyFrom(g, user, 1)
      case None => None
      case Some(i) =>
        match FamilyText(g, i)
        case Some(s) => if s != "" then Some(s) else None
        case None => None
  }

  /**
   * user_families of handle_delete_expense: the family_id of every row
   * naming the user, in registry order.
   */
  function FamilyIdsFrom(g: Grid, user: UserId, k: nat): (r: seq<string>)
    requires 1 <= k <= |g|
    decreases |g| - k
  {
    if k == |g| then []
    else
      var rest := FamilyIdsFrom(g, user, k + 1);
      if Field(g, k, "user_id") == Some(Str(user)) && FamilyText(g, k).Some? then [FamilyText(g, k).value] + rest
      else rest
  }

  function FamilyIds(g: Grid, user: UserId): seq<string> {
    if |g| == 0 then [] else FamilyIdsFrom(g, user, 1)
  }

  /** The same ids with repeats dropped, as get_last_expenses' set comprehension holds them. */
  function Distinct(xs: seq<string>): (r: seq<string>)
    ensures forall x :: x in r <==> x in xs
    ensures forall i, j :: 0 <= i < j < |r| ==> r[i] != r[j]
  {
    if xs == [] then []
    else
      var rest := Distinct(xs[1..]);
      assert forall x :: x in xs <==> x == xs[0] || x in xs[1..];
      if xs[0] in rest then rest else [xs[0]] + rest
  }

  /** Every user id appears in at most one row of the registry. */
  predicate OneRowPerUser(g: Grid) {
    forall i, j :: 1 <= i < j < |g| ==> Field(g, i, "user_id") != Field(g, j, "user_id")
  }

  /**
   * The registry as the bot creates and keeps it: its own header, text
   * cells only, and each user in at most one row.
   */
  predicate RegistryOk(g: Grid) {
    && |g| >= 1 && g[0] == FamiliesHeader
    && (forall i, c :: 1 <= i < |g| && 0 <= c < |g[i]| ==> g[i][c].Str?)
    && OneRowPerUser(g)
  }

  lemma {:induction false} RegistryColumns()
    ensures KeyColumn(FamiliesHeader, "family_id") == Some(0)
    ensures KeyColumn(FamiliesHeader, "user_id") == Some(1)
  {
    assert FamiliesHeader[..2][..1] == [Str("family_id")];
  }

  /** A new registry is well formed. */
  lemma {:induction false} EmptyRegistryOk()
    ensures RegistryOk([FamiliesHeader])
  {
  }

  /**
   * Appending a row for a user who is not yet listed keeps every user in at
   * most one row; the new row names the user.
   */
  lemma {:induction false} AppendKeepsOneRowPerUser(g: Grid, familyId: string, user: UserId, role: string)
    requires RegistryOk(g) && !HasMember(g, user)
    ensures RegistryOk(g + [MemberRow(familyId, user, role)])
    ensures HasMember(g + [MemberRow(familyId, user, role)], user)
  {
    var m := g + [MemberRow(familyId, user, role)];
    RegistryColumns();
    assert m[0] == g[0];
    assert Field(m, |g|, "user_id") == Some(Str(user));
    forall i, j | 1 <= i < j < |m| ensures Field(m, i, "user_id") != Field(m, j, "user_id") {
      assert Field(m, i, "user_id") == Field(g, i, "user_id") || i == |g|;
      if j == |g| {
        assert Field(m, i, "user_id") == Field(g, i, "user_id");
      } else {
        assert Field(m, j, "user_id") == Field(g, j, "user_id");
      }
    }
  }

  /** Whether a user may create a family: not already listed. */
  datatype CreateCheck = MayCreate | AlreadyListed

  /** Whether a user may join: the family must be listed and the user must not. */
  datatype JoinCheck = MayJoin | UnknownFamily | AlreadyMember

  /** create_family's registry check (bot.py:221-225). */
  function CheckCreate(g: Grid, user: UserId): (r: CreateCheck)
    ensures r == MayCreate <==> !HasMember(g, user)
  {
    if HasMember(g, user) then AlreadyListed else MayCreate
  }

  /** handle_family_id's registry checks, family first (bot.py:265-274). */
  function CheckJoin(g: Grid, familyId: string, user: UserId): (r: JoinCheck)
    ensures r == MayJoin <==> HasFamily(g, familyId) && !HasMember(g, user)
    ensures r == UnknownFamily <==> !HasFamily(g, familyId)
  {
    if !HasFamily(g, familyId) then UnknownFamily
    else if HasMember(g, user) then AlreadyMember
    else MayJoin
  }

  /**
   * In a registry with one row per user, the family a user's expense goes
   * to is the only family the delete probe looks in.
   */
  lemma {:induction false} FamilyIdsAtMostOne(g: Grid, user: UserId, k: nat)
    requires RegistryOk(g) && 1 <= k <= |g|
    ensures |FamilyIdsFrom(g, user, k)| <= 1
    ensures FamilyIdsFrom(g, user, k) != [] ==> exists i :: k <= i < |g| && Field(g, i, "user_id") == Some(Str(user))
    decreases |g| - k
  {
    if k < |g| {
      FamilyIdsAtMostOne(g, user, k + 1);
      if Field(g, k, "user_id") == Some(Str(user)) {
        NoOtherRow(g, user, k, k + 1);
      }
    }
  }

  lemma {:induction false} NoOtherRow(g: Grid, user: UserId, i: nat, k: nat)
    requires RegistryOk(g) && 1 <= i < k <= |g| && Field(g, i, "user_id") == Some(Str(user))
    ensures FamilyIdsFrom(g, user, k) == []
    decreases |g| - k
  {
    if k < |g| {
      assert Field(g, k, "user_id") != Field(g, i, "user_id");
      NoOtherRow(g, user, i, k + 1);
    }
  }
}
