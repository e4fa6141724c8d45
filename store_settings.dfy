/** The store settings page: which actions are offered to the acting member, the rows
    of the team list with the "(You)" marker and remove controls, and the role tags. */
module StoreSettings {
  import opened JsUtil
  import opened Policy
  import opened Stores

  /** The three page-level controls. */
  datatype SettingsGates = SettingsGates(deleteShown: bool, addShown: bool, canRemove: bool)

  function Gates(store: Store, acting: TeamMember): SettingsGates {
    SettingsGates(
      CheckIfAuthenticatedTeamMemberCan(store, acting, DeleteStore, []),
      CheckIfAuthenticatedTeamMemberCan(store, acting, AddMember, []) ||
      CheckIfAuthenticatedTeamMemberCan(store, acting, AddManagerOnly, []),
      CheckIfAuthenticatedTeamMemberCan(store, acting, RemoverMember, []))
  }

  /** Only the owner may delete the store; owners and admins see the add button and may
      remove members; managers and id-less members see none of these. */
  lemma GatesByRole(store: Store, acting: TeamMember)
    ensures var g := Gates(store, acting);
      (g.deleteShown <==> acting.id != "" && RoleOf(store, acting.id) == Owner) &&
      (g.addShown <==> acting.id != "" && RoleOf(store, acting.id) != Manager) &&
      (g.canRemove <==> acting.id != "" && RoleOf(store, acting.id) != Manager)
  {
    PolicyTableExact(DeleteStore);
    PolicyTableExact(AddMember);
    PolicyTableExact(AddManagerOnly);
    PolicyTableExact(RemoverMember);
  }

  /** The colours of a role tag. */
  datatype RoleTag = RoleTag(background: string, textColor: string)

  /** `RoleTag`: success for the owner, warning for a manager, primary for anything else. */
  function RoleTagFor(role: Role): (t: RoleTag)
    ensures role == Owner <==> t == RoleTag("borderSuccessLowest", "textSuccess")
    ensures role == Manager <==> t == RoleTag("borderWarningLowest", "textWarning")
    ensures role == Admin <==> t == RoleTag("surfacePrimaryLowest", "textPrimary")
  {
    RoleTag(
      if role == Owner then "borderSuccessLowest" else if role == Manager then "borderWarningLowest"
      else "surfacePrimaryLowest",
      if role == Owner then "textSuccess" else if role == Manager then "textWarning" else "textPrimary")
  }

  /** Each role has a background and a text colour of its own. */
  lemma RoleTagsDistinct(a: Role, b: Role)
    requires a != b
    ensures RoleTagFor(a).background != RoleTagFor(b).background
    ensures RoleTagFor(a).textColor != RoleTagFor(b).textColor
  {
  }

  /** One row of the team list. */
  datatype MemberRow = MemberRow(member: TeamMember, role: Role, caption: string, tag: RoleTag, showRemove: bool)

  /** `member.id === user?.uid`: without a signed-in user no id matches. */
  predicate IsYou(member: TeamMember, viewerUid: Option<string>) {
    viewerUid.Some? && member.id == viewerUid.value
  }

  /** The name followed by a space and, on the viewer's own row, "(You)". An absent name
      renders as nothing. */
  function RowCaption(member: TeamMember, viewerUid: Option<string>): (s: string)
    ensures IsYou(member, viewerUid) ==> s == member.name.GetOr("") + " (You)"
    ensures !IsYou(member, viewerUid) ==> s == member.name.GetOr("") + " "
  {
    member.name.GetOr("") + " " + (if IsYou(member, viewerUid) then "(You)" else "")
  }

  function Row(member: TeamMember, role: Role, viewerUid: Option<string>, canRemove: bool): MemberRow {
    MemberRow(member, role, RowCaption(member, viewerUid), RoleTagFor(role),
              canRemove && !IsYou(member, viewerUid))
  }

  /** The rows of one bucket, in bucket order. */
  function BucketRows(members: seq<TeamMember>, role: Role, viewerUid: Option<string>, canRemove: bool)
    : (rows: seq<MemberRow>)
    ensures |rows| == |members|
    ensures forall i :: 0 <= i < |rows| ==> rows[i] == Row(members[i], role, viewerUid, canRemove)
  {
    if members == [] then []
    else [Row(members[0], role, viewerUid, canRemove)] + BucketRows(members[1..], role, viewerUid, canRemove)
  }

  /** The list: the owner first (with no remove control), then the admins, then the
      managers. */
  function MemberRows(view: TeamView, viewerUid: Option<string>, canRemove: bool): (rows: seq<MemberRow>)
    ensures |rows| == 1 + |view.admins| + |view.managers|
  {
    [Row(view.owner, Owner, viewerUid, false)] +
    BucketRows(view.admins, Admin, viewerUid, canRemove) +
    BucketRows(view.managers, Manager, viewerUid, canRemove)
  }

  /** Rows are ordered owner, admins, managers, each carrying its bucket's role. The
      "(You)" suffix marks exactly the viewer's rows. A remove control appears exactly on
      non-owner rows that are not the viewer's, when removing is allowed. */
  lemma MemberRowsLayout(view: TeamView, viewerUid: Option<string>, canRemove: bool)
    ensures var rows := MemberRows(view, viewerUid, canRemove);
      rows[0].member == view.owner && rows[0].role == Owner && !rows[0].showRemove &&
      (forall i :: 0 <= i < |view.admins| ==> rows[1 + i].member == view.admins[i] && rows[1 + i].role == Admin) &&
      (forall j :: 0 <= j < |view.managers| ==>
         rows[1 + |view.admins| + j].member == view.managers[j] && rows[1 + |view.admins| + j].role == Manager)
    ensures var rows := MemberRows(view, viewerUid, canRemove);
      forall i :: 0 <= i < |rows| ==>
        (rows[i].caption == rows[i].member.name.GetOr("") + " (You)" <==> IsYou(rows[i].member, viewerUid)) &&
        (rows[i].showRemove <==> i > 0 && canRemove && !IsYou(rows[i].member, viewerUid)) &&
        rows[i].tag == RoleTagFor(rows[i].role)
  {
    var rows := MemberRows(view, viewerUid, canRemove);
    var a := BucketRows(view.admins, Admin, viewerUid, canRemove);
    var m := BucketRows(view.managers, Manager, viewerUid, canRemove);
    assert rows == [Row(view.owner, Owner, viewerUid, false)] + a + m;
    forall i | 0 <= i < |rows|
      ensures (rows[i].caption == rows[i].member.name.GetOr("") + " (You)" <==> IsYou(rows[i].member, viewerUid)) &&
        (rows[i].showRemove <==> i > 0 && canRemove && !IsYou(rows[i].member, viewerUid)) &&
        rows[i].tag == RoleTagFor(rows[i].role)
    {
      if i == 0 {
        RowCaptionMarksViewer(view.owner, viewerUid);
      } else if i < 1 + |a| {
        assert rows[i] == a[i - 1];
        RowCaptionMarksViewer(view.admins[i - 1], viewerUid);
      } else {
        assert rows[i] == m[i - 1 - |a|];
        RowCaptionMarksViewer(view.managers[i - 1 - |a|], viewerUid);
      }
    }
  }

  /** The "(You)" suffix is present exactly on the viewer's own caption. */
  lemma RowCaptionMarksViewer(member: TeamMember, viewerUid: Option<string>)
    ensures RowCaption(member, viewerUid) == member.name.GetOr("") + " (You)" <==> IsYou(member, viewerUid)
  {
    var name := member.name.GetOr("");
    if !IsYou(member, viewerUid) {
      assert |RowCaption(member, viewerUid)| == |name| + 1;
      assert |name + " (You)"| == |name| + 6;
    }
  }

  /** A manager sees no delete action, no add button and no remove control anywhere. */
  lemma ManagerSeesNoControls(store: Store, acting: TeamMember, view: TeamView, viewerUid: Option<string>)
    requires acting.id != "" && RoleOf(store, acting.id) == Manager
    ensures var g := Gates(store, acting);
      !g.deleteShown && !g.addShown &&
      forall i :: 0 <= i < |MemberRows(view, viewerUid, g.canRemove)| ==>
        !MemberRows(view, viewerUid, g.canRemove)[i].showRemove
  {
    GatesByRole(store, acting);
    MemberRowsLayout(view, viewerUid, Gates(store, acting).canRemove);
  }
}
