/** The decision logic of the members page: the search and filter over the
    listed members, the selection kept for bulk actions, the field projection a
    staff edit goes through, and the bulk and single actions with their
    administrator guards, as calls on the members back end. */
module MembersPage {
  import opened Common
  import opened Text
  import opened Store
  import opened MembersApi

  /** The search box and the two drop-downs; an empty choice is no filter. */
  datatype Filters = Filters(search: string, status: Option<Status>, plan: string)

  const NoFilters: Filters := Filters("", None, "")

  /** The search term matches a member's name or email ignoring case, or its
      phone as typed; an empty term matches everyone. */
  predicate MatchesSearch(m: MemberInfo, term: string): (b: bool)
    ensures term == "" ==> b
    ensures b && term != "" ==> |term| <= |m.name| || |term| <= |m.email| || |term| <= |m.phone|
  {
    || term == ""
    || Contains(ToLower(m.name), ToLower(term))
    || Contains(ToLower(m.email), ToLower(term))
    || Contains(m.phone, term)
  }

  predicate Keeps(f: Filters, m: Member) {
    && MatchesSearch(m.fields, f.search)
    && (f.status.None? || m.fields.status == f.status.value)
    && (f.plan == "" || m.fields.plan == f.plan)
  }

  /** filterMembers: the members every active filter accepts. */
  function FilterMembers(ms: seq<Member>, f: Filters): (r: seq<Member>)
    ensures |r| <= |ms|
    ensures forall k :: 0 <= k < |r| ==> r[k] in ms && Keeps(f, r[k])
    ensures forall k :: 0 <= k < |r| ==> f.status.None? || r[k].fields.status == f.status.value
    ensures forall k :: 0 <= k < |r| ==> f.plan == "" || r[k].fields.plan == f.plan
    ensures forall k :: 0 <= k < |ms| && Keeps(f, ms[k]) ==> ms[k] in r
  {
    if ms == [] then []
    else if Keeps(f, ms[0]) then [ms[0]] + FilterMembers(ms[1..], f)
    else FilterMembers(ms[1..], f)
  }

  /** The filtered list keeps the members in their listed order. */
  lemma {:induction false} FilterKeepsOrder(ms: seq<Member>, f: Filters)
    ensures IsSubsequence(FilterMembers(ms, f), ms)
  {
    if ms != [] {
      FilterKeepsOrder(ms[1..], f);
      var r := FilterMembers(ms, f);
      if Keeps(f, ms[0]) {
        assert r[0] == ms[0] && r[1..] == FilterMembers(ms[1..], f);
      } else if r != [] {
        assert r[0] in r;
      }
    }
  }

  /** With no search term and no filter chosen, every member is listed. */
  lemma {:induction false} NoFiltersKeepAll(ms: seq<Member>)
    ensures FilterMembers(ms, NoFilters) == ms
  {
    if ms != [] {
      NoFiltersKeepAll(ms[1..]);
      assert Keeps(NoFilters, ms[0]);
      assert ms == [ms[0]] + ms[1..];
    }
  }

  /** Lower-casing commutes with taking a slice. */
  lemma {:induction false} ToLowerSlice(s: string, i: int, j: int)
    requires 0 <= i <= j <= |s|
    ensures ToLower(s)[i..j] == ToLower(s[i..j])
  {
  }

  /** Lower-casing both sides keeps an occurrence. */
  lemma {:induction false} ContainsLowered(s: string, term: string)
    requires Contains(s, term)
    ensures Contains(ToLower(s), ToLower(term))
  {
    var i :| 0 <= i <= |s| - |term| && OccursAt(s, term, i);
    ToLowerSlice(s, i, i + |term|);
    assert OccursAt(ToLower(s), ToLower(term), i);
  }

  /** A term typed exactly as it appears in a member's name finds that member. */
  lemma NameSubstringMatches(m: MemberInfo, term: string)
    requires Contains(m.name, term)
    ensures MatchesSearch(m, term)
  {
    ContainsLowered(m.name, term);
  }

  /** A term typed exactly as it appears in a member's email finds that member. */
  lemma EmailSubstringMatches(m: MemberInfo, term: string)
    requires Contains(m.email, term)
    ensures MatchesSearch(m, term)
  {
    ContainsLowered(m.email, term);
  }

  /** A term found in a member's phone finds that member. */
  lemma PhoneSubstringMatches(m: MemberInfo, term: string)
    requires Contains(m.phone, term)
    ensures MatchesSearch(m, term)
  {
  }

  /** On the name and the email the search ignores case: a term found there
      finds the member however its letters are cased when typed. */
  lemma {:induction false} SearchIgnoresCase(m: MemberInfo, found: string, typed: string)
    requires Contains(m.name, found) || Contains(m.email, found)
    requires ToLower(typed) == ToLower(found)
    ensures MatchesSearch(m, typed)
  {
    if Contains(m.name, found) {
      ContainsLowered(m.name, found);
    } else {
      ContainsLowered(m.email, found);
    }
  }

  /** On the phone the search is as typed: a term that differs from the phone
      only in case finds nothing there. */
  lemma PhoneMatchIsCaseSensitive()
    ensures !MatchesSearch(MemberInfo("", "", "x", "", InvalidDate, InvalidDate, NoAmount, 0.0, Active), "X")
    ensures MatchesSearch(MemberInfo("", "", "x", "", InvalidDate, InvalidDate, NoAmount, 0.0, Active), "x")
  {
    var m := MemberInfo("", "", "x", "", InvalidDate, InvalidDate, NoAmount, 0.0, Active);
    assert OccursAt(m.phone, "x", 0);
  }

  /** The selection updater: ticking appends the member, duplicates included;
      unticking removes every entry with its id and keeps the rest in order. */
  function Selection(prev: seq<Member>, m: Member, isSelected: bool): (r: seq<Member>)
    ensures isSelected ==> r == prev + [m]
    ensures !isSelected ==> IsSubsequence(r, prev)
    ensures !isSelected ==> forall k :: 0 <= k < |r| ==> r[k].id != m.id
    ensures !isSelected ==> forall k :: 0 <= k < |prev| && prev[k].id != m.id ==> prev[k] in r
  {
    if isSelected then prev + [m]
    else
      WithoutIdKeepsOrder(prev, m.id);
      WithoutIdKeepsExactlyOthers(prev, m.id);
      WithoutId(prev, m.id)
  }

  /** A member spread into an update payload: every stored key, the `amount`
      key included, so an update through it reads the due amount from that key
      again. (Its `dueAmount` key is always overwritten by the update.) */
  function PayloadOf(m: Member): (p: MemberPayload)
    ensures p.id == Some(m.id) && p.amount == m.fields.amount
    ensures p.name == Some(m.fields.name) && p.email == Some(m.fields.email)
    ensures p.phone == Some(m.fields.phone) && p.plan == Some(m.fields.plan)
    ensures p.startDate == Some(m.fields.startDate)
    ensures p.expiryDate == Some(m.fields.expiryDate) && p.status == Some(m.fields.status)
  {
    MemberPayload(Some(m.id), Some(m.fields.name), Some(m.fields.email), Some(m.fields.phone),
                  Some(m.fields.plan), Some(m.fields.startDate), Some(m.fields.expiryDate),
                  Some(m.fields.status), m.fields.amount)
  }

  /** The staff projection: the edited member overridden on the six basic
      fields, each taken from the form as it stands. */
  function StaffPayload(editing: Member, form: MemberPayload): (p: MemberPayload)
    ensures p.id == Some(editing.id) && p.status == Some(editing.fields.status)
    ensures p.amount == editing.fields.amount
    ensures p.name == form.name && p.email == form.email && p.phone == form.phone && p.plan == form.plan
    ensures p.startDate == form.startDate && p.expiryDate == form.expiryDate
  {
    PayloadOf(editing).(name := form.name, email := form.email, phone := form.phone, plan := form.plan,
                        startDate := form.startDate, expiryDate := form.expiryDate)
  }

  /** A staff edit stored over the member it started from changes only the six
      basic fields and the derived status: the id and the due amount stay, even
      when the form carries an amount, because the member's own `amount` key
      agrees with its due amount. */
  lemma {:induction false} StaffEditTouchesOnlyBasicInfo(editing: Member, form: MemberPayload, today: int)
    requires AmountConsistent(editing)
    ensures var m := Merge(editing, StaffPayload(editing, form), today);
      && m.id == editing.id
      && m.fields.dueAmount == editing.fields.dueAmount
      && m.fields.name == form.name.GetOr(editing.fields.name)
      && m.fields.expiryDate == form.expiryDate.GetOr(editing.fields.expiryDate)
      && m.fields.status == CalculateStatus(form.expiryDate.GetOr(InvalidDate), today)
  {
    var v := ParseAmount(editing.fields.amount);
    if v.Some? && v.value != 0.0 {
      assert editing.fields.dueAmount == v.value;
    }
  }

  /** A stale copy of a member, one kept in the selection or in the edit state
      from before a later change of its amount, writes its own amount back: a
      bulk status change or a staff edit through it restores the copy's due amount
      over the stored one. */
  lemma {:induction false} StaleCopyRestoresItsAmount(current: Member, copy: Member, form: MemberPayload,
                                                      status: Status, today: int)
    requires AmountConsistent(copy)
    requires ParseAmount(copy.fields.amount).Some? && ParseAmount(copy.fields.amount).value != 0.0
    ensures Merge(current, BulkPayload(copy, status), today).fields.dueAmount == copy.fields.dueAmount
    ensures Merge(current, StaffPayload(copy, form), today).fields.dueAmount == copy.fields.dueAmount
  {
    assert copy.fields.dueAmount == ParseAmount(copy.fields.amount).value;
  }

  /** The payload of a bulk status change: the selected member with the chosen status. */
  function BulkPayload(m: Member, status: Status): (p: MemberPayload)
    ensures p == PayloadOf(m).(status := Some(status))
  {
    PayloadOf(m).(status := Some(status))
  }

  /** The collection after updating each target in turn, and the error that
      stopped the run, if one did. */
  function BulkUpdated(s: seq<Member>, targets: seq<Member>, status: Status, today: int): (r: (seq<Member>, Option<ApiError>))
    ensures |r.0| == |s|
    decreases |targets|
  {
    if targets == [] then (s, None)
    else
      match UpdateIn(s, targets[0].id, BulkPayload(targets[0], status), today)
      case Err(e) => (s, Some(e))
      case Ok((s', _)) => BulkUpdated(s', targets[1..], status, today)
  }

  /** The collection after deleting each target in turn, and the error that
      stopped the run, if one did. */
  function BulkDeleted(s: seq<Member>, targets: seq<Member>): (r: (seq<Member>, Option<ApiError>))
    ensures |r.0| <= |s|
    decreases |targets|
  {
    if targets == [] then (s, None)
    else
      match DeleteIn(s, targets[0].id)
      case Err(e) => (s, Some(e))
      case Ok((s', _)) => BulkDeleted(s', targets[1..])
  }

  /** The status chosen for a bulk change makes no difference to what is stored:
      the back end derives every status from the expiry date. */
  lemma {:induction false} BulkStatusIsIrrelevant(s: seq<Member>, targets: seq<Member>, a: Status, b: Status, today: int)
    ensures BulkUpdated(s, targets, a, today) == BulkUpdated(s, targets, b, today)
    decreases |targets|
  {
    if targets != [] {
      var p := PayloadOf(targets[0]);
      match FindIndex(s, targets[0].id)
      case None =>
      case Some(i) =>
        PayloadStatusIsDiscarded(s[i], s, p.(status := None), a, today);
        PayloadStatusIsDiscarded(s[i], s, p.(status := None), b, today);
        assert p.(status := None).(status := Some(a)) == BulkPayload(targets[0], a);
        assert p.(status := None).(status := Some(b)) == BulkPayload(targets[0], b);
        var s' := UpdateIn(s, targets[0].id, BulkPayload(targets[0], a), today).value.0;
        BulkStatusIsIrrelevant(s', targets[1..], a, b, today);
    }
  }

  function IdsOf(s: seq<Member>): (ids: seq<int>)
    ensures |ids| == |s| && forall k :: 0 <= k < |s| ==> ids[k] == s[k].id
  {
    seq(|s|, k requires 0 <= k < |s| => s[k].id)
  }

  /** Updating a member through its own spread keeps every id where it was. */
  lemma {:induction false} UpdateKeepsIds(s: seq<Member>, m: Member, status: Status, today: int)
    requires UpdateIn(s, m.id, BulkPayload(m, status), today).Ok?
    ensures IdsOf(UpdateIn(s, m.id, BulkPayload(m, status), today).value.0) == IdsOf(s)
  {
    var s' := UpdateIn(s, m.id, BulkPayload(m, status), today).value.0;
    var i := FindIndex(s, m.id).value;
    assert s'[i].id == m.id == s[i].id;
  }

  /** A bulk status change runs to the end exactly when every target's id is
      in the collection; ids are never changed along the way. */
  lemma {:induction false} BulkUpdateSucceedsIffAllPresent(s: seq<Member>, targets: seq<Member>, status: Status, today: int)
    ensures IdsOf(BulkUpdated(s, targets, status, today).0) == IdsOf(s)
    ensures BulkUpdated(s, targets, status, today).1.None? <==>
      forall j :: 0 <= j < |targets| ==> targets[j].id in IdsOf(s)
    decreases |targets|
  {
    if targets != [] {
      var t := targets[0];
      var u := UpdateIn(s, t.id, BulkPayload(t, status), today);
      if u.Err? {
        assert t.id !in IdsOf(s);
      } else {
        UpdateKeepsIds(s, t, status, today);
        BulkUpdateSucceedsIffAllPresent(u.value.0, targets[1..], status, today);
        var i := FindIndex(s, t.id).value;
        assert IdsOf(s)[i] == t.id;
        assert forall j :: 1 <= j < |targets| ==> targets[j] == targets[1..][j - 1];
      }
    }
  }

  /** After a bulk delete that ran to the end, none of the targets' ids remains. */
  lemma {:induction false} BulkDeleteRemovesAllTargets(s: seq<Member>, targets: seq<Member>)
    requires BulkDeleted(s, targets).1.None?
    ensures forall j, k :: 0 <= j < |targets| && 0 <= k < |BulkDeleted(s, targets).0| ==>
      BulkDeleted(s, targets).0[k].id != targets[j].id
    decreases |targets|
  {
    if targets != [] {
      var s' := DeleteIn(s, targets[0].id).value.0;
      BulkDeleteRemovesAllTargets(s', targets[1..]);
      var r := BulkDeleted(s, targets).0;
      BulkDeletedShrinksWithin(s', targets[1..]);
      forall j, k | 0 <= j < |targets| && 0 <= k < |r| ensures r[k].id != targets[j].id {
        if j > 0 {
          assert targets[j] == targets[1..][j - 1];
        } else {
          assert r[k] in s';
        }
      }
    }
  }

  /** Whatever a bulk delete leaves was already there. */
  lemma {:induction false} BulkDeletedShrinksWithin(s: seq<Member>, targets: seq<Member>)
    ensures forall k :: 0 <= k < |BulkDeleted(s, targets).0| ==> BulkDeleted(s, targets).0[k] in s
    decreases |targets|
  {
    if targets != [] {
      var d := DeleteIn(s, targets[0].id);
      if d.Ok? {
        BulkDeletedShrinksWithin(d.value.0, targets[1..]);
      }
    }
  }

  /** The selection does not de-duplicate, so a member ticked twice makes the
      bulk delete fail on its second copy, after the first copy was deleted. */
  lemma {:induction false} DuplicateSelectionFailsBulkDelete(s: seq<Member>, m: Member)
    requires exists k :: 0 <= k < |s| && s[k].id == m.id
    ensures BulkDeleted(s, [m, m]).1 == Some(NotFound)
    ensures forall k :: 0 <= k < |BulkDeleted(s, [m, m]).0| ==> BulkDeleted(s, [m, m]).0[k].id != m.id
  {
    var s' := DeleteIn(s, m.id).value.0;
    assert [m, m][1..] == [m];
    assert [m][1..] == [];
  }

  datatype Outcome = Done | Denied(message: string) | Declined | Failed(error: ApiError)

  const AddDenied: string := "Only administrators can add new members"
  const DeleteDenied: string := "Only administrators can delete members"

  /** The page's state that the modelled handlers touch, over the members back end. */
  class MembersScreen {
    var selected: seq<Member>
    const api: MemberRepository
    /** isAdmin() of the signed-in user. */
    const admin: bool

    constructor (repo: MemberRepository, isAdmin: bool)
      ensures selected == [] && api == repo && admin == isAdmin
    {
      selected := [];
      api := repo;
      admin := isAdmin;
    }

    /** handleSelectionChange. */
    method SelectionChange(m: Member, isSelected: bool)
      modifies this`selected
      ensures selected == Selection(old(selected), m, isSelected)
    {
      selected := Selection(selected, m, isSelected);
    }

    /** The loop of handleBulkUpdate: one updateMember call per target, in
        order, stopping at the first failure. */
    method UpdateEach(targets: seq<Member>, status: Status, today: int) returns (err: Option<ApiError>)
      modifies api
      ensures (api.Current(), err) == BulkUpdated(old(api.Current()), targets, status, today)
    {
      var k := 0;
      while k < |targets|
        invariant 0 <= k <= |targets|
        invariant BulkUpdated(old(api.Current()), targets, status, today)
               == BulkUpdated(api.Current(), targets[k..], status, today)
      {
        ghost var before := api.Current();
        assert targets[k..][1..] == targets[k + 1..];
        var u := api.UpdateMember(targets[k].id, BulkPayload(targets[k], status), today);
        if u.Err? {
          assert BulkUpdated(before, targets[k..], status, today) == (before, Some(NotFound));
          return Some(u.error);
        }
        assert api.Current() == UpdateIn(before, targets[k].id, BulkPayload(targets[k], status), today).value.0;
        assert BulkUpdated(before, targets[k..], status, today) == BulkUpdated(api.Current(), targets[k + 1..], status, today);
        k := k + 1;
      }
      err := None;
    }

    /** handleBulkUpdate: update each target in order with its own fields and the
        chosen status, stopping at the first failure; after a full run, reload the
        list and clear the selection. The reload's own failure is absorbed. */
    method BulkUpdate(targets: seq<Member>, status: Status, today: int, reloadFault: bool) returns (r: Outcome)
      modifies this`selected, api
      ensures var (s', err) := BulkUpdated(old(api.Current()), targets, status, today);
        && api.Current() == s'
        && (err.None? ==> r == Done && selected == [])
        && (err.Some? ==> r == Failed(err.value) && selected == old(selected))
    {
      var err := UpdateEach(targets, status, today);
      if err.Some? {
        return Failed(err.value);
      }
      var _ := api.GetMembers(reloadFault);
      selected := [];
      r := Done;
    }

    /** The loop of handleBulkDelete: one deleteMember call per target, in
        order, stopping at the first failure. */
    method DeleteEach(targets: seq<Member>) returns (err: Option<ApiError>)
      modifies api
      ensures (api.Current(), err) == BulkDeleted(old(api.Current()), targets)
    {
      var k := 0;
      while k < |targets|
        invariant 0 <= k <= |targets|
        invariant BulkDeleted(old(api.Current()), targets) == BulkDeleted(api.Current(), targets[k..])
      {
        ghost var before := api.Current();
        assert targets[k..][1..] == targets[k + 1..];
        var d := api.DeleteMember(targets[k].id);
        if d.Err? {
          assert BulkDeleted(before, targets[k..]) == (before, Some(NotFound));
          return Some(d.error);
        }
        assert api.Current() == DeleteIn(before, targets[k].id).value.0;
        assert BulkDeleted(before, targets[k..]) == BulkDeleted(api.Current(), targets[k + 1..]);
        k := k + 1;
      }
      err := None;
    }

    /** handleBulkDelete: refused for a non-administrator and dropped unless
        confirmed, with no call made; otherwise delete each target in order,
        stopping at the first failure, then reload and clear the selection. */
    method BulkDelete(targets: seq<Member>, confirmed: bool, reloadFault: bool) returns (r: Outcome)
      modifies this`selected, api
      ensures !admin ==> r == Denied(DeleteDenied) && unchanged(api) && selected == old(selected)
      ensures admin && !confirmed ==> r == Declined && unchanged(api) && selected == old(selected)
      ensures admin && confirmed ==> var (s', err) := BulkDeleted(old(api.Current()), targets);
        && api.Current() == s'
        && (err.None? ==> r == Done && selected == [])
        && (err.Some? ==> r == Failed(err.value) && selected == old(selected))
    {
      if !admin {
        return Denied(DeleteDenied);
      }
      if !confirmed {
        return Declined;
      }
      var err := DeleteEach(targets);
      if err.Some? {
        return Failed(err.value);
      }
      var _ := api.GetMembers(reloadFault);
      selected := [];
      r := Done;
    }

    /** handleAddMember: refused for a non-administrator with no call made. */
    method AddMember(form: MemberPayload, today: int) returns (r: Outcome)
      modifies api
      ensures !admin ==> r == Denied(AddDenied) && unchanged(api)
      ensures admin ==> r == Done && api.Current() == old(api.Current()) + [NewMember(old(api.Current()), form, today)]
    {
      if !admin {
        return Denied(AddDenied);
      }
      var _ := api.AddMember(form, today);
      r := Done;
    }

    /** handleUpdateMember: an administrator's form goes through as it is; a
        staff member's goes through the staff projection over the edited member. */
    method UpdateMember(editing: Member, form: MemberPayload, today: int) returns (r: Outcome)
      modifies api
      ensures var p := if admin then form else StaffPayload(editing, form);
        match UpdateIn(old(api.Current()), editing.id, p, today)
        case Err(e) => r == Failed(e) && api.Current() == old(api.Current())
        case Ok((s', _)) => r == Done && api.Current() == s'
    {
      var p := if admin then form else StaffPayload(editing, form);
      var u := api.UpdateMember(editing.id, p, today);
      if u.Err? {
        return Failed(u.error);
      }
      r := Done;
    }

    /** handleDeleteMember: refused for a non-administrator and dropped unless
        confirmed, with no call made. */
    method DeleteMember(m: Member, confirmed: bool) returns (r: Outcome)
      modifies api
      ensures !admin ==> r == Denied(DeleteDenied) && unchanged(api)
      ensures admin && !confirmed ==> r == Declined && unchanged(api)
      ensures admin && confirmed ==>
        match DeleteIn(old(api.Current()), m.id)
        case Err(e) => r == Failed(e) && api.Current() == old(api.Current())
        case Ok((s', _)) => r == Done && api.Current() == s'
    {
      if !admin {
        return Denied(DeleteDenied);
      }
      if !confirmed {
        return Declined;
      }
      var d := api.DeleteMember(m.id);
      if d.Err? {
        return Failed(d.error);
      }
      r := Done;
    }
  }
}
