/** The simulated members back end: a collection persisted under the
    `gym_members_data` storage key, with a four-member seed when the key is
    missing or unreadable, and a status derived from each member's expiry date. */
module MembersApi {
  import opened Common
  import opened Store

  datatype Status = Active | Pending | Expired

  /** The `amount` key of a record or a payload: absent (or undefined), or present
      as text that `parseFloat` reads as a number, or as NaN (`None`). */
  datatype AmountKey = NoAmount | AmountText(parsed: Option<real>)

  /** `parseFloat(amount)`: NaN (`None`) when the key is absent. */
  function ParseAmount(a: AmountKey): (v: Option<real>)
    ensures a.NoAmount? ==> v.None?
    ensures v.Some? ==> a == AmountText(v)
  {
    match a
    case NoAmount => None
    case AmountText(v) => v
  }

  /** Every field of a stored member except its id. Dates are the instants their
      ISO strings denote. */
  datatype MemberInfo = MemberInfo(
    name: string,
    email: string,
    phone: string,
    plan: string,
    startDate: Instant,
    expiryDate: Instant,
    amount: AmountKey,
    dueAmount: real,
    status: Status)

  type Member = Keyed<MemberInfo>

  /** The object handed to addMember/updateMember: a field is None when the key
      is absent or undefined. */
  datatype MemberPayload = MemberPayload(
    id: Option<int>,
    name: Option<string>,
    email: Option<string>,
    phone: Option<string>,
    plan: Option<string>,
    startDate: Option<Instant>,
    expiryDate: Option<Instant>,
    status: Option<Status>,
    amount: AmountKey)

  const NotFound: ApiError := ApiError("Member not found", None)
  const FetchFailed: ApiError := ApiError("Network error: Failed to fetch members", None)

  /** A member whose expiry is less than this far ahead is Pending. */
  const PendingWindowMs: int := 7 * DayMs

  /** calculateStatus: Expired once the expiry has passed, Pending within the
      week before it (the expiry instant itself included), Active otherwise. An
      invalid date compares false both ways and so is Active. */
  function CalculateStatus(expiry: Instant, today: int): (s: Status)
    ensures s == Expired <==> expiry.At? && expiry.ms < today
    ensures s == Pending <==> expiry.At? && today <= expiry.ms < today + PendingWindowMs
    ensures s == Active <==> expiry.InvalidDate? || today + PendingWindowMs <= expiry.ms
  {
    if expiry.At? && expiry.ms < today then Expired
    else if expiry.At? && expiry.ms - today < PendingWindowMs then Pending
    else Active
  }

  /** How far along its life a membership is. */
  function Stage(s: Status): nat {
    match s
    case Active => 0
    case Pending => 1
    case Expired => 2
  }

  /** As time passes, a member's derived status only moves forward:
      Active, then Pending, then Expired. */
  lemma StatusOnlyAdvances(expiry: Instant, earlier: int, later: int)
    requires earlier <= later
    ensures Stage(CalculateStatus(expiry, earlier)) <= Stage(CalculateStatus(expiry, later))
  {
  }

  /** `parseFloat(x) || fallback`: NaN and zero both fall back. */
  function AmountOr(parsed: Option<real>, fallback: real): (r: real)
    ensures parsed.Some? && parsed.value != 0.0 ==> r == parsed.value
    ensures parsed.None? || parsed.value == 0.0 ==> r == fallback
  {
    if parsed.Some? && parsed.value != 0.0 then parsed.value else fallback
  }

  /** A stored member whose `amount` key, read the way updateMember reads it with
      the due amount as fallback, gives back its due amount. */
  predicate AmountConsistent(m: Member) {
    AmountOr(ParseAmount(m.fields.amount), m.fields.dueAmount) == m.fields.dueAmount
  }

  predicate AmountsConsistent(s: seq<Member>) {
    forall k :: 0 <= k < |s| ==> AmountConsistent(s[k])
  }

  const SeedMembers: seq<Member> := [
    Keyed(1, MemberInfo("John Smith", "john.smith@email.com", "+1 (555) 123-4567", "Premium",
                        At(1705276800000), At(1707955200000), NoAmount, 0.0, Active)),
    Keyed(2, MemberInfo("Sarah Johnson", "sarah.j@email.com", "+1 (555) 987-6543", "Basic",
                        At(1704844800000), At(1707523200000), NoAmount, 50.0, Pending)),
    Keyed(3, MemberInfo("Mike Wilson", "mike.wilson@email.com", "+1 (555) 456-7890", "Premium",
                        At(1703030400000), At(1705708800000), NoAmount, 0.0, Expired)),
    Keyed(4, MemberInfo("Emily Davis", "emily.davis@email.com", "+1 (555) 234-5678", "Standard",
                        At(1704412800000), At(1707091200000), NoAmount, 25.0, Active))
  ]

  /** getStoredMembers: the stored collection, or the seed when the key is missing,
      empty or not parseable (all three are `None` here). */
  function Load(cell: Option<seq<Member>>): (r: seq<Member>)
    ensures cell.None? ==> r == SeedMembers && |r| == 4
    ensures cell.Some? ==> r == cell.value
  {
    cell.GetOr(SeedMembers)
  }

  lemma SeedIdsAreOneToFour()
    ensures |SeedMembers| == 4 && forall k :: 0 <= k < 4 ==> SeedMembers[k].id == k + 1
    ensures UniqueIds(SeedMembers) && NextId(SeedMembers) == 5
    ensures AmountsConsistent(SeedMembers)
  {
  }

  /** The member addMember builds from a payload, against the collection `s` it reloaded. */
  function NewMember(s: seq<Member>, p: MemberPayload, today: int): (m: Member)
    ensures p.id.None? ==> forall k :: 0 <= k < |s| ==> s[k].id < m.id
    ensures p.id.None? && s == [] ==> m.id == 1
    ensures m.fields.status == CalculateStatus(p.expiryDate.GetOr(InvalidDate), today)
    ensures p.id.Some? ==> m.id == p.id.value
    ensures p.name.Some? ==> m.fields.name == p.name.value
    ensures p.email.Some? ==> m.fields.email == p.email.value
    ensures p.phone.Some? ==> m.fields.phone == p.phone.value
    ensures p.plan.Some? ==> m.fields.plan == p.plan.value
    ensures p.startDate.Some? ==> m.fields.startDate == p.startDate.value
    ensures p.expiryDate.Some? ==> m.fields.expiryDate == p.expiryDate.value
    ensures m.fields.amount == p.amount
    ensures var v := ParseAmount(p.amount); v.Some? && v.value != 0.0 ==> m.fields.dueAmount == v.value
    ensures var v := ParseAmount(p.amount); v.None? || v.value == 0.0 ==> m.fields.dueAmount == 0.0
    ensures AmountConsistent(m)
  {
    Keyed(
      p.id.GetOr(NextId(s)),
      MemberInfo(
        p.name.GetOr(""), p.email.GetOr(""), p.phone.GetOr(""), p.plan.GetOr(""),
        p.startDate.GetOr(InvalidDate), p.expiryDate.GetOr(InvalidDate),
        p.amount, AmountOr(ParseAmount(p.amount), 0.0),
        CalculateStatus(p.expiryDate.GetOr(InvalidDate), today)))
  }

  /** The member updateMember stores: the payload's fields over the old ones
      (its `amount` key included), the status derived from the payload's expiry
      date alone, and the old due amount unless the payload's amount parses to a
      non-zero number. */
  function Merge(prev: Member, p: MemberPayload, today: int): (m: Member)
    ensures m.fields.status == CalculateStatus(p.expiryDate.GetOr(InvalidDate), today)
    ensures m.fields.amount == if p.amount.NoAmount? then prev.fields.amount else p.amount
    ensures var v := ParseAmount(p.amount); v.Some? && v.value != 0.0 ==> m.fields.dueAmount == v.value
    ensures var v := ParseAmount(p.amount); v.None? || v.value == 0.0 ==> m.fields.dueAmount == prev.fields.dueAmount
    ensures p.id.Some? ==> m.id == p.id.value
    ensures p.id.None? ==> m.id == prev.id
    ensures p.name.Some? ==> m.fields.name == p.name.value
    ensures p.name.None? ==> m.fields.name == prev.fields.name
    ensures p.email.Some? ==> m.fields.email == p.email.value
    ensures p.email.None? ==> m.fields.email == prev.fields.email
    ensures p.phone.Some? ==> m.fields.phone == p.phone.value
    ensures p.phone.None? ==> m.fields.phone == prev.fields.phone
    ensures p.plan.Some? ==> m.fields.plan == p.plan.value
    ensures p.plan.None? ==> m.fields.plan == prev.fields.plan
    ensures p.startDate.Some? ==> m.fields.startDate == p.startDate.value
    ensures p.startDate.None? ==> m.fields.startDate == prev.fields.startDate
    ensures p.expiryDate.Some? ==> m.fields.expiryDate == p.expiryDate.value
    ensures p.expiryDate.None? ==> m.fields.expiryDate == prev.fields.expiryDate && m.fields.status == Active
  {
    Keyed(
      p.id.GetOr(prev.id),
      MemberInfo(
        p.name.GetOr(prev.fields.name), p.email.GetOr(prev.fields.email),
        p.phone.GetOr(prev.fields.phone), p.plan.GetOr(prev.fields.plan),
        p.startDate.GetOr(prev.fields.startDate), p.expiryDate.GetOr(prev.fields.expiryDate),
        if p.amount.NoAmount? then prev.fields.amount else p.amount,
        AmountOr(ParseAmount(p.amount), prev.fields.dueAmount),
        CalculateStatus(p.expiryDate.GetOr(InvalidDate), today)))
  }

  /** A merge keeps a member's `amount` key in agreement with its due amount:
      either the payload brings a non-zero amount, which becomes both, or the
      due amount is kept and the key read back gives it again. */
  lemma MergeKeepsAmountConsistent(prev: Member, p: MemberPayload, today: int)
    requires AmountConsistent(prev)
    ensures AmountConsistent(Merge(prev, p, today))
  {
  }

  /** A status carried by an update payload never reaches the store. */
  lemma PayloadStatusIsDiscarded(prev: Member, ms: seq<Member>, p: MemberPayload, s: Status, today: int)
    ensures Merge(prev, p.(status := Some(s)), today) == Merge(prev, p.(status := None), today)
    ensures NewMember(ms, p.(status := Some(s)), today) == NewMember(ms, p.(status := None), today)
  {
  }

  /** updateMember on the collection `s`: NotFound when no member has `id`;
      otherwise the first member with `id` is replaced by its merge, in place. */
  function UpdateIn(s: seq<Member>, id: int, p: MemberPayload, today: int): (r: Result<(seq<Member>, Member), ApiError>)
    ensures r.Err? <==> forall k :: 0 <= k < |s| ==> s[k].id != id
    ensures r.Err? ==> r.error == NotFound
    ensures r.Ok? ==> FindIndex(s, id).Some? && var i := FindIndex(s, id).value;
      && |r.value.0| == |s|
      && r.value.1 == Merge(s[i], p, today)
      && r.value.0[i] == r.value.1
      && forall k :: 0 <= k < |s| && k != i ==> r.value.0[k] == s[k]
  {
    match FindIndex(s, id)
    case None => Err(NotFound)
    case Some(i) =>
      var m := Merge(s[i], p, today);
      Ok((s[i := m], m))
  }

  /** deleteMember on the collection `s`: NotFound when no member has `id`;
      otherwise the first member with `id` is returned and every member with
      that id is filtered out, the others keeping their order. */
  function DeleteIn(s: seq<Member>, id: int): (r: Result<(seq<Member>, Member), ApiError>)
    ensures r.Err? <==> forall k :: 0 <= k < |s| ==> s[k].id != id
    ensures r.Err? ==> r.error == NotFound
    ensures r.Ok? ==> FindIndex(s, id).Some? && r.value.1 == s[FindIndex(s, id).value]
    ensures r.Ok? ==> r.value.1 in s && r.value.1.id == id && |r.value.0| < |s|
    ensures r.Ok? ==> r.value.0 == WithoutId(s, id)
    ensures r.Ok? ==> forall k :: 0 <= k < |r.value.0| ==> r.value.0[k].id != id && r.value.0[k] in s
    ensures r.Ok? ==> forall k :: 0 <= k < |s| && s[k].id != id ==> s[k] in r.value.0
  {
    match FindIndex(s, id)
    case None => Err(NotFound)
    case Some(i) =>
      WithoutPresentIdShrinks(s, id, i);
      WithoutIdKeepsExactlyOthers(s, id);
      Ok((WithoutId(s, id), s[i]))
  }

  /** A successful delete keeps the remaining members in their order. */
  lemma DeleteInKeepsOrder(s: seq<Member>, id: int)
    ensures DeleteIn(s, id).Ok? ==> IsSubsequence(DeleteIn(s, id).value.0, s)
  {
    WithoutIdKeepsOrder(s, id);
  }

  /** Adding a payload without an id keeps ids unique. */
  lemma AddKeepsIdsUnique(s: seq<Member>, p: MemberPayload, today: int)
    requires UniqueIds(s) && p.id.None?
    ensures UniqueIds(s + [NewMember(s, p, today)])
  {
    AppendFreshKeepsUnique(s, NewMember(s, p, today));
  }

  /** Updating with a payload that does not carry a different id keeps ids unique. */
  lemma {:induction false} UpdateKeepsIdsUnique(s: seq<Member>, id: int, p: MemberPayload, today: int)
    requires UniqueIds(s) && (p.id.None? || p.id == Some(id))
    requires UpdateIn(s, id, p, today).Ok?
    ensures UniqueIds(UpdateIn(s, id, p, today).value.0)
  {
    var s' := UpdateIn(s, id, p, today).value.0;
    var i := FindIndex(s, id).value;
    assert s'[i].id == s[i].id;
    forall a, b | 0 <= a < b < |s'| ensures s'[a].id != s'[b].id {
      assert s'[a].id == s[a].id && s'[b].id == s[b].id;
    }
  }

  lemma DeleteKeepsIdsUnique(s: seq<Member>, id: int)
    requires UniqueIds(s) && DeleteIn(s, id).Ok?
    ensures UniqueIds(DeleteIn(s, id).value.0)
  {
    WithoutIdKeepsUnique(s, id);
  }

  /** Adding, updating and deleting all keep every stored member's `amount` key
      in agreement with its due amount, so a member spread back into a payload
      leaves its own due amount as it is. */
  lemma {:induction false} OperationsKeepAmountsConsistent(s: seq<Member>, id: int, p: MemberPayload, today: int)
    requires AmountsConsistent(s)
    ensures AmountsConsistent(s + [NewMember(s, p, today)])
    ensures UpdateIn(s, id, p, today).Ok? ==> AmountsConsistent(UpdateIn(s, id, p, today).value.0)
    ensures DeleteIn(s, id).Ok? ==> AmountsConsistent(DeleteIn(s, id).value.0)
  {
    var t := s + [NewMember(s, p, today)];
    assert forall k :: 0 <= k < |s| ==> t[k] == s[k];
    if DeleteIn(s, id).Ok? {
      var d := DeleteIn(s, id).value.0;
      forall k | 0 <= k < |d| ensures AmountConsistent(d[k]) {
        assert d[k] in s;
      }
    }
  }

  /** The collection after addMember is called once per payload, in order. */
  function AddAll(s: seq<Member>, ps: seq<MemberPayload>, today: int): seq<Member>
    decreases |ps|
  {
    if ps == [] then s else AddAll(s + [NewMember(s, ps[0], today)], ps[1..], today)
  }

  lemma NextIdAfterFreshAppend(s: seq<Member>, m: Member)
    requires m.id == NextId(s)
    ensures NextId(s + [m]) == m.id + 1
  {
    var t := s + [m];
    assert t[|s|] == m;
    forall k | 0 <= k < |t| ensures t[k].id <= m.id {
      if k < |s| {
        assert t[k] == s[k];
      }
    }
  }

  /** Creating members one after another, none carrying an id, numbers them
      consecutively from the collection's next id: from an empty store, 1..N. */
  lemma {:induction false} SuccessiveAddsNumberConsecutively(s: seq<Member>, ps: seq<MemberPayload>, today: int)
    requires forall k :: 0 <= k < |ps| ==> ps[k].id.None?
    ensures |AddAll(s, ps, today)| == |s| + |ps|
    ensures AddAll(s, ps, today)[..|s|] == s
    ensures forall j :: |s| <= j < |s| + |ps| ==> AddAll(s, ps, today)[j].id == NextId(s) + (j - |s|)
    decreases |ps|
  {
    if ps != [] {
      var m := NewMember(s, ps[0], today);
      var s1 := s + [m];
      NextIdAfterFreshAppend(s, m);
      SuccessiveAddsNumberConsecutively(s1, ps[1..], today);
      var r := AddAll(s, ps, today);
      assert r == AddAll(s1, ps[1..], today);
      assert r[..|s|] == r[..|s1|][..|s|];
      forall j | |s| <= j < |s| + |ps| ensures r[j].id == NextId(s) + (j - |s|) {
        if j == |s| {
          assert r[|s|] == r[..|s1|][|s|] == m;
        }
      }
    }
  }

  /** The members back end: `stored` is the storage key, `cache` the module's
      `simulatedMembers` variable, which every call reloads from the key. */
  class MemberRepository {
    var stored: Option<seq<Member>>
    var cache: seq<Member>

    constructor (initial: Option<seq<Member>>)
      ensures stored == initial && cache == Load(initial)
    {
      stored := initial;
      cache := Load(initial);
    }

    /** The collection the next call will work on. */
    function Current(): seq<Member>
      reads this
    {
      Load(stored)
    }

    /** getMembers: reload, then fail when the injected fault fires (the source
        draws it at random, one call in ten), else answer a copy of the collection. */
    method GetMembers(fault: bool) returns (r: Result<Envelope<seq<Member>>, ApiError>)
      modifies this
      ensures stored == old(stored) && cache == old(Current())
      ensures fault ==> r == Err(FetchFailed)
      ensures !fault ==> r == Ok(Envelope(true, cache, "Members fetched successfully"))
    {
      cache := Load(stored);
      if fault {
        return Err(FetchFailed);
      }
      r := Ok(Envelope(true, cache, "Members fetched successfully"));
    }

    /** addMember: append the new member at the end and persist. */
    method AddMember(p: MemberPayload, today: int) returns (r: Envelope<Member>)
      modifies this
      ensures r == Envelope(true, NewMember(old(Current()), p, today), "Member added successfully")
      ensures cache == old(Current()) + [r.data] && stored == Some(cache)
    {
      cache := Load(stored);
      var m := NewMember(cache, p, today);
      cache := cache + [m];
      stored := Some(cache);
      r := Envelope(true, m, "Member added successfully");
    }

    /** updateMember: replace the found member in place and persist, or fail
        with NotFound leaving the stored collection as it was. */
    method UpdateMember(id: int, p: MemberPayload, today: int) returns (r: Result<Envelope<Member>, ApiError>)
      modifies this
      ensures UpdateIn(old(Current()), id, p, today).Err? ==>
        r == Err(NotFound) && stored == old(stored) && cache == old(Current())
      ensures UpdateIn(old(Current()), id, p, today).Ok? ==>
        var (s', m) := UpdateIn(old(Current()), id, p, today).value;
        r == Ok(Envelope(true, m, "Member updated successfully")) && cache == s' && stored == Some(s')
    {
      cache := Load(stored);
      var i := FindIndex(cache, id);
      if i.None? {
        return Err(NotFound);
      }
      var m := Merge(cache[i.value], p, today);
      cache := cache[i.value := m];
      stored := Some(cache);
      r := Ok(Envelope(true, m, "Member updated successfully"));
    }

    /** deleteMember: filter the id out and persist, answering the removed
        member, or fail with NotFound leaving the stored collection as it was. */
    method DeleteMember(id: int) returns (r: Result<Envelope<Member>, ApiError>)
      modifies this
      ensures DeleteIn(old(Current()), id).Err? ==>
        r == Err(NotFound) && stored == old(stored) && cache == old(Current())
      ensures DeleteIn(old(Current()), id).Ok? ==>
        var (s', m) := DeleteIn(old(Current()), id).value;
        r == Ok(Envelope(true, m, "Member deleted successfully")) && cache == s' && stored == Some(s')
    {
      cache := Load(stored);
      var i := FindIndex(cache, id);
      if i.None? {
        return Err(NotFound);
      }
      var m := cache[i.value];
      cache := WithoutId(cache, id);
      stored := Some(cache);
      r := Ok(Envelope(true, m, "Member deleted successfully"));
    }

    /** getMember: the first member with `id`, or NotFound. */
    method GetMember(id: int) returns (r: Result<Envelope<Member>, ApiError>)
      modifies this
      ensures stored == old(stored) && cache == old(Current())
      ensures (forall k :: 0 <= k < |cache| ==> cache[k].id != id) <==> r == Err(NotFound)
      ensures r.Ok? ==> r.value.success && r.value.data in cache && r.value.data.id == id
      ensures r.Ok? ==> FindIndex(cache, id).Some? && r.value.data == cache[FindIndex(cache, id).value]
    {
      cache := Load(stored);
      var i := FindIndex(cache, id);
      if i.None? {
        return Err(NotFound);
      }
      r := Ok(Envelope(true, cache[i.value], "Member fetched successfully"));
    }

    /** clearData: drop the key; the reload then yields the seed. */
    method ClearData() returns (r: Ack)
      modifies this
      ensures stored.None? && cache == SeedMembers && Current() == SeedMembers
      ensures r == Ack(true, "Data cleared successfully")
    {
      stored := None;
      cache := Load(stored);
      r := Ack(true, "Data cleared successfully");
    }
  }

  /** Whatever was added before, clearing and then listing answers exactly the seed. */
  method AddClearList(repo: MemberRepository, p: MemberPayload, today: int) returns (listed: seq<Member>)
    modifies repo
    ensures listed == SeedMembers
  {
    var _ := repo.AddMember(p, today);
    var _ := repo.ClearData();
    var r := repo.GetMembers(false);
    listed := r.value.data;
  }
}
