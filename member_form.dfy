/** The member form's two helpers: which inputs a staff member may not touch,
    and the expiry date suggested thirty days after a chosen start date. */
module MemberForm {
  import opened Common
  import opened MembersApi

  /** The inputs a staff member may edit; every other input is locked for staff. */
  const StaffEditableFields: seq<string> := ["name", "email", "phone", "plan", "startDate", "expiryDate"]

  /** isFieldDisabled: nothing is locked for an administrator; for staff, exactly
      the inputs outside the editable list. */
  function IsFieldDisabled(isAdmin: bool, field: string): (locked: bool)
    ensures isAdmin ==> !locked
    ensures !isAdmin ==> (locked <==> field !in StaffEditableFields)
  {
    if isAdmin then false else field !in StaffEditableFields
  }

  /** The amount input is open to an administrator and locked for staff, while
      every basic-information input is open to both. */
  lemma {:induction false} AmountIsAdminOnly()
    ensures IsFieldDisabled(false, "amount") && !IsFieldDisabled(true, "amount")
    ensures forall i :: 0 <= i < |StaffEditableFields| ==>
      !IsFieldDisabled(false, StaffEditableFields[i]) && !IsFieldDisabled(true, StaffEditableFields[i])
  {
    assert "amount" != "name" && "amount" != "email" && "amount" != "phone";
    assert "amount" != "plan" && "amount" != "startDate" && "amount" != "expiryDate";
  }

  /** The largest distance from the epoch a JavaScript date can hold. */
  const MaxTimeMs: int := 8640000000000000

  /** The message of the RangeError `toISOString` throws on an invalid date. */
  const InvalidTimeValue: string := "Invalid time value"

  /** The day part of an instant's ISO string, as the instant of that UTC midnight. */
  function UtcDay(ms: int): (day: int)
    ensures day % DayMs == 0 && day <= ms < day + DayMs
  {
    (ms / DayMs) * DayMs
  }

  /** calculateExpiryDate, in universal time. None is the empty start date and
      gives the empty answer; a start date that is not a date, or a result
      beyond the representable range, throws; otherwise the answer is the UTC
      day thirty days after the start. */
  function CalculateExpiryDate(start: Option<Instant>): (r: Result<Option<int>, string>)
    ensures start.None? <==> r == Ok(None)
    ensures start == Some(InvalidDate) ==> r == Err(InvalidTimeValue)
    ensures r.Ok? && r.value.Some? ==>
      start.Some? && start.value.At? &&
      r.value.value % DayMs == 0 &&
      r.value.value <= start.value.ms + 30 * DayMs < r.value.value + DayMs
    ensures start.Some? && start.value.At? && -MaxTimeMs <= start.value.ms + 30 * DayMs <= MaxTimeMs ==>
      r.Ok? && r.value.Some?
    ensures start.Some? && start.value.At? && !(-MaxTimeMs <= start.value.ms + 30 * DayMs <= MaxTimeMs) ==>
      r == Err(InvalidTimeValue)
  {
    match start
    case None => Ok(None)
    case Some(InvalidDate) => Err(InvalidTimeValue)
    case Some(At(ms)) =>
      var e := ms + 30 * DayMs;
      if e < -MaxTimeMs || MaxTimeMs < e then Err(InvalidTimeValue) else Ok(Some(UtcDay(e)))
  }

  /** A start date chosen in the form is a UTC midnight, and the suggested expiry
      is then exactly thirty days later. A member stored with it on the start
      day is Active for the first twenty-three days and Pending for the last
      seven, the expiry day included. */
  lemma {:induction false} SuggestedExpiryLifecycle(start: int, today: int)
    requires start % DayMs == 0 && -MaxTimeMs <= start + 30 * DayMs <= MaxTimeMs
    ensures CalculateExpiryDate(Some(At(start))) == Ok(Some(start + 30 * DayMs))
    ensures today <= start + 23 * DayMs ==> CalculateStatus(At(start + 30 * DayMs), today) == Active
    ensures start + 23 * DayMs < today <= start + 30 * DayMs ==>
      CalculateStatus(At(start + 30 * DayMs), today) == Pending
  {
    var e := start + 30 * DayMs;
    assert e % DayMs == 0;
    assert UtcDay(e) == e;
  }
}
