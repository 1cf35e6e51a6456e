/*
 * The contents shared by ban and mute records, the views the API derives
 * from them (`ScopedRecord` and `MuteRecord` defaults), and the three
 * termination transitions that the record modifiers and the mutable records
 * apply to them.
 */
module ScopedRecords {
  import opened JavaLang
  import opened ApiData

  /**
   * The fields of a ban or mute record. `terminatingStaff`,
   * `terminationDate` and `terminationReason` are the unban (unmute) staff,
   * date and reason; `loaded` says the record came from the database.
   */
  datatype Punishment = Punishment(
    loaded: bool,
    id: int,
    status: PunishmentStatus,
    player: Option<Uuid>,
    staff: Option<Uuid>,
    terminatingStaff: Option<Uuid>,
    dateAdded: Time,
    terminationDate: Option<Time>,
    ipAddress: Option<string>,
    context: Option<string>,
    reason: Option<string>,
    terminationReason: Option<string>)

  // ---------------------------------------------------------------------------
  // Derived views

  predicate HasIpAddress(p: Punishment) { p.ipAddress.Some? }

  predicate IsTemporary(p: Punishment) { p.status == EXPIRED || p.terminationDate.Some? }

  predicate HasEnded(p: Punishment) { p.status == ENDED }

  /** `Contextual.hasContext`: a context string is present. */
  predicate HasContext(p: Punishment) { p.context.Some? }

  /** `MuteRecord.getDuration`: `null` without a termination date, else the time from the date added to it. */
  function GetDuration(p: Punishment): (d: Option<int>)
    ensures d.None? <==> p.terminationDate.None?
    ensures d.Some? ==> p.dateAdded + d.value == p.terminationDate.value
  {
    if p.terminationDate.None? then None else Some(p.terminationDate.value - p.dateAdded)
  }

  /** `MuteRecord.getScope`: temporary, global when context-free, IP when an address is present. */
  function GetScope(p: Punishment): (s: ActionScope)
    ensures ApiData.IsTemporary(s) <==> IsTemporary(p)
    ensures IsGlobal(s) <==> !HasContext(p)
    ensures IsIP(s) <==> HasIpAddress(p)
  {
    FromFlags(IsTemporary(p), !HasContext(p), HasIpAddress(p))
  }

  /** An ended record with a termination date is both ended and temporary. */
  lemma EndedWithDateIsTemporary(p: Punishment)
    requires p.status == ENDED && p.terminationDate.Some?
    ensures HasEnded(p) && IsTemporary(p)
    ensures ApiData.IsTemporary(GetScope(p))
  {
  }

  /** A record without a context has one of the four global scopes. */
  lemma ContextFreeIsGlobal(p: Punishment)
    requires p.context.None?
    ensures GetScope(p) in {GLOBAL, TEMPORARY_GLOBAL, GLOBAL_IP, TEMPORARY_GLOBAL_IP}
  {
  }

  // ---------------------------------------------------------------------------
  // Termination transitions

  /** The fields that no termination transition touches. */
  predicate SameIdentity(p: Punishment, q: Punishment) {
    p.loaded == q.loaded && p.id == q.id && p.player == q.player && p.staff == q.staff
    && p.dateAdded == q.dateAdded && p.ipAddress == q.ipAddress && p.context == q.context
    && p.reason == q.reason
  }

  /** The modifier's `setAutoUnbanDate`: expired when the date is before `now`, else active; termination staff and reason cleared. */
  function AutoTerminated(p: Punishment, date: Time, now: Time): Punishment {
    p.(status := if date < now then EXPIRED else ACTIVE,
       terminatingStaff := None,
       terminationDate := Some(date),
       terminationReason := None)
  }

  /** `reinstateBan` / `reinstateMute`: active, with every termination field cleared. */
  function Reinstated(p: Punishment): Punishment {
    p.(status := ACTIVE, terminatingStaff := None, terminationDate := None, terminationReason := None)
  }

  /** `unbanNow` / `unmuteNow`: ended at `now` by the given staff for the given reason. */
  function TerminatedNow(p: Punishment, staff: Option<Uuid>, reason: Option<string>, now: Time): Punishment {
    p.(status := ENDED, terminatingStaff := staff, terminationDate := Some(now), terminationReason := reason)
  }

  /**
   * The mutable record's `setAutoUnbanDate`: nothing happens when the date is
   * already the termination date; otherwise the status is expired or active
   * by comparison with `now`, and only an active record loses its
   * termination staff and reason.
   */
  function MutableAutoTerminated(p: Punishment, date: Time, now: Time): Punishment {
    if p.terminationDate == Some(date) then p
    else
      var status := if date < now then EXPIRED else ACTIVE;
      p.(status := status,
         terminationDate := Some(date),
         terminatingStaff := if status == ACTIVE then None else p.terminatingStaff,
         terminationReason := if status == ACTIVE then None else p.terminationReason)
  }

  /** After a reinstatement the record is active, not temporary, not ended, and keeps its identity. */
  lemma ReinstatedIsActive(p: Punishment)
    ensures var q := Reinstated(p);
            q.status == ACTIVE && !IsTemporary(q) && !HasEnded(q) && SameIdentity(p, q)
            && !ApiData.IsTemporary(GetScope(q)) && GetDuration(q).None?
  {
  }

  /** Ending a record now makes it ended and temporary, lasting from the date added to `now`. */
  lemma TerminatedNowHasEnded(p: Punishment, staff: Option<Uuid>, reason: Option<string>, now: Time)
    ensures var q := TerminatedNow(p, staff, reason, now);
            HasEnded(q) && IsTemporary(q) && SameIdentity(p, q)
            && GetDuration(q) == Some(now - p.dateAdded)
            && q.terminatingStaff == staff && q.terminationReason == reason
  {
  }

  /** An automatic termination date makes the record temporary; it is expired exactly when the date has passed. */
  lemma AutoTerminatedStatus(p: Punishment, date: Time, now: Time)
    ensures var q := AutoTerminated(p, date, now);
            IsTemporary(q) && !HasEnded(q) && SameIdentity(p, q)
            && (q.status == EXPIRED <==> date < now)
            && q.terminatingStaff.None? && q.terminationReason.None?
  {
  }

  /** Reinstating undoes any termination: the result depends only on the record's identity. */
  lemma ReinstatedUndoesTermination(p: Punishment, staff: Option<Uuid>, reason: Option<string>, date: Time, now: Time)
    ensures Reinstated(TerminatedNow(p, staff, reason, now)) == Reinstated(p)
    ensures Reinstated(AutoTerminated(p, date, now)) == Reinstated(p)
    ensures Reinstated(Reinstated(p)) == Reinstated(p)
  {
  }

  /** Setting the same automatic termination date twice on a mutable record does nothing the second time. */
  lemma MutableAutoTerminatedIdempotent(p: Punishment, date: Time, now1: Time, now2: Time)
    ensures var q := MutableAutoTerminated(p, date, now1);
            MutableAutoTerminated(q, date, now2) == q
  {
  }

  /**
   * The mutable record and the modifier agree when the new date is not in the
   * past; for a past date the mutable record keeps its termination staff and
   * reason where the modifier clears them.
   */
  lemma MutableAgreesWithModifier(p: Punishment, date: Time, now: Time)
    requires p.terminationDate != Some(date)
    ensures date >= now ==> MutableAutoTerminated(p, date, now) == AutoTerminated(p, date, now)
    ensures date < now ==> MutableAutoTerminated(p, date, now)
                           == AutoTerminated(p, date, now).(terminatingStaff := p.terminatingStaff,
                                                            terminationReason := p.terminationReason)
  {
  }
}
