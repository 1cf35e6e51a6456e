/*
 * The admin events: `BanEventImpl`, `MuteEventImpl`, `KickEventImpl` and
 * `CommentEventImpl`. Each holds the record it announces. A handler that may
 * modify the event edits a mutable copy of that record, created on the first
 * edit; `getCurrent` is the original until the copy has really changed.
 * Editing is refused once the event is not modifiable or is sealed.
 */
module Events {
  import opened JavaLang
  import opened ScopedRecords
  import opened BanRecords
  import opened MuteRecords
  import opened CommentKickRecords
  import opened HandlerGroups
  import opened EventBus

  /** The event classes the events report from `getEventClass`. */
  const BAN_EVENT := EventClass("BanEvent", true, true)
  const MUTE_EVENT := EventClass("MuteEvent", true, true)
  const KICK_EVENT := EventClass("KickEvent", true, true)
  const COMMENT_EVENT := EventClass("CommentEvent", true, true)
  /** The implementation class: not an interface. */
  const MUTE_EVENT_IMPL := EventClass("MuteEventImpl", false, true)

  const CANNOT_CHANGE_TYPE := "Cannot change the type of this comment"

  class BanEvent {
    const eventClass: EventClass
    const cancellable: bool
    const banRecord: BanRecord
    const modifiable: bool
    var cancelled: bool
    var sealed: bool
    var mutableRecord: MutableBanRecord?

    /** The mutable copy, once made, is a copy of this event's record. */
    ghost predicate Valid()
      reads this, mutableRecord, banRecord
    {
      mutableRecord != null ==> mutableRecord.source == banRecord && mutableRecord.Valid()
    }

    constructor (banRecord: BanRecord, cancellable: bool, modifiable: bool)
      ensures Valid()
      ensures eventClass == BAN_EVENT && this.banRecord == banRecord
      ensures this.cancellable == cancellable && this.modifiable == modifiable
      ensures !cancelled && !sealed && mutableRecord == null
    {
      eventClass := BAN_EVENT;
      this.cancellable := cancellable;
      this.banRecord := banRecord;
      this.modifiable := modifiable;
      cancelled := false;
      sealed := false;
      mutableRecord := null;
    }

    predicate IsModified()
      reads this, mutableRecord
    {
      mutableRecord != null && mutableRecord.isModified
    }

    predicate CanModify()
      reads this
    {
      modifiable && !sealed
    }

    /** The contents `getCurrent` reports. */
    ghost function Current(): Punishment
      reads this, mutableRecord, banRecord
    {
      if IsModified() then mutableRecord.Data() else banRecord.Data()
    }

    /** `getCurrent`: the original record itself until the copy has changed, then a new record with the copy's contents. */
    method GetCurrent() returns (r: BanRecord)
      requires Valid()
      ensures !IsModified() ==> r == banRecord
      ensures IsModified() ==> fresh(r)
      ensures r.Data() == Current()
    {
      if IsModified() {
        r := mutableRecord.AsImmutable();
      } else {
        r := banRecord;
      }
    }

    /**
     * `getMutable`: refused with ImmutableEventException when the event
     * cannot be modified; otherwise the copy, made on the first call and the
     * same object on every later one. Making it changes nothing visible.
     */
    method GetMutable() returns (r: Outcome<MutableBanRecord>)
      requires Valid()
      modifies this
      ensures Valid() && Current() == old(Current())
      ensures !old(CanModify()) ==> r == Throws(ImmutableEventException) && mutableRecord == old(mutableRecord)
      ensures old(CanModify()) ==> mutableRecord != null && r.Ok? && r.value == mutableRecord
      ensures old(mutableRecord) != null ==> mutableRecord == old(mutableRecord)
      ensures old(mutableRecord) == null && old(CanModify()) ==> fresh(mutableRecord) && !mutableRecord.isModified
    {
      if !modifiable || sealed {
        return Throws(ImmutableEventException);
      }
      if mutableRecord == null {
        mutableRecord := new MutableBanRecord(banRecord);
      }
      return Ok(mutableRecord);
    }

    method SetAuthor(author: Option<Uuid>) returns (r: Outcome<()>)
      requires Valid()
      modifies this, mutableRecord
      ensures Valid()
      ensures !old(CanModify()) ==> r == Throws(ImmutableEventException) && Current() == old(Current())
      ensures old(CanModify()) ==> r == Ok(()) && Current() == old(Current()).(staff := author)
    {
      var m := GetMutable();
      if m.Throws? {
        return Throws(m.ex);
      }
      m.value.SetAuthor(author);
      return Ok(());
    }

    method SetIpAddress(ipAddress: Option<string>) returns (r: Outcome<()>)
      requires Valid()
      modifies this, mutableRecord
      ensures Valid()
      ensures !old(CanModify()) ==> r == Throws(ImmutableEventException) && Current() == old(Current())
      ensures old(CanModify()) ==> r == Ok(()) && Current() == old(Current()).(ipAddress := ipAddress)
    {
      var m := GetMutable();
      if m.Throws? {
        return Throws(m.ex);
      }
      m.value.SetIpAddress(ipAddress);
      return Ok(());
    }

    method SetReason(reason: Option<string>) returns (r: Outcome<()>)
      requires Valid()
      modifies this, mutableRecord
      ensures Valid()
      ensures !old(CanModify()) ==> r == Throws(ImmutableEventException) && Current() == old(Current())
      ensures old(CanModify()) ==> r == Ok(()) && Current() == old(Current()).(reason := reason)
    {
      var m := GetMutable();
      if m.Throws? {
        return Throws(m.ex);
      }
      m.value.SetReason(reason);
      return Ok(());
    }

    method SetContext(context: Option<string>) returns (r: Outcome<()>)
      requires Valid()
      modifies this, mutableRecord
      ensures Valid()
      ensures !old(CanModify()) ==> r == Throws(ImmutableEventException) && Current() == old(Current())
      ensures old(CanModify()) ==> r == Ok(()) && Current() == old(Current()).(context := context)
    {
      var m := GetMutable();
      if m.Throws? {
        return Throws(m.ex);
      }
      m.value.SetContext(context);
      return Ok(());
    }

    method SetAutoUnbanDate(unbanDate: Time, now: Time) returns (r: Outcome<()>)
      requires Valid()
      modifies this, mutableRecord
      ensures Valid()
      ensures !old(CanModify()) ==> r == Throws(ImmutableEventException) && Current() == old(Current())
      ensures old(CanModify()) ==> r == Ok(()) && Current() == MutableAutoTerminated(old(Current()), unbanDate, now)
    {
      var m := GetMutable();
      if m.Throws? {
        return Throws(m.ex);
      }
      m.value.SetAutoUnbanDate(unbanDate, now);
      return Ok(());
    }

    method UnbanNow(unbanStaff: Option<Uuid>, unbanReason: Option<string>, now: Time) returns (r: Outcome<()>)
      requires Valid()
      modifies this, mutableRecord
      ensures Valid()
      ensures !old(CanModify()) ==> r == Throws(ImmutableEventException) && Current() == old(Current())
      ensures old(CanModify()) ==>
                r == Ok(()) && IsModified() && Current() == TerminatedNow(old(Current()), unbanStaff, unbanReason, now)
    {
      var m := GetMutable();
      if m.Throws? {
        return Throws(m.ex);
      }
      m.value.UnbanNow(unbanStaff, unbanReason, now);
      return Ok(());
    }
  }

  class MuteEvent {
    const eventClass: EventClass
    const cancellable: bool
    const muteRecord: MuteRecord
    const modifiable: bool
    var cancelled: bool
    var sealed: bool
    var mutableRecord: MutableMuteRecord?

    /** The mutable copy, once made, is a copy of this event's record. */
    ghost predicate Valid()
      reads this, mutableRecord, muteRecord
    {
      mutableRecord != null ==> mutableRecord.source == muteRecord && mutableRecord.Valid()
    }

    /** The constructor as written: it reports the implementation class as the event class. */
    constructor AsWritten(muteRecord: MuteRecord, cancellable: bool, modifiable: bool)
      ensures Valid()
      ensures eventClass == MUTE_EVENT_IMPL && this.muteRecord == muteRecord
      ensures this.cancellable == cancellable && this.modifiable == modifiable
      ensures !cancelled && !sealed && mutableRecord == null
    {
      eventClass := MUTE_EVENT_IMPL;
      this.cancellable := cancellable;
      this.muteRecord := muteRecord;
      this.modifiable := modifiable;
      cancelled := false;
      sealed := false;
      mutableRecord := null;
    }

    /** The evidently intended constructor: the event class is the `MuteEvent` interface, as for the other events. */
    constructor (muteRecord: MuteRecord, cancellable: bool, modifiable: bool)
      ensures Valid()
      ensures eventClass == MUTE_EVENT && this.muteRecord == muteRecord
      ensures this.cancellable == cancellable && this.modifiable == modifiable
      ensures !cancelled && !sealed && mutableRecord == null
    {
      eventClass := MUTE_EVENT;
      this.cancellable := cancellable;
      this.muteRecord := muteRecord;
      this.modifiable := modifiable;
      cancelled := false;
      sealed := false;
      mutableRecord := null;
    }

    predicate IsModified()
      reads this, mutableRecord
    {
      mutableRecord != null && mutableRecord.isModified
    }

    predicate CanModify()
      reads this
    {
      modifiable && !sealed
    }

    /** The contents `getCurrent` reports. */
    ghost function Current(): Punishment
      reads this, mutableRecord, muteRecord
    {
      if IsModified() then mutableRecord.Data() else muteRecord.Data()
    }

    /** `getCurrent`: the original record itself until the copy has changed, then a new record with the copy's contents. */
    method GetCurrent() returns (r: MuteRecord)
      requires Valid()
      ensures !IsModified() ==> r == muteRecord
      ensures IsModified() ==> fresh(r)
      ensures r.Data() == Current()
    {
      if IsModified() {
        r := mutableRecord.AsImmutable();
      } else {
        r := muteRecord;
      }
    }

    /** `getMutable`: refused when the event cannot be modified; otherwise the copy, made once. */
    method GetMutable() returns (r: Outcome<MutableMuteRecord>)
      requires Valid()
      modifies this
      ensures Valid() && Current() == old(Current())
      ensures !old(CanModify()) ==> r == Throws(ImmutableEventException) && mutableRecord == old(mutableRecord)
      ensures old(CanModify()) ==> mutableRecord != null && r.Ok? && r.value == mutableRecord
      ensures old(mutableRecord) != null ==> mutableRecord == old(mutableRecord)
      ensures old(mutableRecord) == null && old(CanModify()) ==> fresh(mutableRecord) && !mutableRecord.isModified
    {
      if !modifiable || sealed {
        return Throws(ImmutableEventException);
      }
      if mutableRecord == null {
        mutableRecord := new MutableMuteRecord(muteRecord);
      }
      return Ok(mutableRecord);
    }

    method SetAuthor(author: Option<Uuid>) returns (r: Outcome<()>)
      requires Valid()
      modifies this, mutableRecord
      ensures Valid()
      ensures !old(CanModify()) ==> r == Throws(ImmutableEventException) && Current() == old(Current())
      ensures old(CanModify()) ==> r == Ok(()) && Current() == old(Current()).(staff := author)
    {
      var m := GetMutable();
      if m.Throws? {
        return Throws(m.ex);
      }
      m.value.SetAuthor(author);
      return Ok(());
    }

    method SetIpAddress(ipAddress: Option<string>) returns (r: Outcome<()>)
      requires Valid()
      modifies this, mutableRecord
      ensures Valid()
      ensures !old(CanModify()) ==> r == Throws(ImmutableEventException) && Current() == old(Current())
      ensures old(CanModify()) ==> r == Ok(()) && Current() == old(Current()).(ipAddress := ipAddress)
    {
      var m := GetMutable();
      if m.Throws? {
        return Throws(m.ex);
      }
      m.value.SetIpAddress(ipAddress);
      return Ok(());
    }

    method SetReason(reason: Option<string>) returns (r: Outcome<()>)
      requires Valid()
      modifies this, mutableRecord
      ensures Valid()
      ensures !old(CanModify()) ==> r == Throws(ImmutableEventException) && Current() == old(Current())
      ensures old(CanModify()) ==> r == Ok(()) && Current() == old(Current()).(reason := reason)
    {
      var m := GetMutable();
      if m.Throws? {
        return Throws(m.ex);
      }
      m.value.SetReason(reason);
      return Ok(());
    }

    method SetContext(context: Option<string>) returns (r: Outcome<()>)
      requires Valid()
      modifies this, mutableRecord
      ensures Valid()
      ensures !old(CanModify()) ==> r == Throws(ImmutableEventException) && Current() == old(Current())
      ensures old(CanModify()) ==> r == Ok(()) && Current() == old(Current()).(context := context)
    {
      var m := GetMutable();
      if m.Throws? {
        return Throws(m.ex);
      }
      m.value.SetContext(context);
      return Ok(());
    }

    method SetAutoUnmuteDate(unmuteDate: Time, now: Time) returns (r: Outcome<()>)
      requires Valid()
      modifies this, mutableRecord
      ensures Valid()
      ensures !old(CanModify()) ==> r == Throws(ImmutableEventException) && Current() == old(Current())
      ensures old(CanModify()) ==> r == Ok(()) && Current() == MutableAutoTerminated(old(Current()), unmuteDate, now)
    {
      var m := GetMutable();
      if m.Throws? {
        return Throws(m.ex);
      }
      m.value.SetAutoUnmuteDate(unmuteDate, now);
      return Ok(());
    }

    method UnmuteNow(unmuteStaff: Option<Uuid>, unmuteReason: Option<string>, now: Time) returns (r: Outcome<()>)
      requires Valid()
      modifies this, mutableRecord
      ensures Valid()
      ensures !old(CanModify()) ==> r == Throws(ImmutableEventException) && Current() == old(Current())
      ensures old(CanModify()) ==>
                r == Ok(()) && IsModified() && Current() == TerminatedNow(old(Current()), unmuteStaff, unmuteReason, now)
    {
      var m := GetMutable();
      if m.Throws? {
        return Throws(m.ex);
      }
      m.value.UnmuteNow(unmuteStaff, unmuteReason, now);
      return Ok(());
    }
  }

  class KickEvent {
    const eventClass: EventClass
    const cancellable: bool
    const kickRecord: KickRecord
    const modifiable: bool
    var cancelled: bool
    var sealed: bool
    var mutableRecord: MutableKickRecord?

    /** The mutable copy, once made, is a copy of this event's record. */
    ghost predicate Valid()
      reads this, mutableRecord
    {
      mutableRecord != null ==> mutableRecord.source == kickRecord && mutableRecord.Valid()
    }

    constructor (kickRecord: KickRecord, cancellable: bool, modifiable: bool)
      ensures Valid()
      ensures eventClass == KICK_EVENT && this.kickRecord == kickRecord
      ensures this.cancellable == cancellable && this.modifiable == modifiable
      ensures !cancelled && !sealed && mutableRecord == null
    {
      eventClass := KICK_EVENT;
      this.cancellable := cancellable;
      this.kickRecord := kickRecord;
      this.modifiable := modifiable;
      cancelled := false;
      sealed := false;
      mutableRecord := null;
    }

    predicate IsModified()
      reads this, mutableRecord
    {
      mutableRecord != null && mutableRecord.isModified
    }

    predicate CanModify()
      reads this
    {
      modifiable && !sealed
    }

    /** The contents `getCurrent` reports. */
    ghost function Current(): KickData
      reads this, mutableRecord
    {
      if IsModified() then mutableRecord.Data() else kickRecord.data
    }

    /** `getCurrent`: the original record itself until the copy has changed, then a new record with the copy's contents. */
    method GetCurrent() returns (r: KickRecord)
      requires Valid()
      ensures !IsModified() ==> r == kickRecord
      ensures IsModified() ==> fresh(r)
      ensures r.data == Current()
    {
      if IsModified() {
        r := mutableRecord.AsImmutable();
      } else {
        r := kickRecord;
      }
    }

    /** `getMutable`: refused when the event cannot be modified; otherwise the copy, made once. */
    method GetMutable() returns (r: Outcome<MutableKickRecord>)
      requires Valid()
      modifies this
      ensures Valid() && Current() == old(Current())
      ensures !old(CanModify()) ==> r == Throws(ImmutableEventException) && mutableRecord == old(mutableRecord)
      ensures old(CanModify()) ==> mutableRecord != null && r.Ok? && r.value == mutableRecord
      ensures old(mutableRecord) != null ==> mutableRecord == old(mutableRecord)
      ensures old(mutableRecord) == null && old(CanModify()) ==> fresh(mutableRecord) && !mutableRecord.isModified
    {
      if !modifiable || sealed {
        return Throws(ImmutableEventException);
      }
      if mutableRecord == null {
        mutableRecord := new MutableKickRecord(kickRecord);
      }
      return Ok(mutableRecord);
    }

    method SetReason(reason: Option<string>) returns (r: Outcome<()>)
      requires Valid()
      modifies this, mutableRecord
      ensures Valid()
      ensures !old(CanModify()) ==> r == Throws(ImmutableEventException) && Current() == old(Current())
      ensures old(CanModify()) ==> r == Ok(()) && Current() == old(Current()).(reason := reason)
    {
      var m := GetMutable();
      if m.Throws? {
        return Throws(m.ex);
      }
      m.value.SetReason(reason);
      return Ok(());
    }

    method SetAuthor(author: Option<Uuid>) returns (r: Outcome<()>)
      requires Valid()
      modifies this, mutableRecord
      ensures Valid()
      ensures !old(CanModify()) ==> r == Throws(ImmutableEventException) && Current() == old(Current())
      ensures old(CanModify()) ==> r == Ok(()) && Current() == old(Current()).(staff := author)
    {
      var m := GetMutable();
      if m.Throws? {
        return Throws(m.ex);
      }
      m.value.SetAuthor(author);
      return Ok(());
    }
  }

  class CommentEvent {
    const eventClass: EventClass
    const cancellable: bool
    const commentRecord: CommentRecord
    const modifiable: bool
    const typeChangable: bool
    var cancelled: bool
    var sealed: bool
    var mutableRecord: MutableCommentRecord?

    /** The mutable copy, once made, is a copy of this event's record. */
    ghost predicate Valid()
      reads this, mutableRecord
    {
      mutableRecord != null ==> mutableRecord.source == commentRecord && mutableRecord.Valid()
    }

    constructor (commentRecord: CommentRecord, cancellable: bool, modifiable: bool, typeChangable: bool)
      ensures Valid()
      ensures eventClass == COMMENT_EVENT && this.commentRecord == commentRecord
      ensures this.cancellable == cancellable && this.modifiable == modifiable && this.typeChangable == typeChangable
      ensures !cancelled && !sealed && mutableRecord == null
    {
      eventClass := COMMENT_EVENT;
      this.cancellable := cancellable;
      this.commentRecord := commentRecord;
      this.modifiable := modifiable;
      this.typeChangable := typeChangable;
      cancelled := false;
      sealed := false;
      mutableRecord := null;
    }

    predicate IsModified()
      reads this, mutableRecord
    {
      mutableRecord != null && mutableRecord.isModified
    }

    predicate CanModify()
      reads this
    {
      modifiable && !sealed
    }

    /** `canSwitchWarningMode`: decided by the event's creator, not by the record. */
    predicate CanSwitchWarningMode() {
      typeChangable
    }

    /** The contents `getCurrent` reports. */
    ghost function Current(): CommentData
      reads this, mutableRecord
    {
      if IsModified() then mutableRecord.Data() else commentRecord.data
    }

    /** `getCurrent`: the original record itself until the copy has changed, then a new record with the copy's contents. */
    method GetCurrent() returns (r: CommentRecord)
      requires Valid()
      ensures !IsModified() ==> r == commentRecord
      ensures IsModified() ==> fresh(r)
      ensures r.data == Current()
    {
      if IsModified() {
        r := mutableRecord.AsImmutable();
      } else {
        r := commentRecord;
      }
    }

    /** `getMutable`: refused when the event cannot be modified; otherwise the copy, made once. */
    method GetMutable() returns (r: Outcome<MutableCommentRecord>)
      requires Valid()
      modifies this
      ensures Valid() && Current() == old(Current())
      ensures !old(CanModify()) ==> r == Throws(ImmutableEventException) && mutableRecord == old(mutableRecord)
      ensures old(CanModify()) ==> mutableRecord != null && r.Ok? && r.value == mutableRecord
      ensures old(mutableRecord) != null ==> mutableRecord == old(mutableRecord)
      ensures old(mutableRecord) == null && old(CanModify()) ==> fresh(mutableRecord) && !mutableRecord.isModified
    {
      if !modifiable || sealed {
        return Throws(ImmutableEventException);
      }
      if mutableRecord == null {
        mutableRecord := new MutableCommentRecord(commentRecord);
      }
      return Ok(mutableRecord);
    }

    method SetComment(comment: string) returns (r: Outcome<()>)
      requires Valid()
      modifies this, mutableRecord
      ensures Valid()
      ensures !old(CanModify()) ==> r == Throws(ImmutableEventException) && Current() == old(Current())
      ensures old(CanModify()) ==> r == Ok(()) && Current() == old(Current()).(comment := comment)
    {
      var m := GetMutable();
      if m.Throws? {
        return Throws(m.ex);
      }
      m.value.SetComment(comment);
      return Ok(());
    }

    /**
     * `setWarning`: an event whose type may not change throws
     * IllegalStateException before modifiability is even checked; then an
     * unmodifiable event throws ImmutableEventException, and a record loaded
     * from the database refuses the switch.
     */
    method SetWarning(warning: bool) returns (r: Outcome<()>)
      requires Valid()
      modifies this, mutableRecord
      ensures Valid()
      ensures r.Throws? ==> Current() == old(Current())
      ensures !typeChangable ==> r == Throws(IllegalStateException(CANNOT_CHANGE_TYPE)) && mutableRecord == old(mutableRecord)
      ensures typeChangable && !old(CanModify()) ==> r == Throws(ImmutableEventException)
      ensures typeChangable && old(CanModify()) && old(Current()).loaded ==> r == Throws(IllegalStateException(CANNOT_SWITCH_TYPE))
      ensures typeChangable && old(CanModify()) && !old(Current()).loaded ==>
                r == Ok(()) && Current() == old(Current()).(isWarning := warning)
    {
      if !typeChangable {
        return Throws(IllegalStateException(CANNOT_CHANGE_TYPE));
      }
      var m := GetMutable();
      if m.Throws? {
        return Throws(m.ex);
      }
      assert m.value.Data().loaded == commentRecord.data.loaded == old(Current()).loaded;
      r := m.value.SetWarning(warning);
    }

    method SetAuthor(author: Option<Uuid>) returns (r: Outcome<()>)
      requires Valid()
      modifies this, mutableRecord
      ensures Valid()
      ensures !old(CanModify()) ==> r == Throws(ImmutableEventException) && Current() == old(Current())
      ensures old(CanModify()) ==> r == Ok(()) && Current() == old(Current()).(staff := author)
    {
      var m := GetMutable();
      if m.Throws? {
        return Throws(m.ex);
      }
      m.value.SetAuthor(author);
      return Ok(());
    }
  }

  /**
   * A mute event as written is announced under its implementation class.
   * The bus only registers interfaces, so no handler ever sees it.
   */
  method AsWrittenMuteEventUnhandled<E>(bus: CommonEventBus<E>, record: MuteRecord, payload: E, isCancelled: Option<E -> bool>)
    returns (after: E, ran: seq<nat>)
    requires bus.Valid()
    ensures after == payload && ran == []
  {
    var event := new MuteEvent.AsWritten(record, true, true);
    after, ran := bus.Call(payload, event.eventClass, isCancelled);
  }

  /** With the intended event class, a handler registered for mute events runs on a mute event. */
  method MuteEventReachesHandler<E>(record: MuteRecord, handler: E -> E, payload: E) returns (after: E, ran: seq<nat>)
    ensures after == handler(payload) && ran == [0]
  {
    var bus := new CommonEventBus<E>();
    var h := Handle(MUTE_EVENT, handler, false);
    assert bus.Buckets(MUTE_EVENT) == [[], [], [], [], []];
    var _ := bus.AddHandleNormal(Some(MUTE_EVENT), Some(handler));
    assert [h] + [] == [h];
    var event := new MuteEvent(record, true, true);
    after, ran := bus.Call(payload, event.eventClass, None);
    assert bus.Buckets(MUTE_EVENT) == [[], [], [h], [], []];
    FlattenFive(bus.Buckets(MUTE_EVENT));
    assert Flatten(bus.Buckets(MUTE_EVENT)) == [h];
    assert [h][..0] == [];
  }
}
