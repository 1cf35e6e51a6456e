/*
 * `MuteRecordImpl`, its private modifier `MuteRecordModification`, and the
 * change-tracking `MutableMuteRecordImpl`.
 *
 * The modifier edits a copy of the record and reports `changed` as the
 * copy's `loaded` flag. The mutable record edits its own fields, notes
 * whether anything differed from what it held, and hands back either its
 * source or a new record with its contents.
 */
module MuteRecords {
  import opened JavaLang
  import opened ApiData
  import opened ScopedRecords

  class MuteRecord {
    var loaded: bool
    var id: int
    var status: PunishmentStatus
    var player: Option<Uuid>
    var staff: Option<Uuid>
    var unmuteStaff: Option<Uuid>
    var muteDate: Time
    var unmuteDate: Option<Time>
    var ipAddress: Option<string>
    var contexts: Option<string>
    var reason: Option<string>
    var unmuteReason: Option<string>

    function Data(): Punishment
      reads this
    {
      Punishment(loaded, id, status, player, staff, unmuteStaff, muteDate, unmuteDate,
                 ipAddress, contexts, reason, unmuteReason)
    }

    /** The full constructor. */
    constructor Load(loaded: bool, id: int, status: PunishmentStatus, player: Option<Uuid>,
                     staff: Option<Uuid>, unmuteStaff: Option<Uuid>, muteDate: Time,
                     unmuteDate: Option<Time>, ipAddress: Option<string>,
                     contexts: Option<string>, reason: Option<string>,
                     unmuteReason: Option<string>)
      ensures Data() == Punishment(loaded, id, status, player, staff, unmuteStaff, muteDate,
                                   unmuteDate, ipAddress, contexts, reason, unmuteReason)
    {
      this.loaded := loaded;
      this.id := id;
      this.status := status;
      this.player := player;
      this.staff := staff;
      this.unmuteStaff := unmuteStaff;
      this.muteDate := muteDate;
      this.unmuteDate := unmuteDate;
      this.ipAddress := ipAddress;
      this.contexts := contexts;
      this.reason := reason;
      this.unmuteReason := unmuteReason;
    }

    /** The public constructor: a new, not loaded, active mute with id -1 and no unmute staff or reason. */
    constructor (player: Option<Uuid>, staff: Option<Uuid>, muteDate: Time, unmuteDate: Option<Time>,
                 ipAddress: Option<string>, contexts: Option<string>, reason: Option<string>)
      ensures Data() == Punishment(false, -1, ACTIVE, player, staff, None, muteDate, unmuteDate,
                                   ipAddress, contexts, reason, None)
    {
      loaded := false;
      id := -1;
      status := ACTIVE;
      this.player := player;
      this.staff := staff;
      unmuteStaff := None;
      this.muteDate := muteDate;
      this.unmuteDate := unmuteDate;
      this.ipAddress := ipAddress;
      this.contexts := contexts;
      this.reason := reason;
      unmuteReason := None;
    }

    /** `copy`: a new record with every field equal. */
    method Copy() returns (r: MuteRecord)
      ensures fresh(r)
      ensures r.Data() == Data()
    {
      r := new MuteRecord.Load(loaded, id, status, player, staff, unmuteStaff, muteDate,
                              unmuteDate, ipAddress, contexts, reason, unmuteReason);
    }
  }

  /** `MuteRecordModification`: edits a private copy of the record it was made from. */
  class MuteRecordModification {
    const record: MuteRecord
    var changed: bool

    constructor (source: MuteRecord)
      ensures fresh(record)
      ensures record.Data() == source.Data()
      ensures !changed
    {
      var copy := source.Copy();
      record := copy;
      changed := false;
    }

    function GetUpdatedRecord(): MuteRecord { record }

    predicate HasChanged()
      reads this
    {
      changed
    }

    method SetAutoUnmuteDate(unmuteDate: Time, now: Time)
      modifies this, record
      ensures record.Data() == AutoTerminated(old(record.Data()), unmuteDate, now)
      ensures changed == record.loaded
    {
      record.status := if unmuteDate < now then EXPIRED else ACTIVE;
      record.unmuteStaff := None;
      record.unmuteDate := Some(unmuteDate);
      record.unmuteReason := None;
      changed := record.loaded;
    }

    method ReinstateMute()
      modifies this, record
      ensures record.Data() == Reinstated(old(record.Data()))
      ensures changed == record.loaded
    {
      record.status := ACTIVE;
      record.unmuteStaff := None;
      record.unmuteDate := None;
      record.unmuteReason := None;
      changed := record.loaded;
    }

    method UnmuteNow(unmuteStaff: Option<Uuid>, unmuteReason: Option<string>, now: Time)
      modifies this, record
      ensures record.Data() == TerminatedNow(old(record.Data()), unmuteStaff, unmuteReason, now)
      ensures changed == record.loaded
    {
      record.status := ENDED;
      record.unmuteStaff := unmuteStaff;
      record.unmuteDate := Some(now);
      record.unmuteReason := unmuteReason;
      changed := record.loaded;
    }
  }

  /** A modifier never touches the record it was made from, and a new record never reports a change. */
  method ModifyNewMute(source: MuteRecord, now: Time) returns (m: MuteRecordModification)
    requires !source.loaded
    ensures source.Data() == old(source.Data())
    ensures m.record.Data() == TerminatedNow(source.Data(), None, None, now)
    ensures !m.HasChanged()
  {
    m := new MuteRecordModification(source);
    m.UnmuteNow(None, None, now);
  }

  /** `MutableMuteRecordImpl`: a mute record that remembers its source and whether a setter changed anything. */
  class MutableMuteRecord {
    const source: MuteRecord
    var isModified: bool
    var loaded: bool
    var id: int
    var status: PunishmentStatus
    var player: Option<Uuid>
    var staff: Option<Uuid>
    var unmuteStaff: Option<Uuid>
    var muteDate: Time
    var unmuteDate: Option<Time>
    var ipAddress: Option<string>
    var contexts: Option<string>
    var reason: Option<string>
    var unmuteReason: Option<string>

    function Data(): Punishment
      reads this
    {
      Punishment(loaded, id, status, player, staff, unmuteStaff, muteDate, unmuteDate,
                 ipAddress, contexts, reason, unmuteReason)
    }

    /** Until a setter changes something, the contents are the source's. */
    ghost predicate Valid()
      reads this, source
    {
      !isModified ==> Data() == source.Data()
    }

    constructor (source: MuteRecord)
      ensures this.source == source
      ensures Data() == source.Data()
      ensures !isModified
      ensures Valid()
    {
      this.source := source;
      isModified := false;
      loaded := source.loaded;
      id := source.id;
      status := source.status;
      player := source.player;
      staff := source.staff;
      unmuteStaff := source.unmuteStaff;
      muteDate := source.muteDate;
      unmuteDate := source.unmuteDate;
      ipAddress := source.ipAddress;
      contexts := source.contexts;
      reason := source.reason;
      unmuteReason := source.unmuteReason;
    }

    method SetAuthor(author: Option<Uuid>)
      requires Valid()
      modifies this
      ensures Valid()
      ensures Data() == old(Data()).(staff := author)
      ensures isModified == (old(isModified) || author != old(staff))
    {
      if staff != author {
        staff := author;
        isModified := true;
      }
    }

    method SetIpAddress(ipAddress: Option<string>)
      requires Valid()
      modifies this
      ensures Valid()
      ensures Data() == old(Data()).(ipAddress := ipAddress)
      ensures isModified == (old(isModified) || ipAddress != old(this.ipAddress))
    {
      if this.ipAddress != ipAddress {
        this.ipAddress := ipAddress;
        isModified := true;
      }
    }

    method SetReason(reason: Option<string>)
      requires Valid()
      modifies this
      ensures Valid()
      ensures Data() == old(Data()).(reason := reason)
      ensures isModified == (old(isModified) || reason != old(this.reason))
    {
      if this.reason != reason {
        this.reason := reason;
        isModified := true;
      }
    }

    method SetContext(context: Option<string>)
      requires Valid()
      modifies this
      ensures Valid()
      ensures Data() == old(Data()).(context := context)
      ensures isModified == (old(isModified) || context != old(contexts))
    {
      if contexts != context {
        contexts := context;
        isModified := true;
      }
    }

    method SetAutoUnmuteDate(date: Time, now: Time)
      requires Valid()
      modifies this
      ensures Valid()
      ensures Data() == MutableAutoTerminated(old(Data()), date, now)
      ensures isModified == (old(isModified) || old(unmuteDate) != Some(date))
    {
      if Some(date) != unmuteDate {
        status := if date < now then EXPIRED else ACTIVE;
        unmuteDate := Some(date);
        if status == ACTIVE {
          unmuteStaff := None;
          unmuteReason := None;
        }
        isModified := true;
      }
    }

    method UnmuteNow(unmuteStaff: Option<Uuid>, unmuteReason: Option<string>, now: Time)
      requires Valid()
      modifies this
      ensures Valid()
      ensures Data() == TerminatedNow(old(Data()), unmuteStaff, unmuteReason, now)
      ensures isModified
    {
      status := ENDED;
      unmuteDate := Some(now);
      this.unmuteStaff := unmuteStaff;
      this.unmuteReason := unmuteReason;
      isModified := true;
    }

    function GetOriginal(): MuteRecord { source }

    /** `asImmutable`: the source while nothing changed, otherwise a new record; either way with the current contents. */
    method AsImmutable() returns (r: MuteRecord)
      requires Valid()
      ensures !isModified ==> r == source
      ensures isModified ==> fresh(r)
      ensures r.Data() == Data()
    {
      if isModified {
        r := new MuteRecord.Load(loaded, id, status, player, staff, unmuteStaff, muteDate, unmuteDate,
                                ipAddress, contexts, reason, unmuteReason);
      } else {
        r := source;
      }
    }
  }

  /** Setting every field back to the value it already holds leaves a fresh mutable record unmodified. */
  method SameValuesLeaveUnmodified(source: MuteRecord) returns (m: MutableMuteRecord, r: MuteRecord)
    ensures !m.isModified
    ensures r == source
  {
    m := new MutableMuteRecord(source);
    m.SetAuthor(source.staff);
    m.SetIpAddress(source.ipAddress);
    m.SetReason(source.reason);
    m.SetContext(source.contexts);
    if source.unmuteDate.Some? {
      m.SetAutoUnmuteDate(source.unmuteDate.value, 0);
    }
    r := m.AsImmutable();
  }
}
