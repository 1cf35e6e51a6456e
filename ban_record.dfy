/*
 * `BanRecordImpl`, its private modifier `BanRecordModification`, and the
 * change-tracking `MutableBanRecordImpl`.
 *
 * The modifier edits a copy of the record and reports `changed` as the
 * copy's `loaded` flag. The mutable record edits its own fields, notes
 * whether anything differed from what it held, and hands back either its
 * source or a new record with its contents.
 */
module BanRecords {
  import opened JavaLang
  import opened ApiData
  import opened ScopedRecords

  class BanRecord {
    var loaded: bool
    var id: int
    var status: PunishmentStatus
    var player: Option<Uuid>
    var staff: Option<Uuid>
    var unbanStaff: Option<Uuid>
    var banDate: Time
    var unbanDate: Option<Time>
    var ipAddress: Option<string>
    var contexts: Option<string>
    var reason: Option<string>
    var unbanReason: Option<string>

    function Data(): Punishment
      reads this
    {
      Punishment(loaded, id, status, player, staff, unbanStaff, banDate, unbanDate,
                 ipAddress, contexts, reason, unbanReason)
    }

    /**
     * The full constructor as written: every field is assigned except `id`,
     * which keeps Java's default 0 whatever id is passed.
     */
    constructor LoadAsWritten(loaded: bool, id: int, status: PunishmentStatus, player: Option<Uuid>,
                              staff: Option<Uuid>, unbanStaff: Option<Uuid>, banDate: Time,
                              unbanDate: Option<Time>, ipAddress: Option<string>,
                              contexts: Option<string>, reason: Option<string>,
                              unbanReason: Option<string>)
      ensures Data() == Punishment(loaded, 0, status, player, staff, unbanStaff, banDate,
                                   unbanDate, ipAddress, contexts, reason, unbanReason)
    {
      this.loaded := loaded;
      this.id := 0;
      this.status := status;
      this.player := player;
      this.staff := staff;
      this.unbanStaff := unbanStaff;
      this.banDate := banDate;
      this.unbanDate := unbanDate;
      this.ipAddress := ipAddress;
      this.contexts := contexts;
      this.reason := reason;
      this.unbanReason := unbanReason;
    }

    /** The full constructor with the missing `id` assignment added. */
    constructor Load(loaded: bool, id: int, status: PunishmentStatus, player: Option<Uuid>,
                     staff: Option<Uuid>, unbanStaff: Option<Uuid>, banDate: Time,
                     unbanDate: Option<Time>, ipAddress: Option<string>,
                     contexts: Option<string>, reason: Option<string>,
                     unbanReason: Option<string>)
      ensures Data() == Punishment(loaded, id, status, player, staff, unbanStaff, banDate,
                                   unbanDate, ipAddress, contexts, reason, unbanReason)
    {
      this.loaded := loaded;
      this.id := id;
      this.status := status;
      this.player := player;
      this.staff := staff;
      this.unbanStaff := unbanStaff;
      this.banDate := banDate;
      this.unbanDate := unbanDate;
      this.ipAddress := ipAddress;
      this.contexts := contexts;
      this.reason := reason;
      this.unbanReason := unbanReason;
    }

    /** The public constructor: a new, not loaded, active ban with id -1 and no unban staff or reason. */
    constructor (player: Option<Uuid>, staff: Option<Uuid>, banDate: Time, unbanDate: Option<Time>,
                 ipAddress: Option<string>, contexts: Option<string>, reason: Option<string>)
      ensures Data() == Punishment(false, -1, ACTIVE, player, staff, None, banDate, unbanDate,
                                   ipAddress, contexts, reason, None)
    {
      loaded := false;
      id := -1;
      status := ACTIVE;
      this.player := player;
      this.staff := staff;
      unbanStaff := None;
      this.banDate := banDate;
      this.unbanDate := unbanDate;
      this.ipAddress := ipAddress;
      this.contexts := contexts;
      this.reason := reason;
      unbanReason := None;
    }

    /** The public constructor as written: it delegates to the full constructor, so the -1 it passes is lost and the id is 0. */
    constructor NewAsWritten(player: Option<Uuid>, staff: Option<Uuid>, banDate: Time, unbanDate: Option<Time>,
                             ipAddress: Option<string>, contexts: Option<string>, reason: Option<string>)
      ensures Data() == Punishment(false, 0, ACTIVE, player, staff, None, banDate, unbanDate,
                                   ipAddress, contexts, reason, None)
    {
      loaded := false;
      id := 0;
      status := ACTIVE;
      this.player := player;
      this.staff := staff;
      unbanStaff := None;
      this.banDate := banDate;
      this.unbanDate := unbanDate;
      this.ipAddress := ipAddress;
      this.contexts := contexts;
      this.reason := reason;
      unbanReason := None;
    }

    /** `copy` as written, through the full constructor: the copy's id is 0. */
    method CopyAsWritten() returns (r: BanRecord)
      ensures fresh(r)
      ensures r.Data() == Data().(id := 0)
    {
      r := new BanRecord.LoadAsWritten(loaded, id, status, player, staff, unbanStaff, banDate,
                                       unbanDate, ipAddress, contexts, reason, unbanReason);
    }

    /** `copy`: a new record with every field equal. */
    method Copy() returns (r: BanRecord)
      ensures fresh(r)
      ensures r.Data() == Data()
    {
      r := new BanRecord.Load(loaded, id, status, player, staff, unbanStaff, banDate,
                              unbanDate, ipAddress, contexts, reason, unbanReason);
    }
  }

  /** A copy of a loaded ban made as written loses its id: id 7 comes back as 0. */
  method CopyLosesId() returns (original: BanRecord, copy: BanRecord)
    ensures original.id == 7 && copy.id == 0
  {
    original := new BanRecord.Load(true, 7, ACTIVE, Some(1), None, None, 0, None, None, None, None, None);
    copy := original.CopyAsWritten();
  }

  /** `BanRecordModification`: edits a private copy of the record it was made from. */
  class BanRecordModification {
    const record: BanRecord
    var changed: bool

    constructor (source: BanRecord)
      ensures fresh(record)
      ensures record.Data() == source.Data()
      ensures !changed
    {
      var copy := source.Copy();
      record := copy;
      changed := false;
    }

    function GetUpdatedRecord(): BanRecord { record }

    predicate HasChanged()
      reads this
    {
      changed
    }

    method SetAutoUnbanDate(unbanDate: Time, now: Time)
      modifies this, record
      ensures record.Data() == AutoTerminated(old(record.Data()), unbanDate, now)
      ensures changed == record.loaded
    {
      record.status := if unbanDate < now then EXPIRED else ACTIVE;
      record.unbanStaff := None;
      record.unbanDate := Some(unbanDate);
      record.unbanReason := None;
      changed := record.loaded;
    }

    method ReinstateBan()
      modifies this, record
      ensures record.Data() == Reinstated(old(record.Data()))
      ensures changed == record.loaded
    {
      record.status := ACTIVE;
      record.unbanStaff := None;
      record.unbanDate := None;
      record.unbanReason := None;
      changed := record.loaded;
    }

    method UnbanNow(unbanStaff: Option<Uuid>, unbanReason: Option<string>, now: Time)
      modifies this, record
      ensures record.Data() == TerminatedNow(old(record.Data()), unbanStaff, unbanReason, now)
      ensures changed == record.loaded
    {
      record.status := ENDED;
      record.unbanStaff := unbanStaff;
      record.unbanDate := Some(now);
      record.unbanReason := unbanReason;
      changed := record.loaded;
    }
  }

  /** A modifier never touches the record it was made from, and a new record never reports a change. */
  method ModifyNewBan(source: BanRecord, now: Time) returns (m: BanRecordModification)
    requires !source.loaded
    ensures source.Data() == old(source.Data())
    ensures m.record.Data() == TerminatedNow(source.Data(), None, None, now)
    ensures !m.HasChanged()
  {
    m := new BanRecordModification(source);
    m.UnbanNow(None, None, now);
  }

  /** `MutableBanRecordImpl`: a ban record that remembers its source and whether a setter changed anything. */
  class MutableBanRecord {
    const source: BanRecord
    var isModified: bool
    var loaded: bool
    var id: int
    var status: PunishmentStatus
    var player: Option<Uuid>
    var staff: Option<Uuid>
    var unbanStaff: Option<Uuid>
    var banDate: Time
    var unbanDate: Option<Time>
    var ipAddress: Option<string>
    var contexts: Option<string>
    var reason: Option<string>
    var unbanReason: Option<string>

    function Data(): Punishment
      reads this
    {
      Punishment(loaded, id, status, player, staff, unbanStaff, banDate, unbanDate,
                 ipAddress, contexts, reason, unbanReason)
    }

    /** Until a setter changes something, the contents are the source's. */
    ghost predicate Valid()
      reads this, source
    {
      !isModified ==> Data() == source.Data()
    }

    constructor (source: BanRecord)
      ensures this.source == source
      ensures Data() == source.Data()
      ensures !isModified
      ensures Valid()
    {
      this.source := source;
      isModified := false;
      loaded := source.loaded;
      id := source.id;
      status := source.status;
      player := source.player;
      staff := source.staff;
      unbanStaff := source.unbanStaff;
      banDate := source.banDate;
      unbanDate := source.unbanDate;
      ipAddress := source.ipAddress;
      contexts := source.contexts;
      reason := source.reason;
      unbanReason := source.unbanReason;
    }

    method SetAuthor(author: Option<Uuid>)
      requires Valid()
      modifies this
      ensures Valid()
      ensures Data() == old(Data()).(staff := author)
      ensures isModified == (old(isModified) || author != old(staff))
    {
      if staff != author {
        staff := author;
        isModified := true;
      }
    }

    method SetIpAddress(ipAddress: Option<string>)
      requires Valid()
      modifies this
      ensures Valid()
      ensures Data() == old(Data()).(ipAddress := ipAddress)
      ensures isModified == (old(isModified) || ipAddress != old(this.ipAddress))
    {
      if this.ipAddress != ipAddress {
        this.ipAddress := ipAddress;
        isModified := true;
      }
    }

    method SetReason(reason: Option<string>)
      requires Valid()
      modifies this
      ensures Valid()
      ensures Data() == old(Data()).(reason := reason)
      ensures isModified == (old(isModified) || reason != old(this.reason))
    {
      if this.reason != reason {
        this.reason := reason;
        isModified := true;
      }
    }

    method SetContext(context: Option<string>)
      requires Valid()
      modifies this
      ensures Valid()
      ensures Data() == old(Data()).(context := context)
      ensures isModified == (old(isModified) || context != old(contexts))
    {
      if contexts != context {
        contexts := context;
        isModified := true;
      }
    }

    method SetAutoUnbanDate(date: Time, now: Time)
      requires Valid()
      modifies this
      ensures Valid()
      ensures Data() == MutableAutoTerminated(old(Data()), date, now)
      ensures isModified == (old(isModified) || old(unbanDate) != Some(date))
    {
      if Some(date) != unbanDate {
        status := if date < now then EXPIRED else ACTIVE;
        unbanDate := Some(date);
        if status == ACTIVE {
          unbanStaff := None;
          unbanReason := None;
        }
        isModified := true;
      }
    }

    method UnbanNow(unbanStaff: Option<Uuid>, unbanReason: Option<string>, now: Time)
      requires Valid()
      modifies this
      ensures Valid()
      ensures Data() == TerminatedNow(old(Data()), unbanStaff, unbanReason, now)
      ensures isModified
    {
      status := ENDED;
      unbanDate := Some(now);
      this.unbanStaff := unbanStaff;
      this.unbanReason := unbanReason;
      isModified := true;
    }

    function GetOriginal(): BanRecord { source }

    /** `asImmutable`: the source while nothing changed, otherwise a new record; either way with the current contents. */
    method AsImmutable() returns (r: BanRecord)
      requires Valid()
      ensures !isModified ==> r == source
      ensures isModified ==> fresh(r)
      ensures r.Data() == Data()
    {
      if isModified {
        r := new BanRecord.Load(loaded, id, status, player, staff, unbanStaff, banDate, unbanDate,
                                ipAddress, contexts, reason, unbanReason);
      } else {
        r := source;
      }
    }
  }

  /** Setting every field back to the value it already holds leaves a fresh mutable record unmodified. */
  method SameValuesLeaveUnmodified(source: BanRecord) returns (m: MutableBanRecord, r: BanRecord)
    ensures !m.isModified
    ensures r == source
  {
    m := new MutableBanRecord(source);
    m.SetAuthor(source.staff);
    m.SetIpAddress(source.ipAddress);
    m.SetReason(source.reason);
    m.SetContext(source.contexts);
    if source.unbanDate.Some? {
      m.SetAutoUnbanDate(source.unbanDate.value, 0);
    }
    r := m.AsImmutable();
  }
}
