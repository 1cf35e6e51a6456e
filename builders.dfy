/*
 * The ban and mute builders: fluent setters that collect the fields of a new
 * record, and `build`, which refuses an end date before the start date.
 *
 * As written, `build` passes the reason where the record constructor expects
 * the context and the context where it expects the reason. The `AsWritten`
 * members keep that order; `Build` is the evidently intended one.
 */
module Builders {
  import opened JavaLang
  import opened ApiData
  import opened ScopedRecords
  import opened BanRecords
  import opened MuteRecords

  const UNBAN_BEFORE_BAN := "Unban date cannot be before ban date"
  const UNMUTE_BEFORE_MUTE := "Unmute date cannot be before mute date"

  /** `plus` on a nullable duration: `null` clears the end date. */
  function EndAfter(start: Time, duration: Option<int>): (r: Option<Time>)
    ensures r.None? <==> duration.None?
    ensures r.Some? ==> r.value - start == duration.value
  {
    if duration.None? then None else Some(start + duration.value)
  }

  /** The check of `build`: an end date strictly before the start date is refused. */
  predicate EndsBeforeStart(start: Time, end: Option<Time>) {
    end.Some? && end.value < start
  }

  class BanBuilder {
    const playerUUID: Option<Uuid>
    const address: Option<string>
    var staffUUID: Option<Uuid>
    var banDate: Time
    var unbanDate: Option<Time>
    var banReason: Option<string>
    var context: Option<string>

    constructor Init(playerUUID: Option<Uuid>, address: Option<string>, now: Time)
      requires playerUUID.Some? || address.Some?
      ensures this.playerUUID == playerUUID && this.address == address
      ensures banDate == now && staffUUID.None? && unbanDate.None? && banReason.None? && context.None?
    {
      this.playerUUID := playerUUID;
      this.address := address;
      staffUUID := None;
      banDate := now;
      unbanDate := None;
      banReason := None;
      context := None;
    }

    method ByStaff(staffUUID: Option<Uuid>)
      modifies this
      ensures this.staffUUID == staffUUID
      ensures banDate == old(banDate) && unbanDate == old(unbanDate)
      ensures banReason == old(banReason) && context == old(context)
    {
      this.staffUUID := staffUUID;
    }

    /** `withBanDate`: a `null` date is refused. */
    method WithBanDate(banDate: Option<Time>) returns (r: Outcome<()>)
      modifies this
      ensures banDate.None? <==> r == Throws(NullPointerException)
      ensures r.Ok? ==> this.banDate == banDate.value
      ensures r.Throws? ==> this.banDate == old(this.banDate)
      ensures staffUUID == old(staffUUID) && unbanDate == old(unbanDate)
      ensures banReason == old(banReason) && context == old(context)
    {
      if banDate.None? {
        return Throws(NullPointerException);
      }
      this.banDate := banDate.value;
      return Ok(());
    }

    method WithUnbanOn(unbanDate: Option<Time>)
      modifies this
      ensures this.unbanDate == unbanDate
      ensures staffUUID == old(staffUUID) && banDate == old(banDate)
      ensures banReason == old(banReason) && context == old(context)
    {
      this.unbanDate := unbanDate;
    }

    /** `withUnbanAfter`: the ban date at the time of the call plus the duration; `null` clears the unban date. */
    method WithUnbanAfter(unbanDuration: Option<int>)
      modifies this
      ensures unbanDate == EndAfter(banDate, unbanDuration)
      ensures staffUUID == old(staffUUID) && banDate == old(banDate)
      ensures banReason == old(banReason) && context == old(context)
    {
      unbanDate := if unbanDuration.None? then None else Some(banDate + unbanDuration.value);
    }

    method WithBanReason(banReason: Option<string>)
      modifies this
      ensures this.banReason == banReason
      ensures staffUUID == old(staffUUID) && banDate == old(banDate)
      ensures unbanDate == old(unbanDate) && context == old(context)
    {
      this.banReason := banReason;
    }

    method WithContext(context: Option<string>)
      modifies this
      ensures this.context == context
      ensures staffUUID == old(staffUUID) && banDate == old(banDate)
      ensures unbanDate == old(unbanDate) && banReason == old(banReason)
    {
      this.context := context;
    }

    /** `build` as written: the reason lands in the context slot and the context in the reason slot. */
    method BuildAsWritten() returns (r: Outcome<BanRecord>)
      ensures EndsBeforeStart(banDate, unbanDate) <==> r == Throws(BuilderException(UNBAN_BEFORE_BAN))
      ensures !EndsBeforeStart(banDate, unbanDate) ==> r.Ok?
      ensures r.Ok? ==> fresh(r.value)
      ensures r.Ok? ==> r.value.Data() == Punishment(false, 0, ACTIVE, playerUUID, staffUUID, None, banDate,
                                                     unbanDate, address, banReason, context, None)
    {
      if unbanDate.Some? && unbanDate.value < banDate {
        return Throws(BuilderException(UNBAN_BEFORE_BAN));
      }
      var record := new BanRecord.NewAsWritten(playerUUID, staffUUID, banDate, unbanDate, address, banReason, context);
      return Ok(record);
    }

    /** `build`: a new active ban with the collected fields, never ending before it starts. */
    method Build() returns (r: Outcome<BanRecord>)
      ensures EndsBeforeStart(banDate, unbanDate) <==> r == Throws(BuilderException(UNBAN_BEFORE_BAN))
      ensures !EndsBeforeStart(banDate, unbanDate) ==> r.Ok?
      ensures r.Ok? ==> fresh(r.value)
      ensures r.Ok? ==> r.value.Data() == Punishment(false, -1, ACTIVE, playerUUID, staffUUID, None, banDate,
                                                     unbanDate, address, context, banReason, None)
      ensures r.Ok? ==> var d := GetDuration(r.value.Data()); d.None? || d.value >= 0
    {
      if unbanDate.Some? && unbanDate.value < banDate {
        return Throws(BuilderException(UNBAN_BEFORE_BAN));
      }
      var record := new BanRecord(playerUUID, staffUUID, banDate, unbanDate, address, context, banReason);
      return Ok(record);
    }
  }

  /** `new BanBuilderImpl(...)`: both the player and the address missing is a `NullPointerException`. */
  method NewBanBuilder(playerUUID: Option<Uuid>, address: Option<string>, now: Time) returns (r: Outcome<BanBuilder>)
    ensures playerUUID.None? && address.None? <==> r == Throws(NullPointerException)
    ensures r.Ok? ==> fresh(r.value) && r.value.playerUUID == playerUUID && r.value.address == address
                      && r.value.banDate == now && r.value.unbanDate.None?
  {
    if playerUUID.None? && address.None? {
      return Throws(NullPointerException);
    }
    var b := new BanBuilder.Init(playerUUID, address, now);
    return Ok(b);
  }

  /**
   * A ban with a reason and no context, built as written, comes out bound to
   * a context named after the reason, and so is not global.
   */
  method ReasonBecomesContext(player: Uuid, now: Time) returns (record: BanRecord)
    ensures record.contexts == Some("griefing") && record.reason.None?
    ensures !IsGlobal(GetScope(record.Data()))
  {
    var b := new BanBuilder.Init(Some(player), None, now);
    b.WithBanReason(Some("griefing"));
    var r := b.BuildAsWritten();
    record := r.value;
  }

  /** Built as intended, the same ban keeps its reason and is global. */
  method ReasonStaysReason(player: Uuid, now: Time) returns (record: BanRecord)
    ensures record.reason == Some("griefing") && record.contexts.None?
    ensures IsGlobal(GetScope(record.Data()))
  {
    var b := new BanBuilder.Init(Some(player), None, now);
    b.WithBanReason(Some("griefing"));
    var r := b.Build();
    record := r.value;
  }

  class MuteBuilder {
    const playerUUID: Option<Uuid>
    const address: Option<string>
    var staffUUID: Option<Uuid>
    var muteDate: Time
    var unmuteDate: Option<Time>
    var muteReason: Option<string>
    var context: Option<string>

    constructor Init(playerUUID: Option<Uuid>, address: Option<string>, now: Time)
      requires playerUUID.Some? || address.Some?
      ensures this.playerUUID == playerUUID && this.address == address
      ensures muteDate == now && staffUUID.None? && unmuteDate.None? && muteReason.None? && context.None?
    {
      this.playerUUID := playerUUID;
      this.address := address;
      staffUUID := None;
      muteDate := now;
      unmuteDate := None;
      muteReason := None;
      context := None;
    }

    method ByStaff(staffUUID: Option<Uuid>)
      modifies this
      ensures this.staffUUID == staffUUID
      ensures muteDate == old(muteDate) && unmuteDate == old(unmuteDate)
      ensures muteReason == old(muteReason) && context == old(context)
    {
      this.staffUUID := staffUUID;
    }

    /** `withMuteDate`: a `null` date is refused. */
    method WithMuteDate(muteDate: Option<Time>) returns (r: Outcome<()>)
      modifies this
      ensures muteDate.None? <==> r == Throws(NullPointerException)
      ensures r.Ok? ==> this.muteDate == muteDate.value
      ensures r.Throws? ==> this.muteDate == old(this.muteDate)
      ensures staffUUID == old(staffUUID) && unmuteDate == old(unmuteDate)
      ensures muteReason == old(muteReason) && context == old(context)
    {
      if muteDate.None? {
        return Throws(NullPointerException);
      }
      this.muteDate := muteDate.value;
      return Ok(());
    }

    method WithUnmuteOn(unmuteDate: Option<Time>)
      modifies this
      ensures this.unmuteDate == unmuteDate
      ensures staffUUID == old(staffUUID) && muteDate == old(muteDate)
      ensures muteReason == old(muteReason) && context == old(context)
    {
      this.unmuteDate := unmuteDate;
    }

    /** `withUnmuteAfter`: the mute date at the time of the call plus the duration; `null` clears the unmute date. */
    method WithUnmuteAfter(unmuteDuration: Option<int>)
      modifies this
      ensures unmuteDate == EndAfter(muteDate, unmuteDuration)
      ensures staffUUID == old(staffUUID) && muteDate == old(muteDate)
      ensures muteReason == old(muteReason) && context == old(context)
    {
      unmuteDate := if unmuteDuration.None? then None else Some(muteDate + unmuteDuration.value);
    }

    method WithMuteReason(muteReason: Option<string>)
      modifies this
      ensures this.muteReason == muteReason
      ensures staffUUID == old(staffUUID) && muteDate == old(muteDate)
      ensures unmuteDate == old(unmuteDate) && context == old(context)
    {
      this.muteReason := muteReason;
    }

    method WithContext(context: Option<string>)
      modifies this
      ensures this.context == context
      ensures staffUUID == old(staffUUID) && muteDate == old(muteDate)
      ensures unmuteDate == old(unmuteDate) && muteReason == old(muteReason)
    {
      this.context := context;
    }

    /** `build` as written: the reason lands in the context slot and the context in the reason slot. */
    method BuildAsWritten() returns (r: Outcome<MuteRecord>)
      ensures EndsBeforeStart(muteDate, unmuteDate) <==> r == Throws(BuilderException(UNMUTE_BEFORE_MUTE))
      ensures !EndsBeforeStart(muteDate, unmuteDate) ==> r.Ok?
      ensures r.Ok? ==> fresh(r.value)
      ensures r.Ok? ==> r.value.Data() == Punishment(false, -1, ACTIVE, playerUUID, staffUUID, None, muteDate,
                                                     unmuteDate, address, muteReason, context, None)
    {
      if unmuteDate.Some? && unmuteDate.value < muteDate {
        return Throws(BuilderException(UNMUTE_BEFORE_MUTE));
      }
      var record := new MuteRecord(playerUUID, staffUUID, muteDate, unmuteDate, address, muteReason, context);
      return Ok(record);
    }

    /** `build`: a new active mute with the collected fields, never ending before it starts. */
    method Build() returns (r: Outcome<MuteRecord>)
      ensures EndsBeforeStart(muteDate, unmuteDate) <==> r == Throws(BuilderException(UNMUTE_BEFORE_MUTE))
      ensures !EndsBeforeStart(muteDate, unmuteDate) ==> r.Ok?
      ensures r.Ok? ==> fresh(r.value)
      ensures r.Ok? ==> r.value.Data() == Punishment(false, -1, ACTIVE, playerUUID, staffUUID, None, muteDate,
                                                     unmuteDate, address, context, muteReason, None)
      ensures r.Ok? ==> var d := GetDuration(r.value.Data()); d.None? || d.value >= 0
    {
      if unmuteDate.Some? && unmuteDate.value < muteDate {
        return Throws(BuilderException(UNMUTE_BEFORE_MUTE));
      }
      var record := new MuteRecord(playerUUID, staffUUID, muteDate, unmuteDate, address, context, muteReason);
      return Ok(record);
    }

    /**
     * `buildAndCommit` as written: it returns `build()` as written, so the
     * record reported as committed has reason and context swapped. No
     * committer sees the record.
     */
    method BuildAndCommitAsWritten() returns (r: Outcome<CommitResult<MuteRecord>>)
      ensures EndsBeforeStart(muteDate, unmuteDate) <==> r == Throws(BuilderException(UNMUTE_BEFORE_MUTE))
      ensures !EndsBeforeStart(muteDate, unmuteDate) ==> r.Ok?
      ensures r.Ok? ==> r.value.status == COMMITTED && fresh(r.value.record)
      ensures r.Ok? ==> r.value.record.Data() == Punishment(false, -1, ACTIVE, playerUUID, staffUUID, None, muteDate,
                                                            unmuteDate, address, muteReason, context, None)
    {
      var built := BuildAsWritten();
      if built.Throws? {
        return Throws(built.ex);
      }
      return Ok(CommitResult(built.value, COMMITTED));
    }

    /** `buildAndCommit` on the corrected `build`: reports the built record as committed without handing it to any committer. */
    method BuildAndCommit() returns (r: Outcome<CommitResult<MuteRecord>>)
      ensures EndsBeforeStart(muteDate, unmuteDate) <==> r == Throws(BuilderException(UNMUTE_BEFORE_MUTE))
      ensures !EndsBeforeStart(muteDate, unmuteDate) ==> r.Ok?
      ensures r.Ok? ==> r.value.status == COMMITTED && fresh(r.value.record)
      ensures r.Ok? ==> r.value.record.Data() == Punishment(false, -1, ACTIVE, playerUUID, staffUUID, None, muteDate,
                                                            unmuteDate, address, context, muteReason, None)
    {
      var built := Build();
      if built.Throws? {
        return Throws(built.ex);
      }
      return Ok(CommitResult(built.value, COMMITTED));
    }
  }

  /**
   * A mute with a reason and no context, built and committed as written,
   * comes out bound to a context named after the reason, and so is not
   * global.
   */
  method MuteReasonBecomesContext(player: Uuid, now: Time) returns (record: MuteRecord)
    ensures record.contexts == Some("spam") && record.reason.None?
    ensures !IsGlobal(GetScope(record.Data()))
  {
    var b := new MuteBuilder.Init(Some(player), None, now);
    b.WithMuteReason(Some("spam"));
    var r := b.BuildAndCommitAsWritten();
    record := r.value.record;
  }

  /** Built and committed as intended, the same mute keeps its reason and is global. */
  method MuteReasonStaysReason(player: Uuid, now: Time) returns (record: MuteRecord)
    ensures record.reason == Some("spam") && record.contexts.None?
    ensures IsGlobal(GetScope(record.Data()))
  {
    var b := new MuteBuilder.Init(Some(player), None, now);
    b.WithMuteReason(Some("spam"));
    var r := b.BuildAndCommit();
    record := r.value.record;
  }

  /** `new MuteBuilderImpl(...)`: both the player and the address missing is a `NullPointerException`. */
  method NewMuteBuilder(playerUUID: Option<Uuid>, address: Option<string>, now: Time) returns (r: Outcome<MuteBuilder>)
    ensures playerUUID.None? && address.None? <==> r == Throws(NullPointerException)
    ensures r.Ok? ==> fresh(r.value) && r.value.playerUUID == playerUUID && r.value.address == address
                      && r.value.muteDate == now && r.value.unmuteDate.None?
  {
    if playerUUID.None? && address.None? {
      return Throws(NullPointerException);
    }
    var b := new MuteBuilder.Init(playerUUID, address, now);
    return Ok(b);
  }
}
