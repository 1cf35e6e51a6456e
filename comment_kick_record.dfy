/*
 * Comment and kick records, and their change-tracking mutable forms
 * `MutableCommentRecordImpl` and `MutableKickRecordImpl`.
 *
 * The plain records only hold their fields; the mutable forms edit a copy of
 * them, flag a change only when a value differs, and hand back the source
 * record while nothing changed. A comment loaded from the database cannot
 * switch between comment and warning.
 */
module CommentKickRecords {
  import opened JavaLang

  datatype CommentData = CommentData(loaded: bool, id: int, player: Uuid, staff: Option<Uuid>,
                                     commentDate: Time, isWarning: bool, comment: string)

  datatype KickData = KickData(loaded: bool, id: int, player: Uuid, staff: Option<Uuid>,
                               kickDate: Time, isGlobal: bool, serverName: Option<string>,
                               reason: Option<string>)

  /** `CommentRecordImpl`: a field holder. */
  class CommentRecord {
    const data: CommentData

    constructor (data: CommentData)
      ensures this.data == data
    {
      this.data := data;
    }
  }

  /** `KickRecordImpl`: a field holder. */
  class KickRecord {
    const data: KickData

    constructor (data: KickData)
      ensures this.data == data
    {
      this.data := data;
    }
  }

  const CANNOT_SWITCH_TYPE := "Cannot switch comment type of a loaded record"

  class MutableCommentRecord {
    const source: CommentRecord
    var isModified: bool
    var staff: Option<Uuid>
    var isWarning: bool
    var comment: string

    function Data(): CommentData
      reads this
    {
      source.data.(staff := staff, isWarning := isWarning, comment := comment)
    }

    /** Until a setter changes something, the contents are the source's. */
    ghost predicate Valid()
      reads this
    {
      !isModified ==> Data() == source.data
    }

    constructor (source: CommentRecord)
      ensures this.source == source
      ensures Data() == source.data
      ensures !isModified
      ensures Valid()
    {
      this.source := source;
      isModified := false;
      staff := source.data.staff;
      isWarning := source.data.isWarning;
      comment := source.data.comment;
    }

    /** Only a comment that was never saved can switch between comment and warning. */
    predicate CanSwitchWarningMode()
      reads this
    {
      !Data().loaded
    }

    method SetComment(comment: string)
      requires Valid()
      modifies this
      ensures Valid()
      ensures Data() == old(Data()).(comment := comment)
      ensures isModified == (old(isModified) || comment != old(this.comment))
    {
      if this.comment != comment {
        this.comment := comment;
        isModified := true;
      }
    }

    /** Throws for a loaded record, even when the value is the same; otherwise flags only a real change. */
    method SetWarning(warning: bool) returns (r: Outcome<()>)
      requires Valid()
      modifies this
      ensures Valid()
      ensures !old(CanSwitchWarningMode()) ==> r == Throws(IllegalStateException(CANNOT_SWITCH_TYPE))
      ensures old(CanSwitchWarningMode()) ==> r == Ok(())
      ensures r.Throws? ==> Data() == old(Data()) && isModified == old(isModified)
      ensures r.Ok? ==> Data() == old(Data()).(isWarning := warning)
                        && isModified == (old(isModified) || warning != old(isWarning))
    {
      if !CanSwitchWarningMode() {
        return Throws(IllegalStateException(CANNOT_SWITCH_TYPE));
      }
      if isWarning != warning {
        isWarning := warning;
        isModified := true;
      }
      return Ok(());
    }

    method SetAuthor(author: Option<Uuid>)
      requires Valid()
      modifies this
      ensures Valid()
      ensures Data() == old(Data()).(staff := author)
      ensures isModified == (old(isModified) || author != old(staff))
    {
      if staff != author {
        staff := author;
        isModified := true;
      }
    }

    function GetOriginal(): CommentRecord { source }

    /** `asImmutable`: the source while nothing changed, otherwise a new record; either way with the current contents. */
    method AsImmutable() returns (r: CommentRecord)
      requires Valid()
      ensures !isModified ==> r == source
      ensures isModified ==> fresh(r)
      ensures r.data == Data()
    {
      if isModified {
        r := new CommentRecord(Data());
      } else {
        r := source;
      }
    }
  }

  class MutableKickRecord {
    const source: KickRecord
    var isModified: bool
    var staff: Option<Uuid>
    var reason: Option<string>

    function Data(): KickData
      reads this
    {
      source.data.(staff := staff, reason := reason)
    }

    /** Until a setter changes something, the contents are the source's. */
    ghost predicate Valid()
      reads this
    {
      !isModified ==> Data() == source.data
    }

    /** A fresh mutable kick record holds its source's contents and is unmodified. */
    constructor (source: KickRecord)
      ensures this.source == source
      ensures Data() == source.data
      ensures !isModified
      ensures Valid()
    {
      this.source := source;
      isModified := false;
      staff := source.data.staff;
      reason := source.data.reason;
    }

    method SetAuthor(author: Option<Uuid>)
      requires Valid()
      modifies this
      ensures Valid()
      ensures Data() == old(Data()).(staff := author)
      ensures isModified == (old(isModified) || author != old(staff))
    {
      if staff != author {
        staff := author;
        isModified := true;
      }
    }

    method SetReason(reason: Option<string>)
      requires Valid()
      modifies this
      ensures Valid()
      ensures Data() == old(Data()).(reason := reason)
      ensures isModified == (old(isModified) || reason != old(this.reason))
    {
      if this.reason != reason {
        this.reason := reason;
        isModified := true;
      }
    }

    function GetOriginal(): KickRecord { source }

    /** `asImmutable`: the source while nothing changed, otherwise a new record; either way with the current contents. */
    method AsImmutable() returns (r: KickRecord)
      requires Valid()
      ensures !isModified ==> r == source
      ensures isModified ==> fresh(r)
      ensures r.data == Data()
    {
      if isModified {
        r := new KickRecord(Data());
      } else {
        r := source;
      }
    }
  }
}
