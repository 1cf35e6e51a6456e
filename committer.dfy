/*
 * `EventFiringCommitter`: hands a new record to the enforcer and the
 * database, after an ordered chain of checks. For a ban, a mute or a
 * comment the chain is: the player must be known (or unknown players
 * allowed), must not be immune, must not be withheld (when withholding is
 * checked), and the event fired for the record must not be cancelled (when
 * events are fired). A kick needs the player online instead of known. The
 * first check that fails decides the status; when none fails the record the
 * event ends with is enforced and then inserted, once.
 *
 * The platform's answers (known, online, immune, withheld) are parameters;
 * the event handlers, which are code outside the core, are a function from
 * the event as fired to what it reports after the handlers have run.
 */
module Committers {
  import opened JavaLang
  import opened ApiData
  import opened ScopedRecords
  import opened PlayerRecords
  import opened CommentKickRecords

  datatype CommitterMode =
    | DUMMY
    | ALLOW_TARGETING_UNREGISTERED
    | CHECK_WITHHOLD
    | SKIP_EVENTS
    | EVENT_ALLOW_CANCELLATIONS
    | EVENT_ALLOW_MODIFICATIONS

  /** The permissions a player may be immune to, as far as the committer asks. */
  datatype AdminAction = BAN | MUTE | KICK | WARN | COMMENT

  /** The records a committer can be handed. */
  datatype LiveRecord =
    | BanLive(ban: Punishment)
    | MuteLive(mute: Punishment)
    | KickLive(kick: KickData)
    | CommentLive(comment: CommentData)
    | PlayerLive(player: PlayerData)
    | OtherLive

  /** What the platform reports about the record's player. */
  datatype Target = Target(registered: bool, online: bool, immuneTo: set<AdminAction>)

  /** The event the committer fires: the record and the flags the event is built with. */
  datatype EventSetup = EventSetup(record: LiveRecord, cancellable: bool, modifiable: bool, typeChangeable: bool)

  /** What the event reports once the handlers have run: `isCancelled` and `getCurrent`. */
  datatype EventOutcome = EventOutcome(cancelled: bool, current: LiveRecord)

  /** A side effect of a commit. */
  datatype Effect = Enforce(record: LiveRecord) | Insert(record: LiveRecord)

  /** The first status whose check fails, or COMMITTED when none does. */
  function FirstFailing(checks: seq<(bool, CommitStatus)>): (s: CommitStatus)
    ensures s == COMMITTED || exists i :: 0 <= i < |checks| && checks[i].0 && checks[i].1 == s
    ensures forall i :: 0 <= i < |checks| && checks[i].0 ==>
              (s == checks[i].1 || exists j :: 0 <= j < i && checks[j].0 && checks[j].1 == s)
    ensures (forall i :: 0 <= i < |checks| ==> !checks[i].0) ==> s == COMMITTED
  {
    if checks == [] then COMMITTED
    else if checks[0].0 then checks[0].1
    else FirstFailing(checks[1..])
  }

  /** The permission a comment's immunity is checked against: WARN for a warning, COMMENT otherwise. */
  function CommentAction(c: CommentData): AdminAction {
    if c.isWarning then WARN else COMMENT
  }

  /** Whether the player is immune to the record's action; a player record has none. */
  predicate Immune(record: LiveRecord, target: Target) {
    match record
    case BanLive(_) => BAN in target.immuneTo
    case MuteLive(_) => MUTE in target.immuneTo
    case KickLive(_) => KICK in target.immuneTo
    case CommentLive(c) => CommentAction(c) in target.immuneTo
    case _ => false
  }

  /** The event fired for a record: a comment's type may change only when the player is immune to neither permission. */
  function EventFor(modes: set<CommitterMode>, record: LiveRecord, target: Target): EventSetup {
    EventSetup(record, EVENT_ALLOW_CANCELLATIONS in modes, EVENT_ALLOW_MODIFICATIONS in modes,
               record.CommentLive? && WARN !in target.immuneTo && COMMENT !in target.immuneTo)
  }

  /**
   * `commitByExecutor`: the result the committer returns for `record`. A
   * cancelled ban reports the record it was given; a cancelled mute, kick or
   * comment reports the event's current record.
   */
  function Decide(modes: set<CommitterMode>, record: LiveRecord, target: Target, withheld: bool,
                  fire: EventSetup -> EventOutcome): Outcome<CommitResult<LiveRecord>>
  {
    if DUMMY in modes then Ok(CommitResult(record, COMMITTED))
    else if record.PlayerLive? || record.OtherLive? then Throws(CommitException)
    else if record.KickLive? && !target.online then Ok(CommitResult(record, IMPOSSIBLE))
    else if !record.KickLive? && !target.registered && ALLOW_TARGETING_UNREGISTERED !in modes then
      Ok(CommitResult(record, CANCELLED_NOEXIST))
    else if Immune(record, target) then Ok(CommitResult(record, CANCELLED_IMMUNE))
    else if CHECK_WITHHOLD in modes && withheld then Ok(CommitResult(record, WITHHELD))
    else if SKIP_EVENTS in modes then Ok(CommitResult(record, COMMITTED))
    else
      var o := fire(EventFor(modes, record, target));
      if o.cancelled then Ok(CommitResult(if record.BanLive? then record else o.current, CANCELLED))
      else Ok(CommitResult(o.current, COMMITTED))
  }

  /** The side effects of a commit that ended in `r`: enforce and then insert the committed record. */
  function Effects(modes: set<CommitterMode>, r: Outcome<CommitResult<LiveRecord>>): seq<Effect> {
    if DUMMY !in modes && r.Ok? && r.value.status == COMMITTED then [Enforce(r.value.record), Insert(r.value.record)]
    else []
  }

  /** The enforcer and the database, as the list of what was handed to them, in order. */
  class Sink {
    var log: seq<Effect>

    constructor ()
      ensures log == []
    {
      log := [];
    }

    method Enforce(record: LiveRecord)
      modifies this
      ensures log == old(log) + [Effect.Enforce(record)]
    {
      log := log + [Effect.Enforce(record)];
    }

    method Insert(record: LiveRecord)
      modifies this
      ensures log == old(log) + [Effect.Insert(record)]
    {
      log := log + [Effect.Insert(record)];
    }
  }

  class EventFiringCommitter {
    const modes: set<CommitterMode>
    const allowCancellations: bool
    const allowModifications: bool

    constructor (modes: set<CommitterMode>)
      ensures this.modes == modes
      ensures allowCancellations == (EVENT_ALLOW_CANCELLATIONS in modes)
      ensures allowModifications == (EVENT_ALLOW_MODIFICATIONS in modes)
    {
      this.modes := modes;
      allowCancellations := EVENT_ALLOW_CANCELLATIONS in modes;
      allowModifications := EVENT_ALLOW_MODIFICATIONS in modes;
    }

    ghost predicate Valid() {
      allowCancellations == (EVENT_ALLOW_CANCELLATIONS in modes)
      && allowModifications == (EVENT_ALLOW_MODIFICATIONS in modes)
    }

    /**
     * `commitByExecutor`: DUMMY commits without any check or effect; a ban,
     * mute, kick or comment goes through its chain; any other record,
     * including a player record, throws CommitException. Only a COMMITTED
     * result touches the sink.
     */
    method CommitByExecutor(record: LiveRecord, target: Target, withheld: bool,
                            fire: EventSetup -> EventOutcome, sink: Sink)
      returns (r: Outcome<CommitResult<LiveRecord>>)
      requires Valid()
      modifies sink
      ensures r == Decide(modes, record, target, withheld, fire)
      ensures sink.log == old(sink.log) + Effects(modes, r)
    {
      if DUMMY in modes {
        return Ok(CommitResult(record, COMMITTED));
      }
      match record {
        case BanLive(_) =>
          var c := CommitChecked(record, target, withheld, fire, sink);
          r := Ok(c);
        case MuteLive(_) =>
          var c := CommitChecked(record, target, withheld, fire, sink);
          r := Ok(c);
        case KickLive(_) =>
          if !target.online {
            return Ok(CommitResult(record, IMPOSSIBLE));
          }
          var c := CommitChecked(record, target, withheld, fire, sink);
          r := Ok(c);
        case CommentLive(_) =>
          var c := CommitChecked(record, target, withheld, fire, sink);
          r := Ok(c);
        case PlayerLive(_) =>
          r := Throws(CommitException);
        case OtherLive =>
          r := Throws(CommitException);
      }
    }

    /**
     * The chain of the four private `commit` overloads, after the kick's
     * online check: NOEXIST (kicks skip it), IMMUNE, WITHHELD, the event,
     * then enforce and insert.
     */
    method CommitChecked(record: LiveRecord, target: Target, withheld: bool,
                         fire: EventSetup -> EventOutcome, sink: Sink)
      returns (c: CommitResult<LiveRecord>)
      requires Valid() && DUMMY !in modes
      requires record.BanLive? || record.MuteLive? || record.CommentLive? || (record.KickLive? && target.online)
      modifies sink
      ensures Ok(c) == Decide(modes, record, target, withheld, fire)
      ensures sink.log == old(sink.log) + Effects(modes, Ok(c))
    {
      if !record.KickLive? && !target.registered && ALLOW_TARGETING_UNREGISTERED !in modes {
        return CommitResult(record, CANCELLED_NOEXIST);
      }
      if Immune(record, target) {
        return CommitResult(record, CANCELLED_IMMUNE);
      }
      if CHECK_WITHHOLD in modes && withheld {
        return CommitResult(record, WITHHELD);
      }
      var current := record;
      if SKIP_EVENTS !in modes {
        var event := EventSetup(record, allowCancellations, allowModifications,
                                record.CommentLive? && WARN !in target.immuneTo && COMMENT !in target.immuneTo);
        var outcome := fire(event);
        if record.BanLive? {
          if outcome.cancelled {
            return CommitResult(record, CANCELLED);
          }
          current := outcome.current;
        } else {
          current := outcome.current;
          if outcome.cancelled {
            return CommitResult(current, CANCELLED);
          }
        }
      }
      sink.Enforce(current);
      sink.Insert(current);
      c := CommitResult(current, COMMITTED);
    }
  }

  /** `commit(record)`: `commitByExecutor` with no executor; the executor only reaches the event. */
  method Commit(committer: EventFiringCommitter, record: LiveRecord, target: Target, withheld: bool,
                fire: EventSetup -> EventOutcome, sink: Sink)
    returns (r: Outcome<CommitResult<LiveRecord>>)
    requires committer.Valid()
    modifies sink
    ensures r == Decide(committer.modes, record, target, withheld, fire)
    ensures sink.log == old(sink.log) + Effects(committer.modes, r)
  {
    r := committer.CommitByExecutor(record, target, withheld, fire, sink);
  }

  // ---------------------------------------------------------------------------
  // Properties of the decision

  /** The checks of a ban, a mute or a comment, in the order they run. */
  function Chain(modes: set<CommitterMode>, record: LiveRecord, target: Target, withheld: bool,
                 fire: EventSetup -> EventOutcome): seq<(bool, CommitStatus)>
  {
    [ (!target.registered && ALLOW_TARGETING_UNREGISTERED !in modes, CANCELLED_NOEXIST),
      (Immune(record, target), CANCELLED_IMMUNE),
      (CHECK_WITHHOLD in modes && withheld, WITHHELD),
      (SKIP_EVENTS !in modes && fire(EventFor(modes, record, target)).cancelled, CANCELLED) ]
  }

  /** The checks of a kick: online instead of known, then the same three. */
  function KickChain(modes: set<CommitterMode>, record: LiveRecord, target: Target, withheld: bool,
                     fire: EventSetup -> EventOutcome): seq<(bool, CommitStatus)>
  {
    [ (!target.online, IMPOSSIBLE),
      (Immune(record, target), CANCELLED_IMMUNE),
      (CHECK_WITHHOLD in modes && withheld, WITHHELD),
      (SKIP_EVENTS !in modes && fire(EventFor(modes, record, target)).cancelled, CANCELLED) ]
  }

  /** Without DUMMY, the status of a ban, mute or comment is that of the first failing check, in the order NOEXIST, IMMUNE, WITHHELD, CANCELLED. */
  lemma {:induction false} StatusIsFirstFailing(modes: set<CommitterMode>, record: LiveRecord, target: Target, withheld: bool,
                                                fire: EventSetup -> EventOutcome)
    requires DUMMY !in modes && (record.BanLive? || record.MuteLive? || record.CommentLive?)
    ensures var r := Decide(modes, record, target, withheld, fire);
            r.Ok? && r.value.status == FirstFailing(Chain(modes, record, target, withheld, fire))
  {
    var ch := Chain(modes, record, target, withheld, fire);
    assert ch[1..] == [ch[1], ch[2], ch[3]];
    assert ch[1..][1..] == [ch[2], ch[3]];
    assert ch[1..][1..][1..] == [ch[3]];
    assert ch[1..][1..][1..][1..] == [];
  }

  /** Without DUMMY, the status of a kick is that of the first failing check, in the order IMPOSSIBLE, IMMUNE, WITHHELD, CANCELLED. */
  lemma {:induction false} KickStatusIsFirstFailing(modes: set<CommitterMode>, record: LiveRecord, target: Target, withheld: bool,
                                                    fire: EventSetup -> EventOutcome)
    requires DUMMY !in modes && record.KickLive?
    ensures var r := Decide(modes, record, target, withheld, fire);
            r.Ok? && r.value.status == FirstFailing(KickChain(modes, record, target, withheld, fire))
  {
    var ch := KickChain(modes, record, target, withheld, fire);
    assert ch[1..] == [ch[1], ch[2], ch[3]];
    assert ch[1..][1..] == [ch[2], ch[3]];
    assert ch[1..][1..][1..] == [ch[3]];
    assert ch[1..][1..][1..][1..] == [];
  }

  /** A ban, mute or comment is committed exactly when every check passes; it is then the event's current record, or the record itself when events are skipped. */
  lemma CommittedIff(modes: set<CommitterMode>, record: LiveRecord, target: Target, withheld: bool,
                     fire: EventSetup -> EventOutcome)
    requires DUMMY !in modes && (record.BanLive? || record.MuteLive? || record.CommentLive?)
    ensures var r := Decide(modes, record, target, withheld, fire);
            r.Ok? && (r.value.status == COMMITTED <==>
                        (target.registered || ALLOW_TARGETING_UNREGISTERED in modes)
                        && !Immune(record, target)
                        && !(CHECK_WITHHOLD in modes && withheld)
                        && (SKIP_EVENTS in modes || !fire(EventFor(modes, record, target)).cancelled))
    ensures var r := Decide(modes, record, target, withheld, fire);
            r.Ok? && r.value.status == COMMITTED ==>
              r.value.record == (if SKIP_EVENTS in modes then record else fire(EventFor(modes, record, target)).current)
  {
  }

  /** DUMMY commits the record as given, with no check and no effect. */
  lemma DummyCommitsUnchanged(modes: set<CommitterMode>, record: LiveRecord, target: Target, withheld: bool,
                              fire: EventSetup -> EventOutcome)
    requires DUMMY in modes
    ensures Decide(modes, record, target, withheld, fire) == Ok(CommitResult(record, COMMITTED))
    ensures Effects(modes, Decide(modes, record, target, withheld, fire)) == []
  {
  }

  /** Without DUMMY, a player record or any other record throws CommitException; nothing is enforced or inserted. */
  lemma UnhandledThrows(modes: set<CommitterMode>, record: LiveRecord, target: Target, withheld: bool,
                        fire: EventSetup -> EventOutcome)
    requires DUMMY !in modes
    ensures Decide(modes, record, target, withheld, fire).Throws? <==> record.PlayerLive? || record.OtherLive?
    ensures Decide(modes, record, target, withheld, fire).Throws? ==>
              Decide(modes, record, target, withheld, fire) == Throws(CommitException)
              && Effects(modes, Decide(modes, record, target, withheld, fire)) == []
  {
  }

  /** Only COMMITTED has effects, and it has exactly two: enforce, then insert, of the committed record. */
  lemma EffectsOnlyWhenCommitted(modes: set<CommitterMode>, r: Outcome<CommitResult<LiveRecord>>)
    ensures Effects(modes, r) != [] <==> DUMMY !in modes && r.Ok? && r.value.status == COMMITTED
    ensures Effects(modes, r) != [] ==>
              |Effects(modes, r)| == 2 && Effects(modes, r)[0].Enforce? && Effects(modes, r)[1].Insert?
              && Effects(modes, r)[0].record == Effects(modes, r)[1].record == r.value.record
  {
  }

  /** A kick of a player who is not online is IMPOSSIBLE, whatever else holds. */
  lemma OfflineKickImpossible(modes: set<CommitterMode>, k: KickData, target: Target, withheld: bool,
                              fire: EventSetup -> EventOutcome)
    requires DUMMY !in modes && !target.online
    ensures Decide(modes, KickLive(k), target, withheld, fire) == Ok(CommitResult(KickLive(k), IMPOSSIBLE))
  {
  }

  /** A kick never checks whether the player is known: an unknown but online player can be kicked. */
  lemma KickIgnoresRegistration(modes: set<CommitterMode>, k: KickData, target: Target, withheld: bool,
                                fire: EventSetup -> EventOutcome)
    requires DUMMY !in modes
    ensures Decide(modes, KickLive(k), target, withheld, fire)
         == Decide(modes, KickLive(k), target.(registered := true), withheld, fire)
  {
  }

  /** A comment is refused for immunity to WARN when it is a warning and to COMMENT when it is not. */
  lemma CommentImmunity(modes: set<CommitterMode>, c: CommentData, target: Target, withheld: bool,
                        fire: EventSetup -> EventOutcome)
    requires DUMMY !in modes && (target.registered || ALLOW_TARGETING_UNREGISTERED in modes)
    ensures var r := Decide(modes, CommentLive(c), target, withheld, fire);
            r.Ok? && (r.value.status == CANCELLED_IMMUNE <==>
                        (c.isWarning && WARN in target.immuneTo) || (!c.isWarning && COMMENT in target.immuneTo))
  {
  }

  /** The event carries the committer's cancellation and modification modes; only a comment with no immunity may change type. */
  lemma EventFlags(modes: set<CommitterMode>, record: LiveRecord, target: Target)
    ensures var e := EventFor(modes, record, target);
            && e.record == record
            && (e.cancellable <==> EVENT_ALLOW_CANCELLATIONS in modes)
            && (e.modifiable <==> EVENT_ALLOW_MODIFICATIONS in modes)
            && (e.typeChangeable ==> record.CommentLive? && !Immune(record, target))
  {
  }

  /** A cancelled ban reports the record it was given; a cancelled mute reports the event's current record. */
  lemma CancelledReports(modes: set<CommitterMode>, p: Punishment, target: Target, withheld: bool,
                         fire: EventSetup -> EventOutcome)
    requires DUMMY !in modes
    ensures var r := Decide(modes, BanLive(p), target, withheld, fire);
            r.Ok? && r.value.status == CANCELLED ==> r.value.record == BanLive(p)
    ensures var r := Decide(modes, MuteLive(p), target, withheld, fire);
            r.Ok? && r.value.status == CANCELLED ==> r.value.record == fire(EventFor(modes, MuteLive(p), target)).current
  {
  }
}
