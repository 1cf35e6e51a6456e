# EasyAdmin core, modelled in Dafny

EasyAdmin is a moderation plugin for Minecraft servers: staff ban, mute, kick
and comment on players, and every action is kept as a record in a database.
This project models the layer under the platform adapters. It covers:

- the punishment records and how their state changes;
- the builders that create new records;
- the SQL statements that store and read the records;
- the record cache;
- the committer that decides whether an action happens;
- the priority event bus;
- the command-scope machinery;
- the configuration validators;
- the message and time-range formatting of the i18n package.

Each module mirrors one source file or one closely knit group of files:

| file | module | models |
|---|---|---|
| java_lang.dfy | JavaLang | `null` as `Option`, `int`/`long` wrap-around, exceptions as an `Outcome`, and the few `String`/`Character` methods the code calls |
| api_data.dfy | ApiData | `ActionScope` (three flags, bijective on its eight values) and `PunishmentStatus` with its name round trip |
| scoped_record.dfy | ScopedRecords | the fields shared by bans and mutes, the derived `ScopedRecord`/`MuteRecord` views, and the three termination transitions |
| ban_record.dfy, mute_record.dfy, player_record.dfy, comment_kick_record.dfy | BanRecords, MuteRecords, PlayerRecords, CommentKickRecords | the record classes, their modification objects and the change-tracking mutable records |
| builders.dfy | Builders | the ban and mute builders |
| cache_loader.dfy, cache_group_type.dfy, record_cache.dfy | CacheLoaders, CacheGroups, RecordCaches | the loading cache keyed by group and referrer, with invalidation of relative groups |
| handler_group.dfy, event_bus.dfy, events.dfy | HandlerGroups, EventBus, Events | priority buckets, dispatch order and cancellation, and the admin events with their lazily created mutable record |
| committer.dfy | Committers | the ordered check chain (NOEXIST, IMMUNE, WITHHELD, CANCELLED, COMMITTED), then enforce and insert |
| admin_manager.dfy | AdminManagers | lookups through the cache, first matching context, and unban/unmute counting |
| statement_factory.dfy | StatementFactory | the SQL of every statement, kept as pieces, and the values bound to its `?` placeholders in order |
| database_util.dfy, schema_util.dfy, database_config.dfy | DatabaseUtil, SchemaUtil, DatabaseConfig | the schema-script splitter, the controller choice and the `storage` section |
| utils.dfy | Utils | the duration parser and the address classifier |
| argument_selector.dfy, scoped_command.dfy | Arguments, ScopedCommands | the argument cursor, and the command-name to scope table |
| command_config.dfy, root_config.dfy | CommandConfigs, RootConfigs | the configuration sections and their validators |
| custom_time_unit.dfy, time_unit_locale_map.dfy, time_range_format.dfy | TimeUnits, TimeUnitNames, TimeRanges | time units, their localized names, and time-range formatting |
| messages.dfy, language_group.dfy, message_provider.dfy | Messages, LanguageGroups, MessageProviders | dotted-key message lookup, the language cache with its fallbacks, and the command message keys |
| easyadmin_provider.dfy | Provider | the static API-instance slot |

Several things outside the core become parameters of the operations that
use them:

- the clock (`now`; the unban and unmute loops take one reading per record they end, as `unbanNow` and `unmuteNow` do);
- the database (a function from a query to its result);
- the platform's answers (player known, online, immune or withheld);
- the event handlers;
- the language directory (a map from a language to its file's content);
- the executor's permissions.

Java exceptions are values of `Outcome`, and `null` is `None`. A `long` or
`int` is an unbounded integer. It is wrapped explicitly where the code's
arithmetic can overflow: player statistics, flag packing and the time-unit
arithmetic.

## Behaviour worth noting

- A lifted punishment has status ENDED. A lapsed one becomes EXPIRED only
  through the record's expire transition, and the unban and unmute loops skip
  lapsed records.
- A warning is a comment record with its `isWarning` flag set.
- The builders reject an end date only when it lies before the start date.
  An end date equal to the start date is accepted.
- The schema is a bundled SQL script that is split into statements.
- The committer returns the CANCELLED_NOEXIST, CANCELLED_IMMUNE and
  IMPOSSIBLE statuses, which the API's `CommitStatus` enumeration lacks. The
  model includes them.
- `DatabasePlatform` is not part of this model. Its constants are taken from
  the switch in `DatabaseUtil.createController`.

## Model

| member | source | states |
|---|---|---|
| ApiData.FromFlags | api/src/main/java/com/backwardsnode/easyadmin/api/data/ActionScope.java:128-156 | the scope returned has exactly the temporary, global and IP flags asked for |
| ApiData.FromFlagsOfScope | api/src/main/java/com/backwardsnode/easyadmin/api/data/ActionScope.java:84-156 | every scope is `fromFlags` of its own `isTemporary`, `isGlobal` and `isIP`, so `fromFlags` is onto |
| ApiData.FromFlagsInjective | api/src/main/java/com/backwardsnode/easyadmin/api/data/ActionScope.java:128-156 | two flag triples that give the same scope are equal, so `fromFlags` is one-to-one |
| ApiData.ScopeTable | api/src/main/java/com/backwardsnode/easyadmin/api/data/ActionScope.java:36-72 | `SIZE` is 8, `values()` lists every scope once, and no two scopes share a permission suffix |
| ApiData.FindStatus | api/src/main/java/com/backwardsnode/easyadmin/api/data/PunishmentStatus.java:68-73 | the loop over the values finds a status whose database value is the name, and finds none only when no listed status has it |
| ApiData.StatusValuesComplete | api/src/main/java/com/backwardsnode/easyadmin/api/data/PunishmentStatus.java:33-47 | `values()` holds every status |
| ApiData.StatusFromString | api/src/main/java/com/backwardsnode/easyadmin/api/data/PunishmentStatus.java:67-74 | `fromString` returns a status whose database value is the name, or `null` when no status has that value |
| ApiData.StatusRoundTrip | api/src/main/java/com/backwardsnode/easyadmin/api/data/PunishmentStatus.java:58-74 | `fromString(toString(s))` is `s` for every status |
| ApiData.StatusNamesCaseSensitive | api/src/main/java/com/backwardsnode/easyadmin/api/data/PunishmentStatus.java:67-74 | the comparison is case-sensitive: "ACTIVE", "active" and "ENDED" are not recognised |
| ApiData.StatusNamesDistinct | api/src/main/java/com/backwardsnode/easyadmin/api/data/PunishmentStatus.java:37-47 | the three database values are pairwise distinct |
| ScopedRecords.GetDuration | api/src/main/java/com/backwardsnode/easyadmin/api/record/MuteRecord.java:46-49 | `getDuration` is `null` exactly when there is no termination date, and otherwise the date added plus the duration is the termination date |
| ScopedRecords.GetScope | api/src/main/java/com/backwardsnode/easyadmin/api/record/MuteRecord.java:51-53 | the scope is temporary iff the record is temporary, global iff it has no context, IP iff it has an address |
| ScopedRecords.EndedWithDateIsTemporary | api/src/main/java/com/backwardsnode/easyadmin/api/record/base/ScopedRecord.java:99-109 | an ended record with a termination date is both ended and temporary, and its scope is temporary |
| ScopedRecords.ContextFreeIsGlobal | api/src/main/java/com/backwardsnode/easyadmin/api/record/MuteRecord.java:51-53 | a record without a context has one of the four global scopes |
| ScopedRecords.ReinstatedIsActive | core/src/main/java/com/backwardsnode/easyadmin/core/record/BanRecordImpl.java:174-181 | after `reinstateBan` the record is active, not temporary, not ended, has no duration and keeps every identity field |
| ScopedRecords.TerminatedNowHasEnded | core/src/main/java/com/backwardsnode/easyadmin/core/record/BanRecordImpl.java:183-189 | after `unbanNow` the record is ended and temporary, lasts from its date added to now, and names the given staff and reason |
| ScopedRecords.AutoTerminatedStatus | core/src/main/java/com/backwardsnode/easyadmin/core/record/BanRecordImpl.java:165-172 | `setAutoUnbanDate` makes the record temporary and not ended, expired exactly when the date is before now, with termination staff and reason cleared |
| ScopedRecords.ReinstatedUndoesTermination | core/src/main/java/com/backwardsnode/easyadmin/core/record/BanRecordImpl.java:165-189 | reinstating after any termination gives what reinstating the untouched record gives, and reinstating is idempotent |
| ScopedRecords.MutableAutoTerminatedIdempotent | core/src/main/java/com/backwardsnode/easyadmin/core/record/MutableBanRecordImpl.java:80-90 | the mutable record's `setAutoUnbanDate` with the date it already holds changes nothing |
| ScopedRecords.MutableAgreesWithModifier | core/src/main/java/com/backwardsnode/easyadmin/core/record/MutableBanRecordImpl.java:80-90 | for a new date not in the past the mutable record and the modifier agree; for a past date the mutable record keeps the termination staff and reason the modifier clears |
| BanRecords.BanRecord.LoadAsWritten | core/src/main/java/com/backwardsnode/easyadmin/core/record/BanRecordImpl.java:52-64 | the full constructor as written stores every argument except `id`, which stays 0 |
| BanRecords.BanRecord.Load | core/src/main/java/com/backwardsnode/easyadmin/core/record/BanRecordImpl.java:52-64 | the full constructor with the `id` assignment added stores every argument |
| BanRecords.BanRecord.constructor | core/src/main/java/com/backwardsnode/easyadmin/core/record/BanRecordImpl.java:66-68 | corrected (finding 2): a new ban is not loaded, active, has id -1 and no unban staff or reason |
| BanRecords.BanRecord.NewAsWritten | core/src/main/java/com/backwardsnode/easyadmin/core/record/BanRecordImpl.java:66-68 | the public constructor as written yields id 0, not the -1 it passes |
| BanRecords.BanRecord.CopyAsWritten | core/src/main/java/com/backwardsnode/easyadmin/core/record/BanRecordImpl.java:135-137 | `copy` as written gives a fresh record equal to this one except that its id is 0 |
| BanRecords.BanRecord.Copy | core/src/main/java/com/backwardsnode/easyadmin/core/record/BanRecordImpl.java:135-137 | `copy` with the id kept gives a fresh record with equal contents |
| BanRecords.CopyLosesId | core/src/main/java/com/backwardsnode/easyadmin/core/record/BanRecordImpl.java:52-64 | a loaded ban with id 7, copied as written, comes back with id 0 |
| BanRecords.BanRecordModification.constructor | core/src/main/java/com/backwardsnode/easyadmin/core/record/BanRecordImpl.java:145-148 | the modifier holds a fresh copy of the record and has not changed |
| BanRecords.BanRecordModification.SetAutoUnbanDate | core/src/main/java/com/backwardsnode/easyadmin/core/record/BanRecordImpl.java:165-172 | the copy becomes `AutoTerminated` (expired iff the date is before now, termination staff and reason cleared) and `changed` is the record's loaded flag |
| BanRecords.BanRecordModification.ReinstateBan | core/src/main/java/com/backwardsnode/easyadmin/core/record/BanRecordImpl.java:174-181 | the copy becomes active with every termination field cleared and `changed` is the loaded flag |
| BanRecords.BanRecordModification.UnbanNow | core/src/main/java/com/backwardsnode/easyadmin/core/record/BanRecordImpl.java:183-189 | the copy becomes ended now by the given staff for the given reason and `changed` is the loaded flag |
| BanRecords.ModifyNewBan | core/src/main/java/com/backwardsnode/easyadmin/core/record/BanRecordImpl.java:139-189 | modifying never touches the source record, and a record that was never loaded never reports a change |
| BanRecords.MutableBanRecord.constructor | core/src/main/java/com/backwardsnode/easyadmin/core/record/MutableBanRecordImpl.java:42-45 | the mutable record starts with its source's contents and unmodified |
| BanRecords.MutableBanRecord.SetAuthor | core/src/main/java/com/backwardsnode/easyadmin/core/record/MutableBanRecordImpl.java:48-53 | only the staff changes, and `isModified` becomes set iff the new author differs |
| BanRecords.MutableBanRecord.SetIpAddress | core/src/main/java/com/backwardsnode/easyadmin/core/record/MutableBanRecordImpl.java:56-61 | only the address changes, and `isModified` becomes set iff it differs |
| BanRecords.MutableBanRecord.SetReason | core/src/main/java/com/backwardsnode/easyadmin/core/record/MutableBanRecordImpl.java:64-69 | only the reason changes, and `isModified` becomes set iff it differs |
| BanRecords.MutableBanRecord.SetContext | core/src/main/java/com/backwardsnode/easyadmin/core/record/MutableBanRecordImpl.java:72-77 | only the context changes, and `isModified` becomes set iff it differs |
| BanRecords.MutableBanRecord.SetAutoUnbanDate | core/src/main/java/com/backwardsnode/easyadmin/core/record/MutableBanRecordImpl.java:80-90 | nothing happens for the date already held; otherwise status from the comparison with now, and the termination staff and reason cleared only when active; `isModified` set iff the date differed |
| BanRecords.MutableBanRecord.UnbanNow | core/src/main/java/com/backwardsnode/easyadmin/core/record/MutableBanRecordImpl.java:93-99 | the record becomes ended now by the given staff for the given reason, and is modified |
| BanRecords.MutableBanRecord.AsImmutable | core/src/main/java/com/backwardsnode/easyadmin/core/record/MutableBanRecordImpl.java:112-114 | the source itself while unmodified, otherwise a fresh record; either way with the current contents |
| BanRecords.SameValuesLeaveUnmodified | core/src/main/java/com/backwardsnode/easyadmin/core/record/MutableBanRecordImpl.java:48-77 | setting every field to the value it holds leaves the record unmodified and `asImmutable` returns the source |
| MuteRecords.MuteRecord.Load | core/src/main/java/com/backwardsnode/easyadmin/core/record/MuteRecordImpl.java:52-65 | the full constructor stores every argument, the id included |
| MuteRecords.MuteRecord.constructor | core/src/main/java/com/backwardsnode/easyadmin/core/record/MuteRecordImpl.java:67-69 | a new mute is not loaded, active, has id -1 and no unmute staff or reason |
| MuteRecords.MuteRecord.Copy | core/src/main/java/com/backwardsnode/easyadmin/core/record/MuteRecordImpl.java:137-139 | `copy` gives a fresh record with equal contents |
| MuteRecords.MuteRecordModification.constructor | core/src/main/java/com/backwardsnode/easyadmin/core/record/MuteRecordImpl.java:147-150 | the modifier holds a fresh copy of the record and has not changed |
| MuteRecords.MuteRecordModification.SetAutoUnmuteDate | core/src/main/java/com/backwardsnode/easyadmin/core/record/MuteRecordImpl.java:167-174 | the copy becomes `AutoTerminated` (expired iff the date is before now, termination staff and reason cleared) and `changed` is the record's loaded flag |
| MuteRecords.MuteRecordModification.ReinstateMute | core/src/main/java/com/backwardsnode/easyadmin/core/record/MuteRecordImpl.java:176-183 | the copy becomes active with every termination field cleared and `changed` is the loaded flag |
| MuteRecords.MuteRecordModification.UnmuteNow | core/src/main/java/com/backwardsnode/easyadmin/core/record/MuteRecordImpl.java:185-191 | the copy becomes ended now by the given staff for the given reason and `changed` is the loaded flag |
| MuteRecords.ModifyNewMute | core/src/main/java/com/backwardsnode/easyadmin/core/record/MuteRecordImpl.java:141-191 | modifying never touches the source record, and a record that was never loaded never reports a change |
| MuteRecords.MutableMuteRecord.constructor | core/src/main/java/com/backwardsnode/easyadmin/core/record/MutableMuteRecordImpl.java:42-45 | the mutable record starts with its source's contents and unmodified |
| MuteRecords.MutableMuteRecord.SetAuthor | core/src/main/java/com/backwardsnode/easyadmin/core/record/MutableMuteRecordImpl.java:48-53 | only the staff changes, and `isModified` becomes set iff the new author differs |
| MuteRecords.MutableMuteRecord.SetIpAddress | core/src/main/java/com/backwardsnode/easyadmin/core/record/MutableMuteRecordImpl.java:56-61 | only the address changes, and `isModified` becomes set iff it differs |
| MuteRecords.MutableMuteRecord.SetReason | core/src/main/java/com/backwardsnode/easyadmin/core/record/MutableMuteRecordImpl.java:64-69 | only the reason changes, and `isModified` becomes set iff it differs |
| MuteRecords.MutableMuteRecord.SetContext | core/src/main/java/com/backwardsnode/easyadmin/core/record/MutableMuteRecordImpl.java:72-77 | only the context changes, and `isModified` becomes set iff it differs |
| MuteRecords.MutableMuteRecord.SetAutoUnmuteDate | core/src/main/java/com/backwardsnode/easyadmin/core/record/MutableMuteRecordImpl.java:80-90 | nothing happens for the date already held; otherwise status from the comparison with now, and the termination staff and reason cleared only when active; `isModified` set iff the date differed |
| MuteRecords.MutableMuteRecord.UnmuteNow | core/src/main/java/com/backwardsnode/easyadmin/core/record/MutableMuteRecordImpl.java:93-99 | the record becomes ended now by the given staff for the given reason, and is modified |
| MuteRecords.MutableMuteRecord.AsImmutable | core/src/main/java/com/backwardsnode/easyadmin/core/record/MutableMuteRecordImpl.java:112-114 | the source itself while unmodified, otherwise a fresh record; either way with the current contents |
| MuteRecords.SameValuesLeaveUnmodified | core/src/main/java/com/backwardsnode/easyadmin/core/record/MutableMuteRecordImpl.java:48-77 | setting every field to the value it holds leaves the record unmodified and `asImmutable` returns the source |
| PlayerRecords.PlayerRecord.Load | core/src/main/java/com/backwardsnode/easyadmin/core/record/PlayerRecordImpl.java:49-60 | the full constructor stores every argument |
| PlayerRecords.PlayerRecord.constructor | core/src/main/java/com/backwardsnode/easyadmin/core/record/PlayerRecordImpl.java:62-64 | a new player: not loaded, last join equal to the first join, never left, no play time and no joins counted |
| PlayerRecords.PlayerRecord.WithJoins | core/src/main/java/com/backwardsnode/easyadmin/core/record/PlayerRecordImpl.java:66-68 | as the constructor above, with the given join count |
| PlayerRecords.PlayerRecord.Copy | core/src/main/java/com/backwardsnode/easyadmin/core/record/PlayerRecordImpl.java:118-120 | `copy` gives a fresh record with equal contents |
| PlayerRecords.PlayerRecordModification.constructor | core/src/main/java/com/backwardsnode/easyadmin/core/record/PlayerRecordImpl.java:122-132 | the modifier holds a fresh copy of the record and no group has changed |
| PlayerRecords.PlayerRecordModification.SetUsername | core/src/main/java/com/backwardsnode/easyadmin/core/record/PlayerRecordImpl.java:161-164 | only the username changes; the join-statistics flag becomes the copy's loaded flag; the other flags are kept |
| PlayerRecords.PlayerRecordModification.SetLastJoined | core/src/main/java/com/backwardsnode/easyadmin/core/record/PlayerRecordImpl.java:166-169 | only the last join changes; the join flag becomes the loaded flag |
| PlayerRecords.PlayerRecordModification.SetLastLeft | core/src/main/java/com/backwardsnode/easyadmin/core/record/PlayerRecordImpl.java:171-174 | only the last leave changes; the leave flag becomes the loaded flag |
| PlayerRecords.PlayerRecordModification.SetPlaytime | core/src/main/java/com/backwardsnode/easyadmin/core/record/PlayerRecordImpl.java:176-179 | only the play time changes; the leave flag becomes the loaded flag |
| PlayerRecords.PlayerRecordModification.AddPlaytime | core/src/main/java/com/backwardsnode/easyadmin/core/record/PlayerRecordImpl.java:181-184 | the play time grows by the amount with `long` wrap-around; the leave flag becomes the loaded flag |
| PlayerRecords.PlayerRecordModification.SetTotalJoins | core/src/main/java/com/backwardsnode/easyadmin/core/record/PlayerRecordImpl.java:186-189 | only the join count changes; the join flag becomes the loaded flag |
| PlayerRecords.PlayerRecordModification.IncrementTotalJoins | core/src/main/java/com/backwardsnode/easyadmin/core/record/PlayerRecordImpl.java:191-194 | the join count grows by one with `int` wrap-around; the join flag becomes the loaded flag |
| PlayerRecords.PlayerRecordModification.SetLastServer | core/src/main/java/com/backwardsnode/easyadmin/core/record/PlayerRecordImpl.java:196-199 | only the last server changes; the dynamic flag becomes the loaded flag |
| PlayerRecords.PlayerRecordModification.SetLastAddress | core/src/main/java/com/backwardsnode/easyadmin/core/record/PlayerRecordImpl.java:201-204 | only the last address changes; the join flag (not the dynamic one) becomes the loaded flag |
| PlayerRecords.RecordJoin | core/src/main/java/com/backwardsnode/easyadmin/core/record/PlayerRecordImpl.java:161-204 | recording a join on a loaded player leaves the source untouched and flags the join group only |
| PlayerRecords.MutablePlayerRecord.constructor | core/src/main/java/com/backwardsnode/easyadmin/core/record/MutablePlayerRecordImpl.java:42-45 | the mutable record starts with its source's contents and unmodified |
| PlayerRecords.MutablePlayerRecord.SetUsername | core/src/main/java/com/backwardsnode/easyadmin/core/record/MutablePlayerRecordImpl.java:63-68 | only the username changes; the join flag becomes set iff it differs |
| PlayerRecords.MutablePlayerRecord.SetLastJoined | core/src/main/java/com/backwardsnode/easyadmin/core/record/MutablePlayerRecordImpl.java:71-76 | only the last join changes; the join flag becomes set iff it differs |
| PlayerRecords.MutablePlayerRecord.SetLastLeft | core/src/main/java/com/backwardsnode/easyadmin/core/record/MutablePlayerRecordImpl.java:79-84 | only the last leave changes; the leave flag becomes set iff it differs |
| PlayerRecords.MutablePlayerRecord.SetPlaytime | core/src/main/java/com/backwardsnode/easyadmin/core/record/MutablePlayerRecordImpl.java:87-92 | only the play time changes; the leave flag becomes set iff it differs |
| PlayerRecords.MutablePlayerRecord.AddPlaytime | core/src/main/java/com/backwardsnode/easyadmin/core/record/MutablePlayerRecordImpl.java:95-100 | adding 0 changes nothing; any other amount is added with `long` wrap-around and sets the leave flag |
| PlayerRecords.MutablePlayerRecord.SetTotalJoins | core/src/main/java/com/backwardsnode/easyadmin/core/record/MutablePlayerRecordImpl.java:103-108 | only the join count changes; the join flag becomes set iff it differs |
| PlayerRecords.MutablePlayerRecord.IncrementTotalJoins | core/src/main/java/com/backwardsnode/easyadmin/core/record/MutablePlayerRecordImpl.java:111-114 | the join count always grows by one with `int` wrap-around and the join flag is always set |
| PlayerRecords.MutablePlayerRecord.SetLastServer | core/src/main/java/com/backwardsnode/easyadmin/core/record/MutablePlayerRecordImpl.java:117-122 | only the last server changes; the dynamic flag becomes set iff it differs |
| PlayerRecords.MutablePlayerRecord.SetLastAddress | core/src/main/java/com/backwardsnode/easyadmin/core/record/MutablePlayerRecordImpl.java:125-130 | only the last address changes; the join flag becomes set iff it differs |
| PlayerRecords.MutablePlayerRecord.AsImmutable | core/src/main/java/com/backwardsnode/easyadmin/core/record/MutablePlayerRecordImpl.java:143-145 | the source itself while no flag is set, otherwise a fresh record; either way with the current contents |
| CommentKickRecords.CommentRecord.constructor | core/src/main/java/com/backwardsnode/easyadmin/core/record/CommentRecordImpl.java:45-53 | the comment record holds exactly the given fields |
| CommentKickRecords.KickRecord.constructor | core/src/main/java/com/backwardsnode/easyadmin/core/record/KickRecordImpl.java:47-56 | the kick record holds exactly the given fields |
| CommentKickRecords.MutableCommentRecord.constructor | core/src/main/java/com/backwardsnode/easyadmin/core/record/MutableCommentRecordImpl.java:40-43 | the mutable comment starts with its source's contents and unmodified |
| CommentKickRecords.MutableCommentRecord.SetComment | core/src/main/java/com/backwardsnode/easyadmin/core/record/MutableCommentRecordImpl.java:51-56 | only the text changes; `isModified` becomes set iff it differs |
| CommentKickRecords.MutableCommentRecord.SetWarning | core/src/main/java/com/backwardsnode/easyadmin/core/record/MutableCommentRecordImpl.java:46-67 | a loaded comment throws `IllegalStateException` and changes nothing, even for the same value; otherwise only the warning flag changes and `isModified` becomes set iff it differs |
| CommentKickRecords.MutableCommentRecord.SetAuthor | core/src/main/java/com/backwardsnode/easyadmin/core/record/MutableCommentRecordImpl.java:70-75 | only the staff changes; `isModified` becomes set iff it differs |
| CommentKickRecords.MutableCommentRecord.AsImmutable | core/src/main/java/com/backwardsnode/easyadmin/core/record/MutableCommentRecordImpl.java:88-90 | the source itself while unmodified, otherwise a fresh record; either way with the current contents |
| CommentKickRecords.MutableKickRecord.constructor | core/src/main/java/com/backwardsnode/easyadmin/core/record/MutableKickRecordImpl.java:39-42 | the mutable kick starts with its source's contents and unmodified |
| CommentKickRecords.MutableKickRecord.SetAuthor | core/src/main/java/com/backwardsnode/easyadmin/core/record/MutableKickRecordImpl.java:45-50 | only the staff changes; `isModified` becomes set iff it differs |
| CommentKickRecords.MutableKickRecord.SetReason | core/src/main/java/com/backwardsnode/easyadmin/core/record/MutableKickRecordImpl.java:53-58 | only the reason changes; `isModified` becomes set iff it differs |
| CommentKickRecords.MutableKickRecord.AsImmutable | core/src/main/java/com/backwardsnode/easyadmin/core/record/MutableKickRecordImpl.java:71-73 | the source itself while unmodified, otherwise a fresh record; either way with the current contents |
| Builders.EndAfter | core/src/main/java/com/backwardsnode/easyadmin/core/builder/BanBuilderImpl.java:82-85 | `plus` of a nullable duration: no end date exactly when there is no duration, otherwise the end lies the duration after the start |
| Builders.BanBuilder.ByStaff | core/src/main/java/com/backwardsnode/easyadmin/core/builder/BanBuilderImpl.java:64-67 | only the staff changes |
| Builders.BanBuilder.WithBanDate | core/src/main/java/com/backwardsnode/easyadmin/core/builder/BanBuilderImpl.java:70-73 | a missing date throws `NullPointerException` and changes nothing; otherwise only the ban date changes |
| Builders.BanBuilder.WithUnbanOn | core/src/main/java/com/backwardsnode/easyadmin/core/builder/BanBuilderImpl.java:76-79 | only the unban date changes |
| Builders.BanBuilder.WithUnbanAfter | core/src/main/java/com/backwardsnode/easyadmin/core/builder/BanBuilderImpl.java:82-85 | the unban date becomes the current ban date plus the duration, or is cleared by a missing duration; nothing else changes |
| Builders.BanBuilder.WithBanReason | core/src/main/java/com/backwardsnode/easyadmin/core/builder/BanBuilderImpl.java:88-91 | only the reason changes |
| Builders.BanBuilder.WithContext | core/src/main/java/com/backwardsnode/easyadmin/core/builder/BanBuilderImpl.java:94-97 | only the context changes |
| Builders.BanBuilder.BuildAsWritten | core/src/main/java/com/backwardsnode/easyadmin/core/builder/BanBuilderImpl.java:100-105 | an unban date before the ban date throws `BuilderException`, and only then; otherwise a fresh active ban with the reason in the context slot and the context in the reason slot |
| Builders.BanBuilder.Build | core/src/main/java/com/backwardsnode/easyadmin/core/builder/BanBuilderImpl.java:100-105 | the same check; otherwise a fresh active ban with the collected fields in their own slots, whose duration is never negative |
| Builders.NewBanBuilder | core/src/main/java/com/backwardsnode/easyadmin/core/builder/BanBuilderImpl.java:53-61 | a missing player and a missing address together throw `NullPointerException`, and only then; otherwise the builder starts at now with nothing else set |
| Builders.ReasonBecomesContext | core/src/main/java/com/backwardsnode/easyadmin/core/builder/BanBuilderImpl.java:100-105 | built as written, a ban with reason "griefing" and no context is bound to a context "griefing", has no reason, and is not global |
| Builders.ReasonStaysReason | core/src/main/java/com/backwardsnode/easyadmin/core/builder/BanBuilderImpl.java:100-105 | built as intended, the same ban keeps its reason, has no context, and is global |
| Builders.MuteBuilder.ByStaff | core/src/main/java/com/backwardsnode/easyadmin/core/builder/MuteBuilderImpl.java:61-64 | only the staff changes |
| Builders.MuteBuilder.WithMuteDate | core/src/main/java/com/backwardsnode/easyadmin/core/builder/MuteBuilderImpl.java:67-70 | a missing date throws `NullPointerException` and changes nothing; otherwise only the mute date changes |
| Builders.MuteBuilder.WithUnmuteOn | core/src/main/java/com/backwardsnode/easyadmin/core/builder/MuteBuilderImpl.java:73-76 | only the unmute date changes |
| Builders.MuteBuilder.WithUnmuteAfter | core/src/main/java/com/backwardsnode/easyadmin/core/builder/MuteBuilderImpl.java:79-82 | the unmute date becomes the current mute date plus the duration, or is cleared by a missing duration |
| Builders.MuteBuilder.WithMuteReason | core/src/main/java/com/backwardsnode/easyadmin/core/builder/MuteBuilderImpl.java:85-88 | only the reason changes |
| Builders.MuteBuilder.WithContext | core/src/main/java/com/backwardsnode/easyadmin/core/builder/MuteBuilderImpl.java:91-94 | only the context changes |
| Builders.MuteBuilder.BuildAsWritten | core/src/main/java/com/backwardsnode/easyadmin/core/builder/MuteBuilderImpl.java:97-102 | an unmute date before the mute date throws `BuilderException`, and only then; otherwise a fresh active mute with reason and context swapped |
| Builders.MuteBuilder.Build | core/src/main/java/com/backwardsnode/easyadmin/core/builder/MuteBuilderImpl.java:97-102 | corrected (finding 15): the same check; otherwise a fresh active mute with the collected fields in their own slots, whose duration is never negative |
| Builders.MuteBuilder.BuildAndCommitAsWritten | core/src/main/java/com/backwardsnode/easyadmin/core/builder/MuteBuilderImpl.java:105-111 | as written: an unmute date before the mute date throws `BuilderException`, and only then; otherwise a fresh active mute with reason and context swapped, reported as `COMMITTED` |
| Builders.MuteBuilder.BuildAndCommit | core/src/main/java/com/backwardsnode/easyadmin/core/builder/MuteBuilderImpl.java:105-111 | corrected (finding 15): the outcome of the corrected build, reported as `COMMITTED` without any committer seeing the record |
| Builders.MuteReasonBecomesContext | core/src/main/java/com/backwardsnode/easyadmin/core/builder/MuteBuilderImpl.java:97-102 | as written, a mute built with reason "spam" and no context is bound to context "spam", has no reason and is not global |
| Builders.MuteReasonStaysReason | core/src/main/java/com/backwardsnode/easyadmin/core/builder/MuteBuilderImpl.java:97-102 | corrected, the same mute keeps "spam" as its reason, has no context and is global |
| Builders.NewMuteBuilder | core/src/main/java/com/backwardsnode/easyadmin/core/builder/MuteBuilderImpl.java:51-58 | a missing player and a missing address together throw `NullPointerException`, and only then |
| CacheLoaders.Singleton | core/src/main/java/com/backwardsnode/easyadmin/core/cache/CacheLoader.java:53-55 | `singleton` is tagged as no collection and carries only the single payload |
| CacheLoaders.Collection | core/src/main/java/com/backwardsnode/easyadmin/core/cache/CacheLoader.java:57-59 | `collection` is tagged as a collection and carries only the collection payload |
| CacheLoaders.FactoriesDistinct | core/src/main/java/com/backwardsnode/easyadmin/core/cache/CacheLoader.java:53-59 | the two factories never build the same loader |
| CacheGroups.OnlyPlayerIsSingleton | core/src/main/java/com/backwardsnode/easyadmin/core/cache/CacheGroupType.java:39-60 | a group's load is a collection exactly when the group is not `PLAYER` |
| CacheGroups.FiltersAreActive | core/src/main/java/com/backwardsnode/easyadmin/core/cache/CacheGroupType.java:43-56 | every status-filtered group filters for `ACTIVE` records |
| CacheGroups.RelativesDropTheFilter | core/src/main/java/com/backwardsnode/easyadmin/core/cache/CacheGroupType.java:39-77 | a group has relatives exactly when it is status-filtered, and each relative runs the same query without the filter |
| CacheGroups.RelativesNotSymmetric | core/src/main/java/com/backwardsnode/easyadmin/core/cache/CacheGroupType.java:39-56 | the unfiltered group is a relative of the active one, not the other way round |
| CacheGroups.QueriesDistinct | core/src/main/java/com/backwardsnode/easyadmin/core/cache/CacheGroupType.java:39-58 | no two collection groups run the same query |
| RecordCaches.InfuseAsWrittenIsNoOp | core/src/main/java/com/backwardsnode/easyadmin/core/cache/RecordCache.java:80-98 | with the `instanceof Collection` test as written, which no stored loader passes, infusing leaves the cache unchanged |
| RecordCaches.RecordCache.constructor | core/src/main/java/com/backwardsnode/easyadmin/core/cache/RecordCache.java:43-50 | a new cache is empty and loads through the given database |
| RecordCaches.RecordCache.Get | core/src/main/java/com/backwardsnode/easyadmin/core/cache/RecordCache.java:52-54 | a lookup returns the stored loader or, on a miss, the group's load, and the key then holds what was returned |
| RecordCaches.RecordCache.Insert | core/src/main/java/com/backwardsnode/easyadmin/core/cache/RecordCache.java:56-58 | the key now holds the value; no other key changes |
| RecordCaches.RecordCache.Invalidate | core/src/main/java/com/backwardsnode/easyadmin/core/cache/RecordCache.java:60-62 | exactly the one key is dropped |
| RecordCaches.RecordCache.InvalidateWithRelatives | core/src/main/java/com/backwardsnode/easyadmin/core/cache/RecordCache.java:64-67 | exactly the key and the same referrer's key in each relative group are dropped |
| RecordCaches.RecordCache.Request | core/src/main/java/com/backwardsnode/easyadmin/core/cache/RecordCache.java:70-72 | the collection payload of the loader the lookup finds or loads, which is then stored |
| RecordCaches.RecordCache.RequestSingleton | core/src/main/java/com/backwardsnode/easyadmin/core/cache/RecordCache.java:75-77 | the single payload of the loader the lookup finds or loads, which is then stored |
| RecordCaches.RecordCache.InfuseEach | core/src/main/java/com/backwardsnode/easyadmin/core/cache/RecordCache.java:85-96 | the loop over the key and its relatives adds the value to each present loader that passes the collection test |
| RecordCaches.RecordCache.InfuseIfCollectionPresentAsWritten | core/src/main/java/com/backwardsnode/easyadmin/core/cache/RecordCache.java:80-98 | as written the cache is left unchanged |
| RecordCaches.RecordCache.InfuseIfCollectionPresent | core/src/main/java/com/backwardsnode/easyadmin/core/cache/RecordCache.java:80-98 | corrected: an absent key changes nothing; a present key and each present relative receive the value, and absent keys are not loaded |
| RecordCaches.LookupAfterInsert | core/src/main/java/com/backwardsnode/easyadmin/core/cache/RecordCache.java:56-58 | after `insert` the same key finds the inserted loader |
| RecordCaches.LookupAfterInvalidate | core/src/main/java/com/backwardsnode/easyadmin/core/cache/RecordCache.java:60-62 | after `invalidate` the key loads afresh and every other key is found as before |
| RecordCaches.LookupIsStable | core/src/main/java/com/backwardsnode/easyadmin/core/cache/RecordCache.java:52-54 | asking twice for a key gives the same loader both times |
| RecordCaches.InvalidatingActiveDropsRelative | core/src/main/java/com/backwardsnode/easyadmin/core/cache/RecordCache.java:64-67 | invalidating an active group drops its unfiltered relative, which then loads afresh |
| RecordCaches.OtherKeysSurvive | core/src/main/java/com/backwardsnode/easyadmin/core/cache/RecordCache.java:64-67 | any key outside the group and its relatives for that referrer keeps its loader |
| RecordCaches.InfusedCollectionGrows | core/src/main/java/com/backwardsnode/easyadmin/core/cache/RecordCache.java:86-88 | corrected: a present collection receives the new record at its end |
| RecordCaches.RelativeKeySeq | core/src/main/java/com/backwardsnode/easyadmin/core/cache/RecordCache.java:89-94 | the relative keys are the same referrer's key in each relative group, in order |
| HandlerGroups.Ordinal | api/src/main/java/com/backwardsnode/easyadmin/api/event/EventPriority.java:35-65 | each priority's ordinal is below the number of priorities |
| HandlerGroups.OrdinalInjective | api/src/main/java/com/backwardsnode/easyadmin/api/event/EventPriority.java:35-65 | two priorities share an ordinal exactly when they are the same priority |
| HandlerGroups.FlattenAppend | core/src/main/java/com/backwardsnode/easyadmin/core/event/HandlerGroup.java:56-65 | walking two runs of buckets one after the other yields the handles of the first run, then those of the second |
| HandlerGroups.PrependPlacesHandle | core/src/main/java/com/backwardsnode/easyadmin/core/event/HandlerGroup.java:46-54 | a handle added at a priority is walked after every handle of a lower priority and before every other handle of its own or a higher priority |
| HandlerGroups.NextNonEmpty | core/src/main/java/com/backwardsnode/easyadmin/core/event/HandlerGroup.java:101-104 | the scan stops at the first non-empty bucket from its start, or past the last bucket when there is none |
| HandlerGroups.FlattenFive | core/src/main/java/com/backwardsnode/easyadmin/core/event/HandlerGroup.java:56-65 | with one bucket per priority the walk is the five chains, LOWEST first |
| HandlerGroups.HandlerGroup.AsWritten | core/src/main/java/com/backwardsnode/easyadmin/core/event/HandlerGroup.java:42-44 | as written the list only reserves capacity, so the group holds no bucket |
| HandlerGroups.HandlerGroup.constructor | core/src/main/java/com/backwardsnode/easyadmin/core/event/HandlerGroup.java:42-44 | corrected: one empty bucket per priority |
| HandlerGroups.HandlerGroup.AddHandle | core/src/main/java/com/backwardsnode/easyadmin/core/event/HandlerGroup.java:46-54 | a priority whose bucket the list lacks throws IndexOutOfBoundsException and changes nothing; otherwise the handle becomes the head of its priority's chain and no other bucket changes |
| HandlerGroups.HandlerGroup.GetHandles | core/src/main/java/com/backwardsnode/easyadmin/core/event/HandlerGroup.java:56-65 | the handles of every chain, bucket after bucket |
| HandlerGroups.HandlerGroup.GetHandlesAt | core/src/main/java/com/backwardsnode/easyadmin/core/event/HandlerGroup.java:67-77 | the chain of one priority, newest first; a missing bucket throws IndexOutOfBoundsException |
| HandlerGroups.HandlerGroup.ForEach | core/src/main/java/com/backwardsnode/easyadmin/core/event/HandlerGroup.java:81-126 | a for-each over the group's iterator sees exactly the handles `getHandles` lists, in the same order |
| HandlerGroups.HandleIterator.constructor | core/src/main/java/com/backwardsnode/easyadmin/core/event/HandlerGroup.java:82-86 | a new iterator starts at bucket 0, not advanced, with no node returned |
| HandlerGroups.HandleIterator.ScanFrom | core/src/main/java/com/backwardsnode/easyadmin/core/event/HandlerGroup.java:100-104 | the shared scan finds a node exactly when a bucket from the current one on is non-empty, and then stands on that bucket |
| HandlerGroups.HandleIterator.HasNext | core/src/main/java/com/backwardsnode/easyadmin/core/event/HandlerGroup.java:88-106 | true when the current chain continues, without moving; otherwise true exactly when a later bucket is non-empty |
| HandlerGroups.HandleIterator.Next | core/src/main/java/com/backwardsnode/easyadmin/core/event/HandlerGroup.java:108-124 | the successor in the current chain, else the head of the first non-empty bucket, else nothing |
| HandlerGroups.EmittedAll | core/src/main/java/com/backwardsnode/easyadmin/core/event/HandlerGroup.java:81-126 | once the last non-empty chain is finished the iteration has produced the whole flattened group |
| HandlerGroups.EmitAcross | core/src/main/java/com/backwardsnode/easyadmin/core/event/HandlerGroup.java:112-123 | at a chain's end the next handle produced is the head of the next non-empty bucket |
| HandlerGroups.AsWrittenAddThrows | core/src/main/java/com/backwardsnode/easyadmin/core/event/HandlerGroup.java:42-54 | as written the first `addHandle` throws, whatever the priority, and the group stays empty |
| HandlerGroups.CorrectedOrder | core/src/main/java/com/backwardsnode/easyadmin/core/event/HandlerGroup.java:46-77 | corrected: handles of one priority come back newest first, after those of a lower priority |
| EventBus.Dispatch | core/src/main/java/com/backwardsnode/easyadmin/core/event/CommonEventBus.java:89-99 | every index of a handle that ran is a position in the list, and no more handles run than there are |
| EventBus.DispatchRunsIff | core/src/main/java/com/backwardsnode/easyadmin/core/event/CommonEventBus.java:89-99 | a handle runs exactly when, on the event as the earlier handles left it, the event is not cancellable, the handle ignores cancellation or the event is not cancelled |
| EventBus.NonCancellableRunsAll | core/src/main/java/com/backwardsnode/easyadmin/core/event/CommonEventBus.java:95-98 | on an event that is not `Cancellable` every handle runs, in order |
| EventBus.CancelledRunsOnlyIgnoring | core/src/main/java/com/backwardsnode/easyadmin/core/event/CommonEventBus.java:89-94 | on a cancelled event whose handles keep it cancelled, exactly the handles that ignore cancellation run and the event stays cancelled |
| EventBus.CommonEventBus.constructor | core/src/main/java/com/backwardsnode/easyadmin/core/event/CommonEventBus.java:38-40 | a new bus has no groups |
| EventBus.CommonEventBus.AddHandle | core/src/main/java/com/backwardsnode/easyadmin/core/event/CommonEventBus.java:52-71 | corrected (finding 7): a null argument throws NullPointerException; a class that is not an interface extending the event type throws IllegalArgumentException; otherwise the handle heads its priority's chain in the class's group, created when missing, and no other class changes |
| EventBus.CommonEventBus.AddHandleAsWritten | core/src/main/java/com/backwardsnode/easyadmin/core/event/CommonEventBus.java:52-71 | as written, a null argument throws NullPointerException and a bad class IllegalArgumentException; a new class gets an empty as-written group, which stays in the map while `addHandle` throws IndexOutOfBoundsException; a class whose group is empty throws the same and nothing changes |
| EventBus.AsWrittenBusRegistersNothing | core/src/main/java/com/backwardsnode/easyadmin/core/event/CommonEventBus.java:52-71 | as written, the first and the second registration of a handler on a new bus both throw IndexOutOfBoundsException and the class's group holds no bucket |
| EventBus.CommonEventBus.AddHandleNormal | core/src/main/java/com/backwardsnode/easyadmin/core/event/CommonEventBus.java:42-45 | the same registration at priority NORMAL, not run on cancelled events |
| EventBus.CommonEventBus.AddHandleAt | core/src/main/java/com/backwardsnode/easyadmin/core/event/CommonEventBus.java:47-50 | the same registration at the given priority, not run on cancelled events |
| EventBus.CommonEventBus.GetHandles | core/src/main/java/com/backwardsnode/easyadmin/core/event/CommonEventBus.java:73-82 | the class's handles in group order; none for a class without a group |
| EventBus.CommonEventBus.Call | core/src/main/java/com/backwardsnode/easyadmin/core/event/CommonEventBus.java:84-101 | corrected (finding 7), on a bus whose groups all have their five buckets: nothing runs for a class without a group; otherwise the group's handles run in order as `DispatchRunsIff` says |
| EventBus.CommonEventBus.CallAsWritten | core/src/main/java/com/backwardsnode/easyadmin/core/event/CommonEventBus.java:84-101 | as written: nothing runs for a class without a group; a group without buckets throws IndexOutOfBoundsException from its iterator; a whole group runs as `Dispatch` says |
| EventBus.RunHandles | core/src/main/java/com/backwardsnode/easyadmin/core/event/CommonEventBus.java:89-99 | the handles run in order, each as `ShouldRun` says, and the result is their `Dispatch` |
| EventBus.AsWrittenCallThrows | core/src/main/java/com/backwardsnode/easyadmin/core/event/CommonEventBus.java:52-101 | as written, after a registration on a new bus has thrown, calling an event of that class throws IndexOutOfBoundsException |
| Events.BanEvent.constructor | core/src/main/java/com/backwardsnode/easyadmin/core/event/admin/BanEventImpl.java:53-60 | the event is announced as `BanEvent`, holds the record, is neither cancelled nor sealed, and has no mutable copy yet |
| Events.BanEvent.GetCurrent | core/src/main/java/com/backwardsnode/easyadmin/core/event/admin/BanEventImpl.java:87-90 | the original record until the mutable copy has been modified, then a new immutable record with the copy's contents |
| Events.BanEvent.GetMutable | core/src/main/java/com/backwardsnode/easyadmin/core/event/admin/BanEventImpl.java:182-190 | an event that cannot be modified throws ImmutableEventException; otherwise the one mutable copy, created unmodified on first use |
| Events.BanEvent.SetAuthor | core/src/main/java/com/backwardsnode/easyadmin/core/event/admin/BanEventImpl.java:153-155 | changes the current record's staff, or throws ImmutableEventException and changes nothing |
| Events.BanEvent.SetIpAddress | core/src/main/java/com/backwardsnode/easyadmin/core/event/admin/BanEventImpl.java:158-160 | changes the current record's address, or throws ImmutableEventException and changes nothing |
| Events.BanEvent.SetReason | core/src/main/java/com/backwardsnode/easyadmin/core/event/admin/BanEventImpl.java:163-165 | changes the current record's reason, or throws ImmutableEventException and changes nothing |
| Events.BanEvent.SetContext | core/src/main/java/com/backwardsnode/easyadmin/core/event/admin/BanEventImpl.java:168-170 | changes the current record's context, or throws ImmutableEventException and changes nothing |
| Events.BanEvent.SetAutoUnbanDate | core/src/main/java/com/backwardsnode/easyadmin/core/event/admin/BanEventImpl.java:173-175 | applies the mutable record's automatic-unban rule to the current record, or throws ImmutableEventException and changes nothing |
| Events.BanEvent.UnbanNow | core/src/main/java/com/backwardsnode/easyadmin/core/event/admin/BanEventImpl.java:178-180 | applies the mutable record's unban to the current record, or throws ImmutableEventException and changes nothing |
| Events.MuteEvent.AsWritten | core/src/main/java/com/backwardsnode/easyadmin/core/event/admin/MuteEventImpl.java:53-60 | as written the event is announced under its implementation class |
| Events.MuteEvent.constructor | core/src/main/java/com/backwardsnode/easyadmin/core/event/admin/MuteEventImpl.java:53-60 | corrected: the event is announced as `MuteEvent`, holds the record, is neither cancelled nor sealed, and has no mutable copy yet |
| Events.MuteEvent.GetCurrent | core/src/main/java/com/backwardsnode/easyadmin/core/event/admin/MuteEventImpl.java:67-70 | the original record until the mutable copy has been modified, then a new immutable record with the copy's contents |
| Events.MuteEvent.GetMutable | core/src/main/java/com/backwardsnode/easyadmin/core/event/admin/MuteEventImpl.java:182-190 | an event that cannot be modified throws ImmutableEventException; otherwise the one mutable copy, created unmodified on first use |
| Events.MuteEvent.SetAuthor | core/src/main/java/com/backwardsnode/easyadmin/core/event/admin/MuteEventImpl.java:153-155 | changes the current record's staff, or throws ImmutableEventException and changes nothing |
| Events.MuteEvent.SetIpAddress | core/src/main/java/com/backwardsnode/easyadmin/core/event/admin/MuteEventImpl.java:158-160 | changes the current record's address, or throws ImmutableEventException and changes nothing |
| Events.MuteEvent.SetReason | core/src/main/java/com/backwardsnode/easyadmin/core/event/admin/MuteEventImpl.java:163-165 | changes the current record's reason, or throws ImmutableEventException and changes nothing |
| Events.MuteEvent.SetContext | core/src/main/java/com/backwardsnode/easyadmin/core/event/admin/MuteEventImpl.java:168-170 | changes the current record's context, or throws ImmutableEventException and changes nothing |
| Events.MuteEvent.SetAutoUnmuteDate | core/src/main/java/com/backwardsnode/easyadmin/core/event/admin/MuteEventImpl.java:173-175 | applies the mutable record's automatic-unmute rule to the current record, or throws ImmutableEventException and changes nothing |
| Events.MuteEvent.UnmuteNow | core/src/main/java/com/backwardsnode/easyadmin/core/event/admin/MuteEventImpl.java:178-180 | applies the mutable record's unmute to the current record, or throws ImmutableEventException and changes nothing |
| Events.KickEvent.constructor | core/src/main/java/com/backwardsnode/easyadmin/core/event/admin/KickEventImpl.java:52-59 | the event is announced as `KickEvent`, holds the record, is neither cancelled nor sealed, and has no mutable copy yet |
| Events.KickEvent.GetCurrent | core/src/main/java/com/backwardsnode/easyadmin/core/event/admin/KickEventImpl.java:86-89 | the original record until the mutable copy has been modified, then a new record with the copy's contents |
| Events.KickEvent.GetMutable | core/src/main/java/com/backwardsnode/easyadmin/core/event/admin/KickEventImpl.java:141-149 | an event that cannot be modified throws ImmutableEventException; otherwise the one mutable copy, created unmodified on first use |
| Events.KickEvent.SetReason | core/src/main/java/com/backwardsnode/easyadmin/core/event/admin/KickEventImpl.java:132-134 | changes the current record's reason, or throws ImmutableEventException and changes nothing |
| Events.KickEvent.SetAuthor | core/src/main/java/com/backwardsnode/easyadmin/core/event/admin/KickEventImpl.java:137-139 | changes the current record's staff, or throws ImmutableEventException and changes nothing |
| Events.CommentEvent.constructor | core/src/main/java/com/backwardsnode/easyadmin/core/event/admin/CommentEventImpl.java:53-61 | the event is announced as `CommentEvent`, holds the record and the type-change switch, is neither cancelled nor sealed, and has no mutable copy yet |
| Events.CommentEvent.GetCurrent | core/src/main/java/com/backwardsnode/easyadmin/core/event/admin/CommentEventImpl.java:88-91 | the original record until the mutable copy has been modified, then a new record with the copy's contents |
| Events.CommentEvent.GetMutable | core/src/main/java/com/backwardsnode/easyadmin/core/event/admin/CommentEventImpl.java:151-159 | an event that cannot be modified throws ImmutableEventException; otherwise the one mutable copy, created unmodified on first use |
| Events.CommentEvent.SetComment | core/src/main/java/com/backwardsnode/easyadmin/core/event/admin/CommentEventImpl.java:133-136 | changes the current record's text, or throws ImmutableEventException and changes nothing |
| Events.CommentEvent.SetWarning | core/src/main/java/com/backwardsnode/easyadmin/core/event/admin/CommentEventImpl.java:138-144 | without the type-change switch it throws IllegalStateException; an unmodifiable event throws ImmutableEventException; a loaded record refuses the switch; otherwise the kind changes |
| Events.CommentEvent.SetAuthor | core/src/main/java/com/backwardsnode/easyadmin/core/event/admin/CommentEventImpl.java:146-149 | changes the current record's staff, or throws ImmutableEventException and changes nothing |
| Events.AsWrittenMuteEventUnhandled | core/src/main/java/com/backwardsnode/easyadmin/core/event/admin/MuteEventImpl.java:53-56 | as written a mute event reaches no handler: nothing runs and the event is unchanged |
| Events.MuteEventReachesHandler | core/src/main/java/com/backwardsnode/easyadmin/core/event/admin/MuteEventImpl.java:53-56 | corrected: a handler registered for mute events runs once on a mute event |
| Committers.FirstFailing | core/src/main/java/com/backwardsnode/easyadmin/core/commit/EventFiringCommitter.java:103-136 | the result is COMMITTED or the status of a failing check, and it is the status of the earliest failing check; with none failing it is COMMITTED |
| Committers.EventFiringCommitter.constructor | core/src/main/java/com/backwardsnode/easyadmin/core/commit/EventFiringCommitter.java:58-64 | the cancellation and modification switches are read from the modes |
| Committers.EventFiringCommitter.CommitByExecutor | core/src/main/java/com/backwardsnode/easyadmin/core/commit/EventFiringCommitter.java:73-101 | DUMMY commits the record as given; a ban, mute, kick or comment goes through its checks; a player record or any other record throws CommitException; the enforcer and database receive exactly the effects of the result |
| Committers.EventFiringCommitter.CommitChecked | core/src/main/java/com/backwardsnode/easyadmin/core/commit/EventFiringCommitter.java:103-248 | the checks NOEXIST (not for kicks), IMMUNE, WITHHELD and the event, in that order; a committed record is enforced and then inserted |
| Committers.Commit | core/src/main/java/com/backwardsnode/easyadmin/core/commit/EventFiringCommitter.java:66-69 | `commit` decides and acts as `commitByExecutor` does |
| Committers.StatusIsFirstFailing | core/src/main/java/com/backwardsnode/easyadmin/core/commit/EventFiringCommitter.java:103-212 | without DUMMY a ban, mute or comment ends with the first failing check among NOEXIST, IMMUNE, WITHHELD, CANCELLED |
| Committers.KickStatusIsFirstFailing | core/src/main/java/com/backwardsnode/easyadmin/core/commit/EventFiringCommitter.java:214-248 | without DUMMY a kick ends with the first failing check among IMPOSSIBLE, IMMUNE, WITHHELD, CANCELLED |
| Committers.CommittedIff | core/src/main/java/com/backwardsnode/easyadmin/core/commit/EventFiringCommitter.java:103-212 | a ban, mute or comment is committed exactly when every check passes, and the committed record is the event's current record, or the record itself when events are skipped |
| Committers.DummyCommitsUnchanged | core/src/main/java/com/backwardsnode/easyadmin/core/commit/EventFiringCommitter.java:74-76 | DUMMY commits the record as given with no effect |
| Committers.UnhandledThrows | core/src/main/java/com/backwardsnode/easyadmin/core/commit/EventFiringCommitter.java:78-100 | without DUMMY a player record or an unknown record throws CommitException and nothing is enforced or inserted |
| Committers.EffectsOnlyWhenCommitted | core/src/main/java/com/backwardsnode/easyadmin/core/commit/EventFiringCommitter.java:133-136 | only a COMMITTED result has effects: enforce, then insert, of the committed record |
| Committers.OfflineKickImpossible | core/src/main/java/com/backwardsnode/easyadmin/core/commit/EventFiringCommitter.java:214-218 | a kick of a player who is not online is IMPOSSIBLE |
| Committers.KickIgnoresRegistration | core/src/main/java/com/backwardsnode/easyadmin/core/commit/EventFiringCommitter.java:214-248 | a kick never checks registration: an unknown online player is kicked like a known one |
| Committers.CommentImmunity | core/src/main/java/com/backwardsnode/easyadmin/core/commit/EventFiringCommitter.java:181-186 | a warning is refused for immunity to WARN, a plain comment for immunity to COMMENT |
| Committers.EventFlags | core/src/main/java/com/backwardsnode/easyadmin/core/commit/EventFiringCommitter.java:122-123 | the event carries the committer's cancellation and modification switches, and only a comment whose player is immune to neither permission may change type |
| Committers.CancelledReports | core/src/main/java/com/backwardsnode/easyadmin/core/commit/EventFiringCommitter.java:127-129 | a cancelled ban reports the record it was given; a cancelled mute reports the event's current record |
| AdminManagers.ActiveGroup | core/src/main/java/com/backwardsnode/easyadmin/core/component/AdminManagerImpl.java:66-103 | the active lookups read the group that queries the kind's table, by UUID or by address, for ACTIVE records |
| AdminManagers.FirstMatch | core/src/main/java/com/backwardsnode/easyadmin/core/component/AdminManagerImpl.java:586-596 | a record found is one of the records and applies; nothing is found exactly when no record applies |
| AdminManagers.FirstMatchIsEarliest | core/src/main/java/com/backwardsnode/easyadmin/core/component/AdminManagerImpl.java:586-596 | the record found is the earliest that applies: every record before it does not |
| AdminManagers.FirstMatchContext | core/src/main/java/com/backwardsnode/easyadmin/core/component/AdminManagerImpl.java:586-596 | the loop returns what `FirstMatch` specifies |
| AdminManagers.GetActiveRecord | core/src/main/java/com/backwardsnode/easyadmin/core/component/AdminManagerImpl.java:66-77 | the answer is the first applicable record of the group's collection, which the cache then holds; a group without a collection throws NullPointerException |
| AdminManagers.GetActiveRecordEither | core/src/main/java/com/backwardsnode/easyadmin/core/component/AdminManagerImpl.java:79-86 | the UUID lookup, then the address lookup when the first finds nothing |
| AdminManagers.EitherFallsBack | core/src/main/java/com/backwardsnode/easyadmin/core/component/AdminManagerImpl.java:79-86 | the combined lookup finds nothing exactly when neither lookup does, and a record found by UUID is always preferred |
| AdminManagers.GetRecords | core/src/main/java/com/backwardsnode/easyadmin/core/component/AdminManagerImpl.java:119-131 | without options the group's collection from the cache, loaded on a miss; with options the database's answer, leaving the cache alone |
| AdminManagers.CacheMissQueriesDatabase | core/src/main/java/com/backwardsnode/easyadmin/core/component/AdminManagerImpl.java:119-131 | on a miss the cached path returns what the database gives for the group's query with no options |
| AdminManagers.Select | core/src/main/java/com/backwardsnode/easyadmin/core/component/AdminManagerImpl.java:241-245 | the collected set holds exactly the records the filter accepts |
| AdminManagers.SelectPartitions | core/src/main/java/com/backwardsnode/easyadmin/core/component/AdminManagerImpl.java:241-302 | filtering by a flag and by its negation splits the records into two disjoint sets that cover them |
| AdminManagers.GetCommentRecordsByType | core/src/main/java/com/backwardsnode/easyadmin/core/component/AdminManagerImpl.java:241-254 | without options the cached comments whose warning flag matches; with options the database's typed query, leaving the cache alone |
| AdminManagers.GetKickRecordsByType | core/src/main/java/com/backwardsnode/easyadmin/core/component/AdminManagerImpl.java:290-302 | the player's kicks, cached or from the database, whose global flag matches |
| AdminManagers.GetPlayerRecord | core/src/main/java/com/backwardsnode/easyadmin/core/component/AdminManagerImpl.java:404-407 | the cached player, loaded on a miss |
| AdminManagers.GetOrInitPlayerRecord | core/src/main/java/com/backwardsnode/easyadmin/core/component/AdminManagerImpl.java:420-430 | the existing record, or a new one put in the cache; either way a later lookup finds the returned record |
| AdminManagers.InitPlayerIdempotent | core/src/main/java/com/backwardsnode/easyadmin/core/component/AdminManagerImpl.java:420-430 | a second call finds the first call's record and leaves the cache as it was |
| AdminManagers.InitPlayerKeepsExisting | core/src/main/java/com/backwardsnode/easyadmin/core/component/AdminManagerImpl.java:420-425 | a known player keeps their record; the name and time given are ignored |
| AdminManagers.Committed | core/src/main/java/com/backwardsnode/easyadmin/core/component/AdminManagerImpl.java:446-451 | no more commits succeed than records were handed |
| AdminManagers.EndedAll | core/src/main/java/com/backwardsnode/easyadmin/core/component/AdminManagerImpl.java:444-445 | the i-th record is ended at the i-th clock reading of the run, by the same staff for the same reason |
| AdminManagers.UnpunishCounts | core/src/main/java/com/backwardsnode/easyadmin/core/component/AdminManagerImpl.java:437-459 | the count is the number of handed records whose commit did not throw, and no more records are handed than were read |
| AdminManagers.UnpunishHandsKept | core/src/main/java/com/backwardsnode/easyadmin/core/component/AdminManagerImpl.java:437-459 | with no exception, exactly the records that had not lapsed and were eligible are handed over, once each, in order, the k-th ended at the clock reading `unbanNow` / `unmuteNow` takes on its own turn |
| AdminManagers.UnpunishEndsHanded | core/src/main/java/com/backwardsnode/easyadmin/core/component/AdminManagerImpl.java:444-445 | every handed record has status ENDED, the given staff and reason, and the clock reading of its own turn as end date |
| AdminManagers.UnpunishEligibleAgree | core/src/main/java/com/backwardsnode/easyadmin/core/component/AdminManagerImpl.java:461-492 | two eligibility tests that agree on every record give the same run |
| AdminManagers.CommittedAll | core/src/main/java/com/backwardsnode/easyadmin/core/component/AdminManagerImpl.java:446-451 | when no commit throws, the count is the number of records handed |
| AdminManagers.UnbanWithEventFiringCommitter | core/src/main/java/com/backwardsnode/easyadmin/core/component/AdminManagerImpl.java:446-451 | with the event-firing committer no commit of an ended ban throws, so every handed record is counted |
| AdminManagers.MatchesSomeContext | core/src/main/java/com/backwardsnode/easyadmin/core/component/AdminManagerImpl.java:470-474 | the inner loop finds a context exactly when some context accepts the record |
| AdminManagers.UnpunishStops | core/src/main/java/com/backwardsnode/easyadmin/core/component/AdminManagerImpl.java:441-443 | once the termination-date comparison has thrown, the later records change nothing |
| AdminManagers.UnpunishOne | core/src/main/java/com/backwardsnode/easyadmin/core/component/AdminManagerImpl.java:465-489 | one turn: a lapsed record is skipped, a temporary record with no end date throws, an ineligible record is skipped, otherwise the ended record is committed |
| AdminManagers.UnpunishPlayer | core/src/main/java/com/backwardsnode/easyadmin/core/component/AdminManagerImpl.java:437-492 | corrected (finding 13): the unban and unmute loops, everywhere and in contexts: each ended record takes its own clock reading; the records handed and the count, or the exception that ended the loop |
| AdminManagers.InContextsCoverEverywhere | core/src/main/java/com/backwardsnode/easyadmin/core/component/AdminManagerImpl.java:437-492 | when every record has a context that accepts it, the in-contexts variant lifts exactly what the everywhere variant lifts |
| AdminManagers.InContextsNeedsAContext | core/src/main/java/com/backwardsnode/easyadmin/core/component/AdminManagerImpl.java:461-492 | the in-contexts variant lifts only records some context accepts, once each, in order |
| AdminManagers.KeptEligible | core/src/main/java/com/backwardsnode/easyadmin/core/component/AdminManagerImpl.java:441-474 | every kept record was read, is eligible and had not lapsed |
| AdminManagers.UnpunishGlobal | core/src/main/java/com/backwardsnode/easyadmin/core/component/AdminManagerImpl.java:494-509 | corrected (finding 14): at most one record is handed, so one clock reading is its end time; the active record found by UUID with globals included and no context is ended and committed; the result says whether that commit did not throw; with no record, false |
| AdminManagers.GlobalOnlyFindsGlobal | core/src/main/java/com/backwardsnode/easyadmin/core/component/AdminManagerImpl.java:494-497 | whenever the player has a context-free active record, the global-only lookup finds a record |
| AdminManagers.AsWrittenUnpunishLiftsNothing | core/src/main/java/com/backwardsnode/easyadmin/core/component/AdminManagerImpl.java:437-492 | as written, no ban or mute record passes the `instanceof MutableRecordProvider` test, so the unban and unmute loops hand no record to the committer and count 0 |
| AdminManagers.AsWrittenUnbanReturnsZero | core/src/main/java/com/backwardsnode/easyadmin/core/component/AdminManagerImpl.java:437-459 | as written, a player with one active permanent ban is unbanned everywhere with count 0 and nothing committed, where the corrected loop ends that ban |
| AdminManagers.UnpunishGlobalAsWritten | core/src/main/java/com/backwardsnode/easyadmin/core/component/AdminManagerImpl.java:494-509 | as written, the global-only unban returns false, or the exception of the lookup, and commits nothing |
| ScopedCommands.TemporaryCommands | core/src/main/java/com/backwardsnode/easyadmin/core/command/ScopedCommand.java:51-76 | corrected temporary block: it keeps every earlier name, adds only offered scopes, and names each enabled temporary variant by full name and shorthand |
| ScopedCommands.GlobalCommands | core/src/main/java/com/backwardsnode/easyadmin/core/command/ScopedCommand.java:77-89 | the global block keeps every earlier name, adds only offered scopes, and names each enabled global variant |
| ScopedCommands.IpCommands | core/src/main/java/com/backwardsnode/easyadmin/core/command/ScopedCommand.java:90-95 | the IP block keeps every earlier name, adds only offered scopes, and names the IP variant when enabled |
| ScopedCommands.RootAndShorthandAreDefault | core/src/main/java/com/backwardsnode/easyadmin/core/command/ScopedCommand.java:97-98 | the root and shorthand names select DEFAULT whatever is enabled |
| ScopedCommands.CommandsOnlyOffered | core/src/main/java/com/backwardsnode/easyadmin/core/command/ScopedCommand.java:43-103 | corrected: every name the table knows selects a scope whose flags are all enabled |
| ScopedCommands.EnabledScopesHaveNames | core/src/main/java/com/backwardsnode/easyadmin/core/command/ScopedCommand.java:43-103 | each enabled combination of flags has its full name and its shorthand in the table |
| ScopedCommands.AdvertisedNamesResolve | core/src/main/java/com/backwardsnode/easyadmin/core/command/ScopedCommand.java:43-103 | corrected: every advertised name and alias is a command the table knows |
| ScopedCommands.TemporaryCovers | core/src/main/java/com/backwardsnode/easyadmin/core/command/ScopedCommand.java:51-76 | the corrected temporary block keeps every advertised name resolvable |
| ScopedCommands.GlobalCovers | core/src/main/java/com/backwardsnode/easyadmin/core/command/ScopedCommand.java:77-89 | the global block keeps every advertised name resolvable |
| ScopedCommands.IpCovers | core/src/main/java/com/backwardsnode/easyadmin/core/command/ScopedCommand.java:90-95 | the IP block keeps every advertised name resolvable |
| ScopedCommands.DefaultCovers | core/src/main/java/com/backwardsnode/easyadmin/core/command/ScopedCommand.java:97-100 | the root and shorthand puts keep every advertised name resolvable |
| ScopedCommands.AsWrittenTemporaryIpAlias | core/src/main/java/com/backwardsnode/easyadmin/core/command/ScopedCommand.java:70-75 | as written, with temporary and IP but not global enabled, the advertised alias `t<shorthand>i` is unknown and `gt<shorthand>i` selects TEMPORARY_GLOBAL_IP, which is not enabled |
| ScopedCommands.AsWrittenBanCommand | core/src/main/java/com/backwardsnode/easyadmin/core/command/ScopedCommand.java:70-75 | as written the ban command with TEMPORARY_IP advertises `tbi`, which is unknown, and accepts `gtbi` for TEMPORARY_GLOBAL_IP |
| ScopedCommands.CorrectedTemporaryIpAlias | core/src/main/java/com/backwardsnode/easyadmin/core/command/ScopedCommand.java:70-75 | corrected: `t<shorthand>i` selects TEMPORARY_IP |
| ScopedCommands.ScopedData.constructor | core/src/main/java/com/backwardsnode/easyadmin/core/command/ScopedCommand.java:158-160 | a new state carries the status and the DEFAULT scope |
| ScopedCommands.ScopedData.SetStatus | core/src/main/java/com/backwardsnode/easyadmin/core/command/ScopedCommand.java:171-173 | sets the status; the scope is unchanged |
| ScopedCommands.ScopedData.SetScope | core/src/main/java/com/backwardsnode/easyadmin/core/command/ScopedCommand.java:179-181 | sets the scope; the status is unchanged |
| ScopedCommands.FillTemporary | core/src/main/java/com/backwardsnode/easyadmin/core/command/ScopedCommand.java:51-76 | the constructor's temporary block produces the corrected temporary names and aliases |
| ScopedCommands.FillGlobal | core/src/main/java/com/backwardsnode/easyadmin/core/command/ScopedCommand.java:77-89 | the constructor's global block produces the global names and aliases |
| ScopedCommands.FillIp | core/src/main/java/com/backwardsnode/easyadmin/core/command/ScopedCommand.java:90-95 | the constructor's IP block produces the IP names and aliases |
| ScopedCommands.FillDefault | core/src/main/java/com/backwardsnode/easyadmin/core/command/ScopedCommand.java:97-100 | the constructor's last puts make root and shorthand DEFAULT and advertise the root with its shorthand |
| ScopedCommands.ScopedCommand.constructor | core/src/main/java/com/backwardsnode/easyadmin/core/command/ScopedCommand.java:43-103 | corrected (finding 8): the command table and the advertised names are those the blocks build, temporary, global, IP, then default |
| ScopedCommands.ScopedCommand.LoadState | core/src/main/java/com/backwardsnode/easyadmin/core/command/ScopedCommand.java:128-142 | an unknown name sets ERROR and leaves the scope; a known name sets its scope and then SUCCESS or NO_PERMISSION by that scope's permission |
| ScopedCommands.ScopedCommand.CheckPermission | core/src/main/java/com/backwardsnode/easyadmin/core/command/ScopedCommand.java:149-151 | whether the executor holds the permission `<base>.<suffix of the scope>` |
| ScopedCommands.ScopedCommand.PreExecute | core/src/main/java/com/backwardsnode/easyadmin/core/command/ScopedCommand.java:144-147 | the status `loadState` left |
| ScopedCommands.LoadOutcomes | core/src/main/java/com/backwardsnode/easyadmin/core/command/ScopedCommand.java:128-142 | loading succeeds exactly when the name is known and its scope's permission is held, errs exactly when the name is unknown, and a loaded scope is always enabled |
| ScopedCommands.ScopePermissionsDistinct | core/src/main/java/com/backwardsnode/easyadmin/core/command/ScopedCommand.java:149-151 | different scopes ask for different permissions |
| Arguments.JoinSpacesIsJoin | core/src/main/java/com/backwardsnode/easyadmin/core/command/args/ArgumentSelector.java:128-141 | building the text one argument at a time, with a space between neighbours, is joining the arguments on single spaces |
| Arguments.RemainingSplitsBack | core/src/main/java/com/backwardsnode/easyadmin/core/command/args/ArgumentSelector.java:128-141 | when no argument holds a space, splitting the remaining string on spaces gives back exactly the unread arguments |
| Arguments.ArgumentSelector.constructor | core/src/main/java/com/backwardsnode/easyadmin/core/command/args/ArgumentSelector.java:44-47 | a new cursor is at the start, with nothing processed and nothing to undo |
| Arguments.ArgumentSelector.Advance | core/src/main/java/com/backwardsnode/easyadmin/core/command/args/ArgumentSelector.java:49-57 | returns the old position, moves the cursor by the count, counts one processed argument and remembers the step |
| Arguments.ArgumentSelector.Undo | core/src/main/java/com/backwardsnode/easyadmin/core/command/args/ArgumentSelector.java:59-69 | with no step to take back it throws IllegalStateException("No read history.") and changes nothing; otherwise it takes the step back once |
| Arguments.ArgumentSelector.ReadSingleArgument | core/src/main/java/com/backwardsnode/easyadmin/core/command/args/ArgumentSelector.java:71-79 | the next argument, consumed; past the end a failure that leaves the cursor |
| Arguments.ArgumentSelector.ReadPlayer | core/src/main/java/com/backwardsnode/easyadmin/core/command/args/ArgumentSelector.java:81-97 | the next argument resolved through the player lookup, consumed; past the end a failure that leaves the cursor |
| Arguments.ArgumentSelector.ReadDuration | core/src/main/java/com/backwardsnode/easyadmin/core/command/args/ArgumentSelector.java:99-110 | the next argument parsed as a duration, consumed; past the end a failure that leaves the cursor |
| Arguments.ArgumentSelector.ReadNetworkAddress | core/src/main/java/com/backwardsnode/easyadmin/core/command/args/ArgumentSelector.java:112-118 | always a failure, since no address type is recognised, yet a present argument is still consumed |
| Arguments.ArgumentSelector.ReadRemainingString | core/src/main/java/com/backwardsnode/easyadmin/core/command/args/ArgumentSelector.java:128-141 | the unread arguments joined by single spaces, or empty when none is left; the cursor does not move |
| Arguments.ReadThenUndoTwice | core/src/main/java/com/backwardsnode/easyadmin/core/command/args/ArgumentSelector.java:59-79 | a read followed by an undo returns the cursor to the start, and a second undo throws |
| Utils.GetAddressType | core/src/main/java/com/backwardsnode/easyadmin/core/Utils.java:35-39 | every address is UNKNOWN; no address is recognised as IPv4 or IPv6 |
| Utils.UnitMultiplier | core/src/main/java/com/backwardsnode/easyadmin/core/Utils.java:77-87 | the multiplier is one of the seven table values, non-zero exactly for the unit letters d, h, m, s, w, y in either case, the same for both cases, and 0 for every character `getNumericValue` calls non-numeric |
| Utils.ScanFrom | core/src/main/java/com/backwardsnode/easyadmin/core/Utils.java:55-69 | the loop keeps both accumulators within Java's `long` range, wrapping as Java does |
| Utils.DurationSeconds | core/src/main/java/com/backwardsnode/easyadmin/core/Utils.java:71 | the result is never negative: a negative total becomes `Long.MAX_VALUE` |
| Utils.ParseDurationSeconds | core/src/main/java/com/backwardsnode/easyadmin/core/Utils.java:45-75 | the loop computes the specified scan, and as written the result is always 0 |
| Utils.ScanKeepsDurationAsWritten | core/src/main/java/com/backwardsnode/easyadmin/core/Utils.java:56-61 | as written, every character that reaches the unit branch has multiplier 0, so the total never moves |
| Utils.ParseDurationAsWrittenIsZero | core/src/main/java/com/backwardsnode/easyadmin/core/Utils.java:45-75 | as written every string parses to 0 seconds; "1d" does not give 86400 |
| Utils.ParseDuration | core/src/main/java/com/backwardsnode/easyadmin/core/Utils.java:41-43 | the duration is the parsed number of seconds |
| Utils.DigitValue | core/src/main/java/com/backwardsnode/easyadmin/core/Utils.java:56 | corrected classifier: a character is numeric exactly when it is a decimal digit, with values 0 to 9 |
| Utils.ParseDurationSecondsFixed | core/src/main/java/com/backwardsnode/easyadmin/core/Utils.java:45-75 | the corrected loop computes the scan with digits as the only numeric characters |
| Utils.AccumulateGrows | core/src/main/java/com/backwardsnode/easyadmin/core/Utils.java:66 | accumulating more digits never makes a non-negative number smaller |
| Utils.ScanDigits | core/src/main/java/com/backwardsnode/easyadmin/core/Utils.java:65-68 | a run of digits only extends the number in base 10 and never touches the total |
| Utils.FixedSingleTerm | core/src/main/java/com/backwardsnode/easyadmin/core/Utils.java:45-75 | corrected: a number followed by a unit letter parses to the number times the unit's seconds; "1d" gives 86400 |
| Utils.ScanDigitsKeepDuration | core/src/main/java/com/backwardsnode/easyadmin/core/Utils.java:65-71 | corrected: digits that no unit letter follows are never added to the total |
| DatabaseConfig.PlatformValueOf | core/src/main/java/com/backwardsnode/easyadmin/core/config/DatabaseConfig.java:56-59 | a name found is exactly the name of the platform returned; an unknown name is no platform's name |
| DatabaseConfig.GetDatabasePlatform | core/src/main/java/com/backwardsnode/easyadmin/core/config/DatabaseConfig.java:54-60 | a missing `type` throws NullPointerException; otherwise the platform whose name equals the upper-cased type, or none when no platform has that name |
| DatabaseConfig.PlatformLookupIgnoresCase | core/src/main/java/com/backwardsnode/easyadmin/core/config/DatabaseConfig.java:54-60 | every platform is found from its name written in any mix of letter cases |
| DatabaseConfig.Validate | core/src/main/java/com/backwardsnode/easyadmin/core/config/DatabaseConfig.java:44-48 | an unknown platform fails for key "type"; with a known platform, missing settings fail for key "settings"; otherwise the section is valid |
| DatabaseConfig.GetSetting | core/src/main/java/com/backwardsnode/easyadmin/core/config/DatabaseConfig.java:66-84 | a connection getter throws exactly when there are no settings, and otherwise returns the stored field |
| DatabaseConfig.ValidConfigReadsSettings | core/src/main/java/com/backwardsnode/easyadmin/core/config/DatabaseConfig.java:44-84 | a validated section yields every connection setting as stored |
| DatabaseUtil.CreateController | core/src/main/java/com/backwardsnode/easyadmin/core/database/util/DatabaseUtil.java:43-86 | no controller for an unknown platform; otherwise a loader for the configured platform; SQLite never reads the settings, and with settings present every platform succeeds |
| DatabaseUtil.StripComments | core/src/main/java/com/backwardsnode/easyadmin/core/database/util/DatabaseUtil.java:106-124 | after the loop a still-open comment has no end after its start, a closed line has no comment start, the kept text holds no comment start, and the line only lost characters |
| DatabaseUtil.StripLine | core/src/main/java/com/backwardsnode/easyadmin/core/database/util/DatabaseUtil.java:106-124 | the do-while loop computes `StripComments` |
| DatabaseUtil.LoadSchemaStatements | core/src/main/java/com/backwardsnode/easyadmin/core/database/util/DatabaseUtil.java:88-146 | a missing resource is an IOException; otherwise the statements the splitter emits for the script's lines |
| DatabaseUtil.SplitFromStep | core/src/main/java/com/backwardsnode/easyadmin/core/database/util/DatabaseUtil.java:102-138 | the reader loop from line i is one line step followed by the loop from line i+1 |
| DatabaseUtil.SplitFromAppend | core/src/main/java/com/backwardsnode/easyadmin/core/database/util/DatabaseUtil.java:102-138 | reading two runs of lines is reading the first and then the second from where it left off |
| DatabaseUtil.CommentLineIgnored | core/src/main/java/com/backwardsnode/easyadmin/core/database/util/DatabaseUtil.java:103-105 | a line starting with "--" can be inserted anywhere without changing the statements |
| DatabaseUtil.CollapseKeepsLast | core/src/main/java/com/backwardsnode/easyadmin/core/database/util/DatabaseUtil.java:135 | collapsing runs of spaces keeps the last character when it is not a space |
| DatabaseUtil.SplitFromWellFormed | core/src/main/java/com/backwardsnode/easyadmin/core/database/util/DatabaseUtil.java:102-138 | the loop only ever adds well-formed statements |
| DatabaseUtil.StepLineWellFormed | core/src/main/java/com/backwardsnode/easyadmin/core/database/util/DatabaseUtil.java:126-137 | one line step only ever adds a non-empty statement ending in ';' with no double space |
| DatabaseUtil.StatementsWellFormed | core/src/main/java/com/backwardsnode/easyadmin/core/database/util/DatabaseUtil.java:88-146 | every emitted statement is non-empty, ends in ';' and has no run of two spaces |
| DatabaseUtil.SplitFromNoSemicolon | core/src/main/java/com/backwardsnode/easyadmin/core/database/util/DatabaseUtil.java:126-137 | lines without ';' never emit a statement |
| DatabaseUtil.TrailingTextDropped | core/src/main/java/com/backwardsnode/easyadmin/core/database/util/DatabaseUtil.java:132-141 | text no ';' terminates is dropped: a script without ';' yields no statement |
| DatabaseUtil.PlainLinesAccumulate | core/src/main/java/com/backwardsnode/easyadmin/core/database/util/DatabaseUtil.java:126-130 | plain lines without ';' accumulate in the buffer with no separator |
| DatabaseUtil.ConcatNoSemicolon | core/src/main/java/com/backwardsnode/easyadmin/core/database/util/DatabaseUtil.java:126-130 | concatenating lines without ';' gives text without ';' |
| DatabaseUtil.LinesJoinedWithoutSeparator | core/src/main/java/com/backwardsnode/easyadmin/core/database/util/DatabaseUtil.java:126-137 | plain lines are joined with no separator into one statement, emitted when the last line ends in ';' |
| SchemaUtil.LoadSchemaStatements | core/src/main/java/com/backwardsnode/easyadmin/core/database/SchemaUtil.java:34-92 | a missing resource is an IOException; otherwise the same statements as the database utility's splitter |
| Provider.EasyAdminProvider.constructor | api/src/main/java/com/backwardsnode/easyadmin/api/EasyAdminProvider.java:36 | the slot starts empty |
| Provider.EasyAdminProvider.Get | api/src/main/java/com/backwardsnode/easyadmin/api/EasyAdminProvider.java:45-50 | the registered instance; an empty slot throws IllegalStateException("EasyAdmin has not been initialized yet!") |
| Provider.EasyAdminProvider.Register | api/src/main/java/com/backwardsnode/easyadmin/api/EasyAdminProvider.java:53-58 | fills an empty slot; a second registration throws IllegalStateException and keeps the first instance |
| Provider.EasyAdminProvider.Unregister | api/src/main/java/com/backwardsnode/easyadmin/api/EasyAdminProvider.java:61-63 | empties the slot |
| Provider.Lifecycle | api/src/main/java/com/backwardsnode/easyadmin/api/EasyAdminProvider.java:45-63 | get fails before registration and returns the instance after it; a second registration fails; after unregistering a new instance can be registered and is returned |
| TimeUnits.InMillis | core/src/main/java/com/backwardsnode/easyadmin/core/i18n/time/CustomTimeUnit.java:34-41 | every unit lasts a positive number of milliseconds |
| TimeUnits.Count | core/src/main/java/com/backwardsnode/easyadmin/core/i18n/time/CustomTimeUnit.java:81-83 | for a non-negative duration the result is the number of whole units it holds; a negative duration never counts a positive number |
| TimeUnits.CountMod | core/src/main/java/com/backwardsnode/easyadmin/core/i18n/time/CustomTimeUnit.java:85-87 | for a non-negative duration the result is the number of whole units in what is left after removing whole `modUnit`s |
| TimeUnits.ByDesignation | core/src/main/java/com/backwardsnode/easyadmin/core/i18n/time/CustomTimeUnit.java:97-105 | a unit found for a character has that character as its designation |
| TimeUnits.ByDesignationRoundTrip | core/src/main/java/com/backwardsnode/easyadmin/core/i18n/time/CustomTimeUnit.java:97-105 | looking up a unit's designation gives back that unit |
| TimeUnits.UnknownDesignation | core/src/main/java/com/backwardsnode/easyadmin/core/i18n/time/CustomTimeUnit.java:103-105 | a character that designates no unit is looked up as null |
| TimeUnits.DesignationsDistinct | core/src/main/java/com/backwardsnode/easyadmin/core/i18n/time/CustomTimeUnit.java:34-41 | different units have different designations, so the lookup table loses none |
| TimeUnits.DurationsIncrease | core/src/main/java/com/backwardsnode/easyadmin/core/i18n/time/CustomTimeUnit.java:34-41 | durations strictly increase in declaration order, from millisecond to year |
| TimeUnits.CountOfWholeUnits | core/src/main/java/com/backwardsnode/easyadmin/core/i18n/time/CustomTimeUnit.java:81-83 | counting k whole units gives k |
| TimeUnits.CountModBySmallerUnit | core/src/main/java/com/backwardsnode/easyadmin/core/i18n/time/CustomTimeUnit.java:85-87 | with a modulus unit no longer than the counted unit, `countMod` is always 0 |
| TimeUnitNames.TimeKeyLookup | core/src/main/java/com/backwardsnode/easyadmin/core/i18n/time/CustomTimeUnit.java:61-62 | a key "time.<name>" reads `name` in the file's "time" section, and throws when that entry is not a map |
| TimeUnitNames.UnitKeysLookup | core/src/main/java/com/backwardsnode/easyadmin/core/i18n/time/CustomTimeUnit.java:61-62 | a unit's singular and plural keys read its two names from the "time" section, or both throw |
| TimeUnitNames.TimeUnitLocaleMap.FromTable | core/src/main/java/com/backwardsnode/easyadmin/core/i18n/time/TimeUnitLocaleMap.java:34 | the map holds exactly the given table |
| TimeUnitNames.LookupUnitNames | core/src/main/java/com/backwardsnode/easyadmin/core/i18n/time/TimeUnitLocaleMap.java:37-39 | one loop step yields the unit's pair of names from the file, or the ClassCastException of a broken "time" entry |
| TimeUnitNames.NewTimeUnitLocaleMap | core/src/main/java/com/backwardsnode/easyadmin/core/i18n/time/TimeUnitLocaleMap.java:36-40 | the constructor throws exactly when the "time" entry is not a map; otherwise every unit has the pair of names the file gives |
| TimeUnitNames.DefaultNamesWithoutTimeSection | core/src/main/java/com/backwardsnode/easyadmin/core/i18n/time/TimeUnitLocaleMap.java:46-54 | without a "time" section every unit is named by its default name, with an "s" for the plural |
| TimeUnitNames.FileNamesWin | core/src/main/java/com/backwardsnode/easyadmin/core/i18n/time/TimeUnitLocaleMap.java:46-49 | a singular name the file gives is the one used |
| TimeUnitNames.OneIsPlural | core/src/main/java/com/backwardsnode/easyadmin/core/i18n/time/TimeUnitLocaleMap.java:42-44 | as written, an amount of one is printed with the plural name ("seconds") |
| TimeUnitNames.OneIsSingularWhenCorrected | core/src/main/java/com/backwardsnode/easyadmin/core/i18n/time/TimeUnitLocaleMap.java:42-44 | with the intended rule one takes the singular, two and more the plural, and one no longer prints as written |
| TimeRanges.ParseUnitString | core/src/main/java/com/backwardsnode/easyadmin/core/i18n/time/TimeRangeFormat.java:42-63 | the constructor accepts exactly the non-empty strings of known designations in strictly descending duration, keeps the units in written order, and otherwise throws a DateTimeParseException at index 0 for the empty string or at the first bad character |
| TimeRanges.FromUnitString | core/src/main/java/com/backwardsnode/easyadmin/core/i18n/time/TimeRangeFormat.java:42-63 | the format built from a unit string holds the units the string spells, strictly descending, or the parse exception at the first bad index |
| TimeRanges.TimeRangeFormat.constructor | core/src/main/java/com/backwardsnode/easyadmin/core/i18n/time/TimeRangeFormat.java:36-40 | the units are the first unit followed by the others, in the order given |
| TimeRanges.TimeRangeFormat.GetUnits | core/src/main/java/com/backwardsnode/easyadmin/core/i18n/time/TimeRangeFormat.java:65-67 | a fresh array holding the same units |
| TimeRanges.TimeRangeFormat.ComputeValues | core/src/main/java/com/backwardsnode/easyadmin/core/i18n/time/TimeRangeFormat.java:74-85 | the values array holds each unit's `countMod` by the next unit and the last unit's full count |
| TimeRanges.TimeRangeFormat.Format | core/src/main/java/com/backwardsnode/easyadmin/core/i18n/time/TimeRangeFormat.java:73-96 | the text is the sign of a negative duration and "<value> <name>" for each positive value joined by ", ", or empty when no value is positive |
| TimeRanges.Values | core/src/main/java/com/backwardsnode/easyadmin/core/i18n/time/TimeRangeFormat.java:82-85 | there is one value per unit |
| TimeRanges.DecimalString | core/src/main/java/com/backwardsnode/easyadmin/core/i18n/time/TimeRangeFormat.java:88 | a value is appended as a non-empty string of decimal digits |
| TimeRanges.DecimalRoundTrip | core/src/main/java/com/backwardsnode/easyadmin/core/i18n/time/TimeRangeFormat.java:88 | the appended digits read back as the value |
| TimeRanges.Pieces | core/src/main/java/com/backwardsnode/easyadmin/core/i18n/time/TimeRangeFormat.java:86-90 | at most one non-empty part per unit |
| TimeRanges.AppendPieces | core/src/main/java/com/backwardsnode/easyadmin/core/i18n/time/TimeRangeFormat.java:86-90 | the loop appends "<value> <name>, " for every positive value, in unit order |
| TimeRanges.TerminatedIsJoined | core/src/main/java/com/backwardsnode/easyadmin/core/i18n/time/TimeRangeFormat.java:92-94 | cutting the last two characters of the builder leaves the parts joined by ", " |
| TimeRanges.MagnitudeOfLong | core/src/main/java/com/backwardsnode/easyadmin/core/i18n/time/TimeRangeFormat.java:77-80 | negating a `long` gives its magnitude, except `Long.MIN_VALUE`, which stays negative |
| TimeRanges.CountModOfNegative | core/src/main/java/com/backwardsnode/easyadmin/core/i18n/time/CustomTimeUnit.java:85-87 | a negative duration never counts a positive number of units |
| TimeRanges.NoPositiveValueNoPieces | core/src/main/java/com/backwardsnode/easyadmin/core/i18n/time/TimeRangeFormat.java:86-90 | with no positive value nothing is appended |
| TimeRanges.MinLongFormatsEmpty | core/src/main/java/com/backwardsnode/easyadmin/core/i18n/time/TimeRangeFormat.java:77-95 | `Long.MIN_VALUE` milliseconds print as the empty string, whatever the units |
| TimeRanges.ValuesOnlyLast | core/src/main/java/com/backwardsnode/easyadmin/core/i18n/time/TimeRangeFormat.java:82-85 | as written, for descending units every value but the last is 0 and the last counts the whole duration |
| TimeRanges.HourMinuteAsWritten | core/src/main/java/com/backwardsnode/easyadmin/core/i18n/time/TimeRangeFormat.java:73-96 | as written, 90 minutes in hours and minutes print as "90 minutes" |
| TimeRanges.ValuesCorrected | core/src/main/java/com/backwardsnode/easyadmin/core/i18n/time/TimeRangeFormat.java:82-85 | the intended values: one per unit |
| TimeRanges.HourMinuteCorrected | core/src/main/java/com/backwardsnode/easyadmin/core/i18n/time/TimeRangeFormat.java:73-96 | with the intended values, 90 minutes print as "1 hour, 30 minutes" |
| TimeRanges.CorrectedBounded | core/src/main/java/com/backwardsnode/easyadmin/core/i18n/time/TimeRangeFormat.java:82-85 | with the intended values each unit after the first counts less than one of the unit before it |
| TimeRanges.CorrectedTotal | core/src/main/java/com/backwardsnode/easyadmin/core/i18n/time/TimeRangeFormat.java:82-85 | with the intended values and units dividing each other, the printed values add up to the duration less what is shorter than the last unit |
| Messages.Descend | core/src/main/java/com/backwardsnode/easyadmin/core/i18n/LanguageGroup.java:44-50 | a null map stays null, and an empty path reaches the map itself |
| Messages.Leaf | core/src/main/java/com/backwardsnode/easyadmin/core/i18n/LanguageGroup.java:52-55 | a message is found exactly when the last part names a string entry, and it is that string |
| Messages.LookupMessage | core/src/main/java/com/backwardsnode/easyadmin/core/i18n/LanguageGroup.java:43-56 | the loop walks every part but the last as a section and then reads the leaf: a missing section gives null, a non-map section throws ClassCastException, a key with no parts throws ArrayIndexOutOfBoundsException |
| Messages.DescendNested | core/src/main/java/com/backwardsnode/easyadmin/core/i18n/LanguageGroup.java:47-50 | walking the sections of a nested path reaches the innermost map |
| Messages.FoundAtItsKey | core/src/main/java/com/backwardsnode/easyadmin/core/i18n/LanguageGroup.java:43-56 | a message stored under a dotted path is found again by the key that joins the path with '.', at any depth |
| Messages.MissingSectionIsNull | core/src/main/java/com/backwardsnode/easyadmin/core/i18n/LanguageGroup.java:48-55 | a key whose first section is missing finds null |
| Messages.StringSectionThrows | core/src/main/java/com/backwardsnode/easyadmin/core/i18n/LanguageGroup.java:48-49 | a key whose first section holds a string makes the unchecked cast throw |
| Messages.LeafDecides | core/src/main/java/com/backwardsnode/easyadmin/core/i18n/LanguageGroup.java:52-55 | once the last section is reached, the result is the leaf if it is a string and null otherwise |
| Messages.EmptyFileFindsNothing | core/src/main/java/com/backwardsnode/easyadmin/core/i18n/LanguageGroup.java:48-55 | an empty language file finds nothing and never throws |
| LanguageGroups.LanguageGroup.Of | core/src/main/java/com/backwardsnode/easyadmin/core/i18n/LanguageGroup.java:37-40 | the group holds the given map and time-unit names |
| LanguageGroups.LanguageGroup.GetMessage | core/src/main/java/com/backwardsnode/easyadmin/core/i18n/LanguageGroup.java:43-56 | the result is the dotted-key lookup in the group's file |
| LanguageGroups.NewLanguageGroup | core/src/main/java/com/backwardsnode/easyadmin/core/i18n/LanguageGroup.java:37-40 | the constructor throws exactly when the file's "time" entry is not a map; otherwise the group keeps the map and every unit's names from it |
| MessageProviders.CreateFlagsInt | core/src/main/java/com/backwardsnode/easyadmin/core/i18n/MessageProvider.java:774-784 | the loop computes the number whose bit i is set exactly for the true flags, wrapped to 32 bits |
| MessageProviders.FlagsValueBound | core/src/main/java/com/backwardsnode/easyadmin/core/i18n/MessageProvider.java:774-784 | n flags give a number below 2^n |
| MessageProviders.FlagsFitInInt | core/src/main/java/com/backwardsnode/easyadmin/core/i18n/MessageProvider.java:774-784 | with at most 31 flags nothing wraps, and no flags give 0 |
| MessageProviders.FlagsValueInjective | core/src/main/java/com/backwardsnode/easyadmin/core/i18n/MessageProvider.java:774-784 | different flag lists of the same length give different numbers |
| MessageProviders.BanKeysFollowScheme | core/src/main/java/com/backwardsnode/easyadmin/core/i18n/MessageProvider.java:167-180 | every ban key, for all eight scopes, is "admin." + the scope's stem + ".usage" or ".description" (core/src/main/java/com/backwardsnode/easyadmin/core/i18n/CommonMessages.java:31-88), with no prefix |
| MessageProviders.MuteKeysFollowScheme | core/src/main/java/com/backwardsnode/easyadmin/core/i18n/MessageProvider.java:194-207 | every mute key, for all eight scopes, follows the same scheme (core/src/main/java/com/backwardsnode/easyadmin/core/i18n/CommonMessages.java:146-203) |
| MessageProviders.KickKeyOnlyGlobalMatters | core/src/main/java/com/backwardsnode/easyadmin/core/i18n/MessageProvider.java:186-192 | the kick key depends on the scope only through `isGlobal` |
| MessageProviders.UsageDiffersFromDescription | core/src/main/java/com/backwardsnode/easyadmin/core/i18n/MessageProvider.java:167-207 | for every scope the usage and description keys differ |
| MessageProviders.FailsOnlyWhenAllFail | core/src/main/java/com/backwardsnode/easyadmin/core/i18n/MessageProvider.java:121-140 | the RuntimeException is thrown exactly when the language, the configured default and en_US all fail to load and the language is not en_US |
| MessageProviders.NoGroupOnlyForEnglish | core/src/main/java/com/backwardsnode/easyadmin/core/i18n/MessageProvider.java:121-140 | a null group is returned exactly when en_US itself was asked for and neither it nor the default loads |
| MessageProviders.CachedLanguageWins | core/src/main/java/com/backwardsnode/easyadmin/core/i18n/MessageProvider.java:98-102 | a cached language is always served from the cache |
| MessageProviders.PrefixIffAsked | core/src/main/java/com/backwardsnode/easyadmin/core/i18n/MessageProvider.java:150-161 | the prefix goes in front of the message exactly when the key asks for it |
| MessageProviders.MissingMessagePrintsNull | core/src/main/java/com/backwardsnode/easyadmin/core/i18n/MessageProvider.java:150-161 | a missing message with the prefix asked for prints as the prefix followed by "null" |
| MessageProviders.MessageProvider.Init | core/src/main/java/com/backwardsnode/easyadmin/core/i18n/MessageProvider.java:68-71 | an empty cache and no default group |
| MessageProviders.MessageProvider.LoadLanguage | core/src/main/java/com/backwardsnode/easyadmin/core/i18n/MessageProvider.java:98-119 | the cached group unless a reload is forced; else a group read from the file, which replaces the cached one; an unreadable file gives null and a broken one throws, both leaving the cache alone |
| MessageProviders.MessageProvider.ReloadLanguage | core/src/main/java/com/backwardsnode/easyadmin/core/i18n/MessageProvider.java:94-96 | a forced load: the file's group replaces the cached one, or the exception escapes |
| MessageProviders.MessageProvider.LoadLanguageOrDefault | core/src/main/java/com/backwardsnode/easyadmin/core/i18n/MessageProvider.java:121-140 | the result is the group the resolution names (the language, the default group, the configured default or en_US), null, or the exception, and no cached group is dropped or replaced |
| MessageProviders.MessageProvider.GetMessage | core/src/main/java/com/backwardsnode/easyadmin/core/i18n/MessageProvider.java:150-161 | the message rendered from the resolved group, or the load exceptions, or a NullPointerException for a null group |
| MessageProviders.MessageProvider.GetMessageDefault | core/src/main/java/com/backwardsnode/easyadmin/core/i18n/MessageProvider.java:163-165 | the message in the configured default language |
| MessageProviders.TimeRangeSettingAsWritten | core/src/main/java/com/backwardsnode/easyadmin/core/i18n/MessageProvider.java:86-91 | as written, a bad setting raises a DateTimeParseException, which the IllegalArgumentException handler does not catch |
| MessageProviders.BadSettingsRejected | core/src/main/java/com/backwardsnode/easyadmin/core/i18n/MessageProvider.java:86-91 | an empty setting and one with an unknown letter are both rejected by the parser |
| MessageProviders.TimeRangeSetting | core/src/main/java/com/backwardsnode/easyadmin/core/i18n/MessageProvider.java:86-91 | as intended, a valid setting gives its units and a bad one falls back to days, hours and minutes |
| MessageProviders.NewMessageProvider | core/src/main/java/com/backwardsnode/easyadmin/core/i18n/MessageProvider.java:68-92 | corrected (finding 9): the constructor throws exactly when it loads a broken default file (ClassCastException) or a date format or time-range setting is missing (NullPointerException); otherwise the cache holds just the default language when asked to load it, and the time-range format follows the setting or the fallback |
| MessageProviders.NewDefaultMessageProviderAsWritten | core/src/main/java/com/backwardsnode/easyadmin/core/i18n/MessageProvider.java:64-66 | as written for finding 10, with finding 9 corrected: the two-argument constructor never loads the default language, whatever `loadDefault` says; it fails only on a missing setting, and a bad time-range setting falls back as in the corrected constructor |
| MessageProviders.NewDefaultMessageProvider | core/src/main/java/com/backwardsnode/easyadmin/core/i18n/MessageProvider.java:64-66 | as intended, `loadDefault` is passed on and the default group is loaded from en_US |
| CommandConfigs.FirstThrow | core/src/main/java/com/backwardsnode/easyadmin/core/config/CommandConfig.java:95-103 | the checks run in turn pass exactly when each passes; otherwise the result is the first failing check, all before it having passed |
| CommandConfigs.Validate | core/src/main/java/com/backwardsnode/easyadmin/core/config/CommandConfig.java:95-103 | validation succeeds exactly when all seven sections are present; a failure is a ConfigurationException under the parent path, and a missing `ban` section is the one reported first |
| CommandConfigs.ValidateIsFirstMissing | core/src/main/java/com/backwardsnode/easyadmin/core/config/CommandConfig.java:95-103 | validation reports the first missing section in the order ban, comment, kick, mute, warning, lookup, stafflookup, and only that one |
| CommandConfigs.Read | core/src/main/java/com/backwardsnode/easyadmin/core/config/CommandConfig.java:105-178 | a getter throws NullPointerException exactly when its section is missing, and otherwise returns the section's field |
| CommandConfigs.GetEnabledBanScopes | core/src/main/java/com/backwardsnode/easyadmin/core/config/CommandConfig.java:135-138 | the scope's temporary, global and IP flags are the ban section's switches; a missing section throws |
| CommandConfigs.GetEnabledMuteScopes | core/src/main/java/com/backwardsnode/easyadmin/core/config/CommandConfig.java:140-143 | the scope's temporary, global and IP flags are the mute section's switches; a missing section throws |
| CommandConfigs.ScopeRoundTrip | core/src/main/java/com/backwardsnode/easyadmin/core/config/CommandConfig.java:135-143 | every scope can be configured: switches set to its flags give back exactly that scope |
| CommandConfigs.BanScopeDeterminesSwitches | core/src/main/java/com/backwardsnode/easyadmin/core/config/CommandConfig.java:135-138 | two configurations with the same enabled ban scope agree on all three switches |
| CommandConfigs.ValidatedGettersRead | core/src/main/java/com/backwardsnode/easyadmin/core/config/CommandConfig.java:95-178 | once validated, every getter returns its section's field and none throws |
| CommandConfigs.ThrowingGetterFailsValidation | core/src/main/java/com/backwardsnode/easyadmin/core/config/CommandConfig.java:95-133 | a getter that throws reveals a configuration validation rejects |
| RootConfigs.RootConfig.constructor | core/src/main/java/com/backwardsnode/easyadmin/core/config/RootConfig.java:35-42 | the fields hold what the loader read |
| RootConfigs.RootConfig.Validate | core/src/main/java/com/backwardsnode/easyadmin/core/config/RootConfig.java:45-53 | validation succeeds exactly when storage, uuid and commands are present and each validates; a missing storage section is reported first |
| RootConfigs.ValidateIsFirstThrow | core/src/main/java/com/backwardsnode/easyadmin/core/config/RootConfig.java:45-53 | validation reports the first failing check: the three null checks, then each section's own validator |
| RootConfigs.NestedFailureUsesSectionKey | core/src/main/java/com/backwardsnode/easyadmin/core/config/RootConfig.java:50-52 | a nested section is validated under its own key alone, whatever the root's parent path |
| RootConfigs.RootConfig.GetFeatureConfiguration | core/src/main/java/com/backwardsnode/easyadmin/core/config/RootConfig.java:64-67 | there is never a feature configuration |
| RootConfigs.RootConfig.GetLocaleConfiguration | core/src/main/java/com/backwardsnode/easyadmin/core/config/RootConfig.java:69-72 | the root configuration is its own locale configuration |
| RootConfigs.RootConfig.SetDefaultLanguage | core/src/main/java/com/backwardsnode/easyadmin/core/config/RootConfig.java:91-93 | the locale configuration reports the new language and nothing else changes |
| RootConfigs.RootConfig.SetDateFormat | core/src/main/java/com/backwardsnode/easyadmin/core/config/RootConfig.java:95-97 | the locale configuration reports the new date format and nothing else changes |
| RootConfigs.RootConfig.SetTimeRangeFormat | core/src/main/java/com/backwardsnode/easyadmin/core/config/RootConfig.java:99-101 | the locale configuration reports the new time-range format and nothing else changes |
| RootConfigs.LocaleRoundTrip | core/src/main/java/com/backwardsnode/easyadmin/core/config/RootConfig.java:74-101 | the three locale values set are the three read back, and the sections are untouched |
| StatementFactory.Compare | core/src/main/java/com/backwardsnode/easyadmin/core/database/AbstractStatementFactory.java:215-237 | "<column> = ?" has one placeholder, standing for that column |
| StatementFactory.CompareText | core/src/main/java/com/backwardsnode/easyadmin/core/database/AbstractStatementFactory.java:215-237 | a comparison reads "<column> = ?" |
| StatementFactory.Marks | core/src/main/java/com/backwardsnode/easyadmin/core/database/AbstractStatementFactory.java:55-97 | the VALUES list has one placeholder per column, each for its column, in order |
| StatementFactory.InsertSql | core/src/main/java/com/backwardsnode/easyadmin/core/database/AbstractStatementFactory.java:55-97 | an INSERT has one placeholder per listed column, each for its column, in order |
| StatementFactory.InsertText | core/src/main/java/com/backwardsnode/easyadmin/core/database/AbstractStatementFactory.java:55-97 | every INSERT reads "INSERT INTO <table> (<columns joined by ','>) VALUES (<one ? per column>);" |
| StatementFactory.Assignments | core/src/main/java/com/backwardsnode/easyadmin/core/database/AbstractStatementFactory.java:215-237 | the SET list has one placeholder per assigned column, in order |
| StatementFactory.UpdateSql | core/src/main/java/com/backwardsnode/easyadmin/core/database/AbstractStatementFactory.java:215-237 | an UPDATE's placeholders are those of its assigned columns followed by the key's |
| StatementFactory.UpdateText | core/src/main/java/com/backwardsnode/easyadmin/core/database/AbstractStatementFactory.java:215-237 | every UPDATE reads "UPDATE <table> SET <c> = ?, ... WHERE <key> = ?;" |
| StatementFactory.WhereOneText | core/src/main/java/com/backwardsnode/easyadmin/core/database/AbstractStatementFactory.java:99-137 | every count and single-key lookup reads "<select><table> WHERE <column> = ?;" |
| StatementFactory.CountText | core/src/main/java/com/backwardsnode/easyadmin/core/database/AbstractStatementFactory.java:99-129 | the eight counts read "SELECT COUNT(*) AS count FROM <table> WHERE playerUuid = ?;" or "... staffUuid = ?;" |
| StatementFactory.DateFilterText | core/src/main/java/com/backwardsnode/easyadmin/core/database/AbstractStatementFactory.java:654-665 | the date condition reads " AND <column> BETWEEN ? AND ?" with both bounds, " AND <column> < ?" with only a before-date, " AND <column> > ?" with only an after-date, and is empty otherwise |
| StatementFactory.DateFilter | core/src/main/java/com/backwardsnode/easyadmin/core/database/AbstractStatementFactory.java:654-665 | the date condition's placeholders stand for the after-date and then the before-date, each when present |
| StatementFactory.AddDateFilter | core/src/main/java/com/backwardsnode/easyadmin/core/database/AbstractStatementFactory.java:654-665 | null options throw NullPointerException; otherwise the date condition of the options |
| StatementFactory.SelectTailText | core/src/main/java/com/backwardsnode/easyadmin/core/database/AbstractStatementFactory.java:139-213 | every lookup ends " ORDER BY id DESC LIMIT ? OFFSET ?;" |
| StatementFactory.SelectText | core/src/main/java/com/backwardsnode/easyadmin/core/database/AbstractStatementFactory.java:139-213 | every lookup reads "SELECT * FROM <table> WHERE <key><filter><date condition> ORDER BY id DESC LIMIT ? OFFSET ?;" |
| StatementFactory.PlayerOrAddressText | core/src/main/java/com/backwardsnode/easyadmin/core/database/AbstractStatementFactory.java:199-213 | the combined lookups' key condition reads "(playerUuid = ? OR playerIP = ?)" |
| StatementFactory.StatusFilterText | core/src/main/java/com/backwardsnode/easyadmin/core/database/AbstractStatementFactory.java:171-176 | the status filter reads " AND status = ?" |
| StatementFactory.KeyClause | core/src/main/java/com/backwardsnode/easyadmin/core/database/AbstractStatementFactory.java:139-213 | a lookup's key condition has one placeholder per key column, the player's before the address's |
| StatementFactory.FilterClause | core/src/main/java/com/backwardsnode/easyadmin/core/database/AbstractStatementFactory.java:171-197 | the status or type filter adds one placeholder for that column, and no filter adds none |
| StatementFactory.SelectSql | core/src/main/java/com/backwardsnode/easyadmin/core/database/AbstractStatementFactory.java:139-213 | a lookup's placeholders are its key's, its filter's, its date condition's, then the limit's and the offset's |
| StatementFactory.SelectValues | core/src/main/java/com/backwardsnode/easyadmin/core/database/AbstractStatementFactory.java:139-213 | the values a lookup's placeholders should receive are the key and filter values followed by exactly what `applyOptions` binds: the date placeholders written by `addDateFilter` receive its dates in the same order |
| StatementFactory.KeyRoles | core/src/main/java/com/backwardsnode/easyadmin/core/database/AbstractStatementFactory.java:139-213 | the key's and the filter's placeholders are those of the columns they compare with |
| StatementFactory.Values | core/src/main/java/com/backwardsnode/easyadmin/core/database/AbstractStatementFactory.java:239-652 | the value each placeholder should receive is the one its role selects from the record or the options |
| StatementFactory.InsertValues | core/src/main/java/com/backwardsnode/easyadmin/core/database/AbstractStatementFactory.java:239-293 | an INSERT's placeholders should receive the record's values for its columns |
| StatementFactory.UpdateValues | core/src/main/java/com/backwardsnode/easyadmin/core/database/AbstractStatementFactory.java:573-652 | an UPDATE's placeholders should receive the record's values for its columns, then the key |
| StatementFactory.PositionalIndices | core/src/main/java/com/backwardsnode/easyadmin/core/database/AbstractStatementFactory.java:295-309 | binding values in turn from index 1 sets exactly the indices 1..n, the i-th holding the i-th value |
| StatementFactory.PreparedStatement.constructor | core/src/main/java/com/backwardsnode/easyadmin/core/database/AbstractStatementFactory.java:55-237 | a prepared statement starts with its SQL and no parameter bound |
| StatementFactory.PreparedStatement.Set | core/src/main/java/com/backwardsnode/easyadmin/core/database/AbstractStatementFactory.java:243-248 | a setter binds one index and leaves the others |
| StatementFactory.NotNull | core/src/main/java/com/backwardsnode/easyadmin/core/database/AbstractStatementFactory.java:683-688 | a missing value throws IllegalArgumentException; a present one is returned |
| StatementFactory.OptionsOrDefault | core/src/main/java/com/backwardsnode/easyadmin/core/database/AbstractStatementFactory.java:44-53 | null options become the default: limit 100, offset 0, no date window; other options are kept |
| StatementFactory.ScopedInsertColumns | core/src/main/java/com/backwardsnode/easyadmin/core/database/AbstractStatementFactory.java:59-97 | a ban or mute INSERT lists status, player and staff first, contexts and reason last, and six columns plus one for an address and one for an end date |
| StatementFactory.ScopedInsertOptionalColumns | core/src/main/java/com/backwardsnode/easyadmin/core/database/AbstractStatementFactory.java:59-97 | the address column is written exactly when an address is known, the end date column exactly when one is set |
| StatementFactory.ScopedColumnValues | core/src/main/java/com/backwardsnode/easyadmin/core/database/AbstractStatementFactory.java:295-309 | the record's values for the INSERT's columns are the values `applyCreateStatusAdminRecordStatement` binds |
| StatementFactory.ScopedInsertValues | core/src/main/java/com/backwardsnode/easyadmin/core/database/AbstractStatementFactory.java:295-309 | each placeholder of the chosen INSERT should receive the record's value for its column |
| StatementFactory.ApplyCreateScoped | core/src/main/java/com/backwardsnode/easyadmin/core/database/AbstractStatementFactory.java:295-309 | the index-advancing binder throws IllegalArgumentException exactly for a missing player, and otherwise binds parameters 1..n with status, player, staff, the address if any, the date added, the end date if any, contexts and reason |
| StatementFactory.CreateScopedStatement | core/src/main/java/com/backwardsnode/easyadmin/core/database/AbstractStatementFactory.java:253-259 | getCreateBanStatement and getCreateMuteStatement: the INSERT the record's shape selects, every placeholder bound with the value its column names, or the IllegalArgumentException of a missing player |
| StatementFactory.PlayerColumnValues | core/src/main/java/com/backwardsnode/easyadmin/core/database/AbstractStatementFactory.java:239-251 | a new player binds id, name, address, first join, last join and server |
| StatementFactory.CreatePlayerStatement | core/src/main/java/com/backwardsnode/easyadmin/core/database/AbstractStatementFactory.java:239-251 | the player INSERT with every placeholder bound with the value its column names |
| StatementFactory.BindPlayerInsert | core/src/main/java/com/backwardsnode/easyadmin/core/database/AbstractStatementFactory.java:243-248 | the six setters bind indices 1..6 with the player's column values |
| StatementFactory.CommentColumnValues | core/src/main/java/com/backwardsnode/easyadmin/core/database/AbstractStatementFactory.java:261-272 | a new comment binds player, staff, date, type and text |
| StatementFactory.CreateCommentStatement | core/src/main/java/com/backwardsnode/easyadmin/core/database/AbstractStatementFactory.java:261-272 | the comment INSERT with every placeholder bound with the value its column names |
| StatementFactory.BindComment | core/src/main/java/com/backwardsnode/easyadmin/core/database/AbstractStatementFactory.java:265-269 | the five setters bind indices 1..5 with the comment's column values |
| StatementFactory.KickColumnValues | core/src/main/java/com/backwardsnode/easyadmin/core/database/AbstractStatementFactory.java:274-285 | a new kick binds player, staff, date, scope and reason |
| StatementFactory.CreateKickStatement | core/src/main/java/com/backwardsnode/easyadmin/core/database/AbstractStatementFactory.java:274-285 | the kick INSERT with every placeholder bound with the value its column names |
| StatementFactory.BindKick | core/src/main/java/com/backwardsnode/easyadmin/core/database/AbstractStatementFactory.java:278-282 | the five setters bind indices 1..5 with the kick's column values |
| StatementFactory.WhereOneValues | core/src/main/java/com/backwardsnode/easyadmin/core/database/AbstractStatementFactory.java:311-389 | a single-key statement's one placeholder should receive the key |
| StatementFactory.CountStatement | core/src/main/java/com/backwardsnode/easyadmin/core/database/AbstractStatementFactory.java:311-373 | the eight counts: the count SQL with the player's or staff member's id bound at 1, or IllegalArgumentException for a missing id |
| StatementFactory.RetrievePlayerStatement | core/src/main/java/com/backwardsnode/easyadmin/core/database/AbstractStatementFactory.java:375-381 | the player lookup by id, with the id bound at 1, or IllegalArgumentException for a missing id |
| StatementFactory.RetrievePlayerByUsernameStatement | core/src/main/java/com/backwardsnode/easyadmin/core/database/AbstractStatementFactory.java:383-389 | the player lookup by name, with the name bound at 1, or IllegalArgumentException for a missing name |
| StatementFactory.BindKeys | core/src/main/java/com/backwardsnode/easyadmin/core/database/AbstractStatementFactory.java:392-571 | the key and filter setters bind player, address and status or type from index 1, throw IllegalArgumentException exactly when one the lookup needs is missing, and return the next index |
| StatementFactory.ApplyOptions | core/src/main/java/com/backwardsnode/easyadmin/core/database/AbstractStatementFactory.java:667-677 | from the given index: the after-date and before-date when present, then the limit, then the offset |
| StatementFactory.RetrieveStatementAsWritten | core/src/main/java/com/backwardsnode/easyadmin/core/database/AbstractStatementFactory.java:391-571 | as written, null options throw NullPointerException in `addDateFilter` before `optionsOrDefault` is reached; otherwise the SQL of the options with every placeholder bound with its value, or IllegalArgumentException for a missing key |
| StatementFactory.RetrieveStatement | core/src/main/java/com/backwardsnode/easyadmin/core/database/AbstractStatementFactory.java:391-571 | as intended, null options become the default before the SQL is prepared; the statement is the lookup's SQL with every placeholder bound with its value, or IllegalArgumentException exactly for a missing key |
| StatementFactory.DefaultLimitBound | core/src/main/java/com/backwardsnode/easyadmin/core/database/AbstractStatementFactory.java:44-53 | with no options the corrected lookup binds limit 100 and offset 0 last |
| StatementFactory.ChoosePlayerUpdate | core/src/main/java/com/backwardsnode/easyadmin/core/database/AbstractStatementFactory.java:576-613 | the INSERT exactly when nothing changed, the full UPDATE exactly when more than one group changed, and otherwise the UPDATE of the one changed group |
| StatementFactory.UpdateCoversChanges | core/src/main/java/com/backwardsnode/easyadmin/core/database/AbstractStatementFactory.java:574-613 | every column of a changed group is written by the chosen statement |
| StatementFactory.PlayerUpdateValues | core/src/main/java/com/backwardsnode/easyadmin/core/database/AbstractStatementFactory.java:583-613 | a player UPDATE's placeholders should receive its columns' values, then the player's id |
| StatementFactory.UpdatePlayerStatement | core/src/main/java/com/backwardsnode/easyadmin/core/database/AbstractStatementFactory.java:573-618 | the statement the changes select, every placeholder bound with its value; the full and leaving UPDATEs throw NullPointerException exactly when the last-leave date is absent |
| StatementFactory.PlayerUpdateBoundValues | core/src/main/java/com/backwardsnode/easyadmin/core/database/AbstractStatementFactory.java:583-613 | the values each setter sequence binds are the chosen columns' values followed by the id |
| StatementFactory.BindPlayerUpdate | core/src/main/java/com/backwardsnode/easyadmin/core/database/AbstractStatementFactory.java:583-613 | each setter sequence binds its columns in order and the id last, throwing NullPointerException where the last-leave date is converted while absent |
| StatementFactory.TerminationValues | core/src/main/java/com/backwardsnode/easyadmin/core/database/AbstractStatementFactory.java:620-652 | a ban or mute UPDATE binds status, terminating staff, end date, end reason, then the id |
| StatementFactory.UpdatePunishmentStatement | core/src/main/java/com/backwardsnode/easyadmin/core/database/AbstractStatementFactory.java:620-652 | a changed record gets the UPDATE of its status and termination fields by id, an unchanged one the INSERT of the whole record, every placeholder bound with its value |
| StatementFactory.BindTermination | core/src/main/java/com/backwardsnode/easyadmin/core/database/AbstractStatementFactory.java:624-630 | the five setters bind indices 1..5 with the UPDATE's column values and the id |
| Builders.BanBuilder.Init | core/src/main/java/com/backwardsnode/easyadmin/core/builder/BanBuilderImpl.java:53-61 | a new builder keeps the player and address it was given, starts its ban date at the current instant and leaves staff, unban date, reason and context unset |
| Builders.MuteBuilder.Init | core/src/main/java/com/backwardsnode/easyadmin/core/builder/MuteBuilderImpl.java:51-58 | a new builder keeps the player and address it was given, starts its mute date at the current instant and leaves staff, unmute date, reason and context unset |

## Left out

- JDBC, HikariCP and `ResultSet` handling are not modelled. This covers `DatabaseController`, `RecordLoader` and the H2, MySQL, PostgreSQL, remote and local config loaders. The database is a parameter that maps a query to its records.
- Statements are not executed. A prepared statement is the map from parameter index to bound value, and its SQL is a sequence of pieces. Generic lemmas spell out the text of each shape: `INSERT`, `UPDATE`, `SELECT` with its date filter, and `COUNT`.
- StatementFactory: the `notNull` checks on record fields that the model's record types make non-null are not modelled. These are the player's uuid and user name, a comment's player and text, a kick's player, and a punishment's status and player. `notNull` is modelled where the value can be missing: lookup keys and the key and status of lookup options.
- Caffeine's size and age eviction and its concurrency are not modelled. A cache entry leaves only by invalidation.
- A `null` payload in a cache loader is represented by `None`.
- A bucket's linked chain of handle nodes is a sequence, head first. The handle's own priority field is not modelled; the bucket it sits in stands for it.
- The events' `sealed` field is never set by any code in the core, so it is a field that stays false. The event getters that only return a field are not modelled.
- The committer's executor and the event handlers are parameters. `CancellableEvent` does not enforce its `cancellable` flag here.
- The committer's CHECK_EXISTING mode has only a TODO in the source, so it has no effect in the model.
- `CommitterMode` and `ExecutionStatus` are not part of this model. Each is a datatype that holds exactly the constants the code uses.
- AdminManagers: the record cache of each kind is a separate parameter.
- AdminManagers.UnpunishPlayer and AdminManagers.UnpunishGlobal model the corrected reading (findings 13 and 14), in which every ban and mute record passes the `instanceof MutableRecordProvider` test. The code as written is modelled by AdminManagers.AsWrittenUnpunishLiftsNothing and AdminManagers.UnpunishGlobalAsWritten.
- AdminManagers: the combined queries for a player's uuid or address over a collection are not modelled. `getPlayerRecordByName` is not modelled either, because its source is a TODO.
- AdminManagers: the `OnlinePlayer` overloads only delegate to the uuid forms, so they are not modelled separately.
- AdminManagers: logging is not modelled.
- AdminManagers.UnpunishPlayer: the commit count is an unbounded `nat`. It is not wrapped at 32 bits, since no player has 2^31 records.
- ScopedCommands: `getRegistration` and `requiresBasePermission` are not modelled. They are constants the subclasses supply.
- RootConfigs: the `uuid` section's class is not part of this model. The section stands for its validation outcome.
- `BanBuilderImpl.buildAndCommit` is not modelled. It only hands `build()` to the committer, which is modelled in Committers.
- The modification constructors of the mutable records start from the corrected copy (finding 2), not from the as-written copy.
- Several files do not compile against each other: the `CancellableEvent` constructor and its missing `sealed` field, the arity of the `CommonEventHandle` constructor, the `AdminManagerImpl` constructor, `getCommand` against `getRootCommandPart`, and the `Mutable*Impl` calls to `super(source)`. Each file's intended local behaviour is modelled.
- The platform adapters (Bukkit, Bungee, Velocity), the command classes, `CommandManager`, `EasyAdminService` and `Registration` are not modelled. They are wiring and I/O.
- Utils: the `DateTimeParseException` branch of `parseDuration` is never reached, because `parseDurationSeconds` never throws. It is therefore not modelled.
- DatabaseUtil and SchemaUtil: a resource is given as its lines, and a missing resource as `None`. The class-loader lookup and the reader are not modelled.
- MessageProviders: `MessageFormat` argument substitution, the colour-code translation and `sendMessage` are not modelled.
- MessageProviders: `SimpleDateFormat` is not modelled, and the provider keeps no date format. A missing date format throws NullPointerException, as in the constructor; a present one is neither checked nor stored, so its fallback for a bad pattern is not modelled.
- MessageProviders: YAML parsing and file I/O are not modelled. A language file is its parsed tree.
- MessageProviders: the commented-out `createDetailledStaffMessage` and the logging are not modelled.
- DatabaseConfig.GetDatabasePlatform: the type is upper-cased by ASCII letters only, independent of the locale. Java's `toUpperCase()` uses the default locale and full Unicode case mapping, so under a Turkish locale "sqlite" does not match SQLITE, and "ſqlite" or "sqlıte" do match. DatabaseConfig.PlatformLookupIgnoresCase holds only for this ASCII reading.
- JavaLang.NumericValue: `Character.getNumericValue` is modelled on ASCII only. Java also gives values to other digits and letters: Roman numerals such as 'Ⅻ' give 12, full-width letters give 10..35, and '½' gives -2. The as-written duration parse is unaffected: every character that reaches its unit branch has multiplier 0 under either reading, so the result is 0 in both.
- EventBus.CommonEventBus.AddHandle, AddHandleNormal and AddHandleAt build groups with the corrected `HandlerGroup` constructor (finding 7). The as-written registration is EventBus.CommonEventBus.AddHandleAsWritten.
- EventBus.CommonEventBus.Call is specified for buses whose groups come from the corrected registration. On a group that the as-written registration left without buckets, `call` throws; EventBus.CommonEventBus.CallAsWritten and EventBus.AsWrittenCallThrows state that.
- MessageProviders.NewDefaultMessageProviderAsWritten keeps finding 10 as written but takes finding 9 corrected: a bad time-range setting falls back instead of throwing `DateTimeParseException`. MessageProviders.TimeRangeSettingAsWritten states the throw.
- TimeRanges: `format(Duration)` is not modelled separately, since it only converts to milliseconds and calls `format(long)`.
- Floating point is not used; the month and year lengths are whole numbers of milliseconds, as in the source.

## Findings

The rows are numbered from 1 in order; "finding n" elsewhere in this file refers to row n.

| source | as written | input that shows it | evidently intended | confidence | as-written member | corrected member |
|---|---|---|---|---|---|---|
| core/src/main/java/com/backwardsnode/easyadmin/core/i18n/time/TimeRangeFormat.java:82-85 | every unit but the last takes `countMod` by the next, smaller unit, which is always 0 | 90 minutes in units "hm" prints "90 minutes" | each unit counts what is left after the larger units: "1 hour, 30 minutes" | not executed | TimeRanges.HourMinuteAsWritten | TimeRanges.HourMinuteCorrected |
| core/src/main/java/com/backwardsnode/easyadmin/core/record/BanRecordImpl.java:52-64 | the full constructor never assigns `id` | loading a ban with id 7 and copying it yields id 0 | `this.id = id` | not executed | BanRecords.CopyLosesId | BanRecords.BanRecord.Copy |
| core/src/main/java/com/backwardsnode/easyadmin/core/builder/BanBuilderImpl.java:100-105 | `build` passes the reason into the context slot and the context into the reason slot | reason "griefing" and no context gives a ban bound to context "griefing" with no reason | reason as reason, context as context | not executed | Builders.ReasonBecomesContext | Builders.ReasonStaysReason |
| core/src/main/java/com/backwardsnode/easyadmin/core/database/AbstractStatementFactory.java:391-571 | `addDateFilter(options)` dereferences the options before `optionsOrDefault` replaces a `null` | any retrieve statement with `null` options throws `NullPointerException` | the default options apply to the date filter as well | not executed | StatementFactory.RetrieveStatementAsWritten | StatementFactory.RetrieveStatement |
| core/src/main/java/com/backwardsnode/easyadmin/core/i18n/time/TimeUnitLocaleMap.java:42-44 | `amount > 0` selects the plural name | an amount of 1 second prints "seconds" | `amount != 1` selects the plural name | not executed | TimeUnitNames.OneIsPlural | TimeUnitNames.OneIsSingularWhenCorrected |
| core/src/main/java/com/backwardsnode/easyadmin/core/Utils.java:45-75 | `Character.getNumericValue` gives 10..35 for letters, so unit letters count as digits | "1d" parses to 0 seconds | only decimal digits are numeric: "1d" is 86400 seconds | not executed | Utils.ParseDurationAsWrittenIsZero | Utils.FixedSingleTerm |
| core/src/main/java/com/backwardsnode/easyadmin/core/event/HandlerGroup.java:42-54 | `new ArrayList<>(PRIORITIES)` reserves capacity but holds no bucket | the first `addHandle` at any priority throws `IndexOutOfBoundsException` | one empty bucket per priority | not executed | HandlerGroups.AsWrittenAddThrows | HandlerGroups.CorrectedOrder |
| core/src/main/java/com/backwardsnode/easyadmin/core/command/ScopedCommand.java:70-75 | the temporary-IP variant registers "gt&lt;shorthand&gt;i" as TEMPORARY_GLOBAL_IP and advertises "t&lt;shorthand&gt;i", which is never registered | ban with temporary and IP enabled: "tbi" is unknown and "gtbi" is accepted | "t&lt;shorthand&gt;i" maps to TEMPORARY_IP | not executed | ScopedCommands.AsWrittenTemporaryIpAlias | ScopedCommands.CorrectedTemporaryIpAlias |
| core/src/main/java/com/backwardsnode/easyadmin/core/i18n/MessageProvider.java:86-91 | a bad time-range setting raises `DateTimeParseException`, which the `IllegalArgumentException` handler does not catch | setting "x" makes the constructor throw | fall back to days, hours and minutes | not executed | MessageProviders.TimeRangeSettingAsWritten | MessageProviders.TimeRangeSetting |
| core/src/main/java/com/backwardsnode/easyadmin/core/i18n/MessageProvider.java:64-66 | the two-argument constructor passes `false` instead of `loadDefault` | `loadDefault = true` leaves the default language unloaded | pass `loadDefault` on | not executed | MessageProviders.NewDefaultMessageProviderAsWritten | MessageProviders.NewDefaultMessageProvider |
| core/src/main/java/com/backwardsnode/easyadmin/core/event/admin/MuteEventImpl.java:53-56 | the event is announced under `MuteEventImpl.class` | a handler registered for `MuteEvent` never sees a mute event | announce it under the `MuteEvent` interface, as the other admin events do | not executed | Events.AsWrittenMuteEventUnhandled | Events.MuteEventReachesHandler |
| core/src/main/java/com/backwardsnode/easyadmin/core/cache/RecordCache.java:80-98 | the stored values are `CacheLoader`s, never a `Collection`, so the `instanceof Collection` test always fails | infusing a record into a cached collection leaves the cache unchanged | add to the loader's collection payload | not executed | RecordCaches.InfuseAsWrittenIsNoOp | RecordCaches.InfusedCollectionGrows |
| core/src/main/java/com/backwardsnode/easyadmin/core/component/AdminManagerImpl.java:446-447 | the unban and unmute loops test `instanceof MutableRecordProvider`, which the final classes `BanRecordImpl` and `MuteRecordImpl` do not implement | a player with one active permanent ban: `unbanPlayerEverywhere` commits nothing and returns 0 | every ban and mute record can be made mutable and ended | not executed | AdminManagers.AsWrittenUnpunishLiftsNothing | AdminManagers.UnpunishHandsKept |
| core/src/main/java/com/backwardsnode/easyadmin/core/component/AdminManagerImpl.java:494-509 | the global-only unban makes the same `instanceof` test | a player with one active global ban: `unbanPlayerInGlobalContextOnly` returns false and the ban stays | the record found is ended and committed | not executed | AdminManagers.UnpunishGlobalAsWritten | AdminManagers.UnpunishGlobal |
| core/src/main/java/com/backwardsnode/easyadmin/core/builder/MuteBuilderImpl.java:97-102 | `build` passes the reason into the context slot and the context into the reason slot, and `buildAndCommit` returns that record | reason "spam" and no context gives a mute bound to context "spam" with no reason | reason as reason, context as context | not executed | Builders.MuteReasonBecomesContext | Builders.MuteReasonStaysReason |
