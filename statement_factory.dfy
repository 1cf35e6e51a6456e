/*
 * `AbstractStatementFactory`: the SQL each record operation prepares and the
 * values it binds to the statement's `?` parameters.
 *
 * A statement's SQL is kept as a sequence of pieces: literal text, and
 * placeholders that carry the role the SQL gives them (the column they are
 * compared with or assigned to, the lower or upper date bound, the limit or
 * the offset). `Render` spells the pieces out as the SQL text, with a `?`
 * for each placeholder. The binders advance a parameter index exactly as the
 * Java code does; each is proved to bind parameters 1..n, where n is the
 * number of placeholders, with the value the i-th placeholder's role selects
 * from the record or the lookup options.
 */
module StatementFactory {
  import opened JavaLang
  import opened ApiData
  import opened ScopedRecords
  import opened PlayerRecords
  import opened CommentKickRecords
  import DB = CacheGroups

  const DEFAULT_SELECT_LIMIT_MAX: int := 100

  /** `DEFAULT_OPTIONS`: the first 100 records, newest first. */
  const DEFAULT_OPTIONS: LookupOptions := LimitOnly(DEFAULT_SELECT_LIMIT_MAX)

  // ---------------------------------------------------------------------------
  // SQL as pieces

  /** The columns of the five tables (`Tables`). */
  datatype Column =
    | ID | STATUS | PLAYER_UUID | STAFF_UUID | PLAYER_IP | CONTEXTS | REASON
    | BAN_DATE | UNBAN_DATE | UNBAN_STAFF_UUID | UNBAN_REASON
    | MUTE_DATE | UNMUTE_DATE | UNMUTE_STAFF_UUID | UNMUTE_REASON
    | DATE_ADDED | IS_WARNING | COMMENT
    | KICK_DATE | IS_GLOBAL
    | UUID | USERNAME | LAST_IP | FIRST_JOIN | LAST_JOIN | LAST_LEAVE | LAST_SERVER | PLAYTIME | TOTAL_JOINS

  function ColumnName(c: Column): string {
    match c
    case ID => "id"
    case STATUS => "status"
    case PLAYER_UUID => "playerUuid"
    case STAFF_UUID => "staffUuid"
    case PLAYER_IP => "playerIP"
    case CONTEXTS => "contexts"
    case REASON => "reason"
    case BAN_DATE => "banDate"
    case UNBAN_DATE => "unbanDate"
    case UNBAN_STAFF_UUID => "unbanStaffUuid"
    case UNBAN_REASON => "unbanReason"
    case MUTE_DATE => "muteDate"
    case UNMUTE_DATE => "unmuteDate"
    case UNMUTE_STAFF_UUID => "unmuteStaffUuid"
    case UNMUTE_REASON => "unmuteReason"
    case DATE_ADDED => "dateAdded"
    case IS_WARNING => "isWarning"
    case COMMENT => "comment"
    case KICK_DATE => "kickDate"
    case IS_GLOBAL => "isGlobal"
    case UUID => "uuid"
    case USERNAME => "username"
    case LAST_IP => "lastIP"
    case FIRST_JOIN => "firstJoin"
    case LAST_JOIN => "lastJoin"
    case LAST_LEAVE => "lastLeave"
    case LAST_SERVER => "lastServer"
    case PLAYTIME => "playtime"
    case TOTAL_JOINS => "totalJoins"
  }

  /** The players table and the four record tables. */
  datatype SqlTable = PLAYERS | Records(table: DB.Table)

  function TableName(t: SqlTable): string {
    match t
    case PLAYERS => "players"
    case Records(r) => (
      match r
      case BANS => "bans"
      case MUTES => "mutes"
      case KICKS => "kicks"
      case COMMENTS => "comments")
  }

  /** The tables of the status-carrying records, bans and mutes. */
  predicate Scoped(t: DB.Table) { t == DB.BANS || t == DB.MUTES }

  /** The column each table is filtered by date on. */
  function DateColumn(t: DB.Table): Column {
    match t
    case BANS => BAN_DATE
    case MUTES => MUTE_DATE
    case KICKS => KICK_DATE
    case COMMENTS => DATE_ADDED
  }

  function EndDateColumn(t: DB.Table): Column requires Scoped(t) { if t == DB.BANS then UNBAN_DATE else UNMUTE_DATE }
  function EndStaffColumn(t: DB.Table): Column requires Scoped(t) { if t == DB.BANS then UNBAN_STAFF_UUID else UNMUTE_STAFF_UUID }
  function EndReasonColumn(t: DB.Table): Column requires Scoped(t) { if t == DB.BANS then UNBAN_REASON else UNMUTE_REASON }

  /** The fixed words of the factory's SQL. */
  datatype Word =
    | INSERT_INTO | OPEN_COLUMNS | VALUES | COMMA | CLOSE_VALUES
    | UPDATE | SET | EQUALS | SEPARATOR | WHERE | END
    | SELECT_COUNT | SELECT_ALL | OPEN | OR | CLOSE | AND | BETWEEN | BEFORE | AFTER
    | ORDER_LIMIT | OFFSET

  function WordText(w: Word): string {
    match w
    case INSERT_INTO => "INSERT INTO "
    case OPEN_COLUMNS => " ("
    case VALUES => ") VALUES ("
    case COMMA => ","
    case CLOSE_VALUES => ");"
    case UPDATE => "UPDATE "
    case SET => " SET "
    case EQUALS => " = "
    case SEPARATOR => ", "
    case WHERE => " WHERE "
    case END => ";"
    case SELECT_COUNT => "SELECT COUNT(*) AS count FROM "
    case SELECT_ALL => "SELECT * FROM "
    case OPEN => "("
    case OR => " OR "
    case CLOSE => ")"
    case AND => " AND "
    case BETWEEN => " BETWEEN "
    case BEFORE => " < "
    case AFTER => " > "
    case ORDER_LIMIT => " ORDER BY id DESC LIMIT "
    case OFFSET => " OFFSET "
  }

  /** What a placeholder stands for. */
  datatype Role = ColumnRole(column: Column) | DateAfter | DateBefore | Limit | Offset

  /** A piece of SQL: a fixed word, a table or column name, or a `?` placeholder. */
  datatype Piece = Kw(word: Word) | Tbl(table: SqlTable) | Name(column: Column) | Param(role: Role)

  function PieceText(p: Piece): string {
    match p
    case Kw(w) => WordText(w)
    case Tbl(t) => TableName(t)
    case Name(c) => ColumnName(c)
    case Param(_) => "?"
  }

  function PieceRoles(p: Piece): seq<Role> {
    if p.Param? then [p.role] else []
  }

  /** The SQL text: each placeholder is a `?`. */
  function Render(q: seq<Piece>): string {
    if q == [] then "" else PieceText(q[0]) + Render(q[1..])
  }

  /** The roles of the placeholders, in order. */
  function Roles(q: seq<Piece>): seq<Role> {
    if q == [] then [] else PieceRoles(q[0]) + Roles(q[1..])
  }

  /** The number of `?` parameters of a statement. */
  function Placeholders(q: seq<Piece>): nat { |Roles(q)| }

  lemma {:induction false} RolesAppend(a: seq<Piece>, b: seq<Piece>)
    ensures Roles(a + b) == Roles(a) + Roles(b)
  {
    if a == [] {
      assert a + b == b;
    } else {
      assert (a + b)[0] == a[0];
      assert (a + b)[1..] == a[1..] + b;
      RolesAppend(a[1..], b);
      assert PieceRoles(a[0]) + (Roles(a[1..]) + Roles(b)) == (PieceRoles(a[0]) + Roles(a[1..])) + Roles(b);
    }
  }

  lemma RolesOne(p: Piece)
    ensures Roles([p]) == PieceRoles(p)
  {
    assert [p][1..] == [];
  }

  /** Appending one piece appends its role, if it is a placeholder. */
  lemma RolesSnoc(a: seq<Piece>, p: Piece)
    ensures Roles(a + [p]) == Roles(a) + PieceRoles(p)
  {
    RolesAppend(a, [p]);
    RolesOne(p);
  }

  lemma {:induction false} RenderAppend(a: seq<Piece>, b: seq<Piece>)
    ensures Render(a + b) == Render(a) + Render(b)
  {
    if a == [] {
      assert a + b == b;
    } else {
      assert (a + b)[0] == a[0];
      assert (a + b)[1..] == a[1..] + b;
      RenderAppend(a[1..], b);
      assert PieceText(a[0]) + (Render(a[1..]) + Render(b)) == (PieceText(a[0]) + Render(a[1..])) + Render(b);
    }
  }

  lemma RenderOne(p: Piece)
    ensures Render([p]) == PieceText(p)
  {
    assert [p][1..] == [];
  }

  lemma RenderSnoc(a: seq<Piece>, p: Piece)
    ensures Render(a + [p]) == Render(a) + PieceText(p)
  {
    RenderAppend(a, [p]);
    RenderOne(p);
  }

  function ColumnRoles(cols: seq<Column>): (r: seq<Role>)
    ensures |r| == |cols| && forall i :: 0 <= i < |cols| ==> r[i] == ColumnRole(cols[i])
  {
    if cols == [] then [] else [ColumnRole(cols[0])] + ColumnRoles(cols[1..])
  }

  lemma ColumnRolesAppend(a: seq<Column>, b: seq<Column>)
    ensures ColumnRoles(a + b) == ColumnRoles(a) + ColumnRoles(b)
  {
    var r := ColumnRoles(a + b);
    assert forall i :: 0 <= i < |a| + |b| ==> (a + b)[i] == if i < |a| then a[i] else b[i - |a|];
    assert r == ColumnRoles(a) + ColumnRoles(b);
  }

  /** `<c> = ?`: one placeholder, for `c`. */
  function Compare(c: Column): (q: seq<Piece>)
    ensures Roles(q) == [ColumnRole(c)]
  {
    RolesOne(Name(c));
    RolesSnoc([Name(c)], Kw(EQUALS));
    RolesSnoc([Name(c)] + [Kw(EQUALS)], Param(ColumnRole(c)));
    [Name(c)] + [Kw(EQUALS)] + [Param(ColumnRole(c))]
  }

  lemma CompareText(c: Column)
    ensures Render(Compare(c)) == ColumnName(c) + " = ?"
  {
    RenderOne(Name(c));
    RenderSnoc([Name(c)], Kw(EQUALS));
    RenderSnoc([Name(c)] + [Kw(EQUALS)], Param(ColumnRole(c)));
  }

  /** `<c1>,<c2>,...`: the column list of an INSERT, with no placeholder. */
  function Names(cols: seq<Column>): (q: seq<Piece>)
    ensures Roles(q) == []
  {
    if cols == [] then []
    else if |cols| == 1 then RolesOne(Name(cols[0])); [Name(cols[0])]
    else
      var q := [Name(cols[0])] + [Kw(COMMA)];
      RolesOne(Name(cols[0]));
      RolesSnoc([Name(cols[0])], Kw(COMMA));
      RolesAppend(q, Names(cols[1..]));
      q + Names(cols[1..])
  }

  /** `?,?,...,?`, one placeholder per column, for that column. */
  function Marks(cols: seq<Column>): (q: seq<Piece>)
    ensures Roles(q) == ColumnRoles(cols)
  {
    if cols == [] then []
    else if |cols| == 1 then RolesOne(Param(ColumnRole(cols[0]))); [Param(ColumnRole(cols[0]))]
    else
      var q := [Param(ColumnRole(cols[0]))] + [Kw(COMMA)];
      RolesOne(Param(ColumnRole(cols[0])));
      RolesSnoc([Param(ColumnRole(cols[0]))], Kw(COMMA));
      RolesAppend(q, Marks(cols[1..]));
      q + Marks(cols[1..])
  }

  /** `INSERT INTO <table> (<columns>) VALUES (?,...,?);`: one placeholder per column, for that column. */
  function InsertSql(table: SqlTable, cols: seq<Column>): (q: seq<Piece>)
    ensures Roles(q) == ColumnRoles(cols)
  {
    var q1 := Head(INSERT_INTO, table, OPEN_COLUMNS) + Names(cols);
    var q2 := q1 + [Kw(VALUES)];
    var q3 := q2 + Marks(cols);
    RolesAppend(Head(INSERT_INTO, table, OPEN_COLUMNS), Names(cols));
    RolesSnoc(q1, Kw(VALUES));
    RolesAppend(q2, Marks(cols));
    RolesSnoc(q3, Kw(CLOSE_VALUES));
    q3 + [Kw(CLOSE_VALUES)]
  }

  /** `<c1> = ?, <c2> = ?, ...`: one placeholder per column, for that column. */
  function Assignments(cols: seq<Column>): (q: seq<Piece>)
    ensures Roles(q) == ColumnRoles(cols)
  {
    if cols == [] then []
    else if |cols| == 1 then Compare(cols[0])
    else
      var q := Compare(cols[0]) + [Kw(SEPARATOR)];
      RolesSnoc(Compare(cols[0]), Kw(SEPARATOR));
      RolesAppend(q, Assignments(cols[1..]));
      q + Assignments(cols[1..])
  }

  /** `UPDATE <table> SET <c1> = ?, ... WHERE <key> = ?;`: the assigned columns' placeholders, then the key's. */
  function UpdateSql(table: SqlTable, cols: seq<Column>, key: Column): (q: seq<Piece>)
    ensures Roles(q) == ColumnRoles(cols + [key])
  {
    var q1 := Head(UPDATE, table, SET) + Assignments(cols);
    var q2 := q1 + [Kw(WHERE)];
    var q3 := q2 + Compare(key);
    RolesAppend(Head(UPDATE, table, SET), Assignments(cols));
    RolesSnoc(q1, Kw(WHERE));
    RolesAppend(q2, Compare(key));
    RolesSnoc(q3, Kw(END));
    ColumnRolesAppend(cols, [key]);
    q3 + [Kw(END)]
  }

  /** `<first><table><second>`: two words around a table name, with no placeholder. */
  function Head(first: Word, table: SqlTable, second: Word): (q: seq<Piece>)
    ensures Roles(q) == []
  {
    RolesOne(Kw(first));
    RolesSnoc([Kw(first)], Tbl(table));
    RolesSnoc([Kw(first)] + [Tbl(table)], Kw(second));
    [Kw(first)] + [Tbl(table)] + [Kw(second)]
  }

  // ---------------------------------------------------------------------------
  // Bound values

  /** A value bound to a parameter; `Id` and `Number` stand for their decimal text where `setString` binds them. */
  datatype SqlValue = Null | Str(s: string) | Id(uuid: Uuid) | Stamp(time: Time) | Number(n: int) | Flag(b: bool)

  function IdOrNull(u: Option<Uuid>): SqlValue { if u.Some? then Id(u.value) else Null }
  function StrOrNull(s: Option<string>): SqlValue { if s.Some? then Str(s.value) else Null }
  function StampOrNull(t: Option<Time>): SqlValue { if t.Some? then Stamp(t.value) else Null }

  /** The key a lookup or count is made by; `null` is `None`. */
  datatype Key =
    | PlayerKey(uuid: Option<Uuid>)
    | StaffKey(uuid: Option<Uuid>)
    | AddressKey(address: Option<string>)
    | PlayerOrAddressKey(uuid: Option<Uuid>, address: Option<string>)
    | UuidKey(uuid: Option<Uuid>)
    | UsernameKey(username: Option<string>)

  /** The extra condition of the `ByStatus` and `ByType` lookups. */
  datatype Filter = NoFilter | StatusFilter(status: Option<PunishmentStatus>) | TypeFilter(isWarning: bool)

  /** Where a statement's column values come from. */
  datatype Row =
    | ScopedRow(p: Punishment)
    | PlayerRow(d: PlayerData)
    | CommentRow(c: CommentData)
    | KickRow(k: KickData)
    | KeyRow(key: Key, filter: Filter)

  /** The value of column `c` of a ban or mute, as the record's getter gives it. */
  function ScopedValue(p: Punishment, c: Column): SqlValue {
    match c
    case ID => Number(p.id)
    case STATUS => Str(StatusToString(p.status))
    case PLAYER_UUID => IdOrNull(p.player)
    case STAFF_UUID => IdOrNull(p.staff)
    case PLAYER_IP => StrOrNull(p.ipAddress)
    case CONTEXTS => StrOrNull(p.context)
    case REASON => StrOrNull(p.reason)
    case BAN_DATE => Stamp(p.dateAdded)
    case MUTE_DATE => Stamp(p.dateAdded)
    case UNBAN_DATE => StampOrNull(p.terminationDate)
    case UNMUTE_DATE => StampOrNull(p.terminationDate)
    case UNBAN_STAFF_UUID => IdOrNull(p.terminatingStaff)
    case UNMUTE_STAFF_UUID => IdOrNull(p.terminatingStaff)
    case UNBAN_REASON => StrOrNull(p.terminationReason)
    case UNMUTE_REASON => StrOrNull(p.terminationReason)
    case _ => Null
  }

  /** The value of column `c` of a player record. */
  function PlayerValue(d: PlayerData, c: Column): SqlValue {
    match c
    case UUID => Id(d.uuid)
    case USERNAME => Str(d.username)
    case LAST_IP => StrOrNull(d.lastAddress)
    case FIRST_JOIN => Stamp(d.firstJoin)
    case LAST_JOIN => Stamp(d.lastJoin)
    case LAST_LEAVE => StampOrNull(d.lastLeave)
    case LAST_SERVER => StrOrNull(d.lastServer)
    case PLAYTIME => Number(d.playtime)
    case TOTAL_JOINS => Number(d.totalJoins)
    case _ => Null
  }

  /** The value of column `c` of a comment. */
  function CommentValue(r: CommentData, c: Column): SqlValue {
    match c
    case ID => Number(r.id)
    case PLAYER_UUID => Id(r.player)
    case STAFF_UUID => IdOrNull(r.staff)
    case DATE_ADDED => Stamp(r.commentDate)
    case IS_WARNING => Flag(r.isWarning)
    case COMMENT => Str(r.comment)
    case _ => Null
  }

  /** The value of column `c` of a kick. */
  function KickValue(k: KickData, c: Column): SqlValue {
    match c
    case ID => Number(k.id)
    case PLAYER_UUID => Id(k.player)
    case STAFF_UUID => IdOrNull(k.staff)
    case KICK_DATE => Stamp(k.kickDate)
    case IS_GLOBAL => Flag(k.isGlobal)
    case REASON => StrOrNull(k.reason)
    case _ => Null
  }

  /** The value a lookup binds for column `c`: the key or the filter it was given. */
  function KeyValue(key: Key, filter: Filter, c: Column): SqlValue {
    match c
    case PLAYER_UUID => if key.PlayerKey? || key.PlayerOrAddressKey? then IdOrNull(key.uuid) else Null
    case STAFF_UUID => if key.StaffKey? then IdOrNull(key.uuid) else Null
    case PLAYER_IP => if key.AddressKey? || key.PlayerOrAddressKey? then StrOrNull(key.address) else Null
    case UUID => if key.UuidKey? then IdOrNull(key.uuid) else Null
    case USERNAME => if key.UsernameKey? then StrOrNull(key.username) else Null
    case STATUS => if filter.StatusFilter? && filter.status.Some? then Str(StatusToString(filter.status.value)) else Null
    case IS_WARNING => if filter.TypeFilter? then Flag(filter.isWarning) else Null
    case _ => Null
  }

  /** The value of column `c` in `row`. */
  function ColumnValue(row: Row, c: Column): SqlValue {
    match row
    case ScopedRow(p) => ScopedValue(p, c)
    case PlayerRow(d) => PlayerValue(d, c)
    case CommentRow(r) => CommentValue(r, c)
    case KickRow(k) => KickValue(k, c)
    case KeyRow(key, filter) => KeyValue(key, filter, c)
  }

  /** The value a placeholder with role `role` should receive. */
  function Meaning(row: Row, options: Option<LookupOptions>, role: Role): SqlValue {
    match role
    case ColumnRole(c) => ColumnValue(row, c)
    case DateAfter => if options.Some? then StampOrNull(options.value.dateAfter) else Null
    case DateBefore => if options.Some? then StampOrNull(options.value.dateBefore) else Null
    case Limit => if options.Some? then Number(options.value.limit) else Null
    case Offset => if options.Some? then Number(options.value.offset) else Null
  }

  /** The values the placeholders of `q` should receive, in order. */
  function Values(q: seq<Piece>, row: Row, options: Option<LookupOptions>): (vs: seq<SqlValue>)
    ensures |vs| == Placeholders(q)
    ensures forall i :: 0 <= i < |vs| ==> vs[i] == Meaning(row, options, Roles(q)[i])
  {
    Meanings(row, options, Roles(q))
  }

  /** What each of the roles `rs` receives, in order. */
  function Meanings(row: Row, options: Option<LookupOptions>, rs: seq<Role>): (vs: seq<SqlValue>)
    ensures |vs| == |rs| && forall i :: 0 <= i < |rs| ==> vs[i] == Meaning(row, options, rs[i])
  {
    seq(|rs|, i requires 0 <= i < |rs| => Meaning(row, options, rs[i]))
  }

  lemma MeaningsAppend(row: Row, options: Option<LookupOptions>, a: seq<Role>, b: seq<Role>)
    ensures Meanings(row, options, a + b) == Meanings(row, options, a) + Meanings(row, options, b)
  {
    assert forall i :: 0 <= i < |a| + |b| ==> (a + b)[i] == if i < |a| then a[i] else b[i - |a|];
  }

  lemma MeaningsColumns(row: Row, options: Option<LookupOptions>, cols: seq<Column>)
    ensures Meanings(row, options, ColumnRoles(cols)) == ColumnValues(cols, row)
  {
  }

  function ColumnValues(cols: seq<Column>, row: Row): (vs: seq<SqlValue>)
    ensures |vs| == |cols| && forall i :: 0 <= i < |cols| ==> vs[i] == ColumnValue(row, cols[i])
  {
    seq(|cols|, i requires 0 <= i < |cols| => ColumnValue(row, cols[i]))
  }

  lemma InsertValues(table: SqlTable, cols: seq<Column>, row: Row, options: Option<LookupOptions>)
    ensures Values(InsertSql(table, cols), row, options) == ColumnValues(cols, row)
  {
  }

  lemma UpdateValues(table: SqlTable, cols: seq<Column>, key: Column, row: Row, options: Option<LookupOptions>)
    ensures Values(UpdateSql(table, cols, key), row, options) == ColumnValues(cols + [key], row)
  {
  }

  /** The parameters set by binding `vs` at indices 1, 2, ... in turn. */
  function Positional(vs: seq<SqlValue>): map<int, SqlValue> {
    if vs == [] then map[] else Positional(vs[..|vs| - 1])[|vs| := vs[|vs| - 1]]
  }

  /** Binding `vs` in turn sets exactly the indices 1..|vs|, the i-th holding the i-th value. */
  lemma {:induction false} PositionalIndices(vs: seq<SqlValue>)
    ensures forall i :: i in Positional(vs) <==> 1 <= i <= |vs|
    ensures forall i :: 1 <= i <= |vs| ==> Positional(vs)[i] == vs[i - 1]
  {
    if vs != [] {
      PositionalIndices(vs[..|vs| - 1]);
    }
  }

  // ---------------------------------------------------------------------------
  // The prepared statement

  /** A `PreparedStatement`: its SQL and the parameters bound so far. */
  class PreparedStatement {
    const sql: seq<Piece>
    var params: map<int, SqlValue>

    constructor (sql: seq<Piece>)
      ensures this.sql == sql && params == map[]
    {
      this.sql := sql;
      params := map[];
    }

    /** `setString`, `setTimestamp`, `setInt`, `setLong`, `setBoolean`. */
    method Set(index: int, v: SqlValue)
      modifies this
      ensures params == old(params)[index := v]
    {
      params := params[index := v];
    }
  }

  /** A `set…(index, v)` that binds the next of the values `vs`, which are bound in turn from index 1. */
  method Put(st: PreparedStatement, index: int, v: SqlValue, ghost vs: seq<SqlValue>)
    requires 1 <= index <= |vs| && vs[index - 1] == v && st.params == Positional(vs[..index - 1])
    modifies st
    ensures st.params == Positional(vs[..index])
  {
    st.Set(index, v);
    assert vs[..index][..index - 1] == vs[..index - 1];
  }

  /** The single `set…(1, v)` of a one-parameter lookup. */
  method BindOne(st: PreparedStatement, v: SqlValue)
    requires st.params == map[]
    modifies st
    ensures st.params == Positional([v])
  {
    Put(st, 1, v, [v]);
  }

  // ---------------------------------------------------------------------------
  // notNull, maybeNull, optionsOrDefault

  /** `notNull`: a missing value throws IllegalArgumentException("Object cannot be null"). */
  function NotNull<T>(x: Option<T>): (r: Outcome<T>)
    ensures r.Ok? <==> x.Some?
    ensures r.Ok? ==> r.value == x.value
    ensures r.Throws? ==> r.ex == IllegalArgumentException
  {
    if x.None? then Throws(IllegalArgumentException) else Ok(x.value)
  }

  /** `optionsOrDefault`: the given options, or the default of limit 100 for `null`. */
  function OptionsOrDefault(options: Option<LookupOptions>): (o: LookupOptions)
    ensures options.Some? ==> o == options.value
    ensures options.None? ==> o.limit == 100 && o.offset == 0 && o.dateAfter.None? && o.dateBefore.None?
  {
    if options.None? then DEFAULT_OPTIONS else options.value
  }

  // ---------------------------------------------------------------------------
  // Inserts

  /**
   * `initCreateBanSql` / `initCreateMuteSql`: the columns of the INSERT,
   * chosen by whether the record has a termination date and an address.
   */
  function ScopedInsertColumns(t: DB.Table, p: Punishment): (cols: seq<Column>)
    requires Scoped(t)
    ensures |cols| == 6 + (if p.ipAddress.Some? then 1 else 0) + (if p.terminationDate.Some? then 1 else 0)
    ensures cols[0] == STATUS && cols[1] == PLAYER_UUID && cols[2] == STAFF_UUID
    ensures cols[|cols| - 2] == CONTEXTS && cols[|cols| - 1] == REASON
  {
    var date, end := DateColumn(t), EndDateColumn(t);
    if p.terminationDate.None? then
      if p.ipAddress.None? then [STATUS, PLAYER_UUID, STAFF_UUID, date, CONTEXTS, REASON]
      else [STATUS, PLAYER_UUID, STAFF_UUID, PLAYER_IP, date, CONTEXTS, REASON]
    else
      if p.ipAddress.None? then [STATUS, PLAYER_UUID, STAFF_UUID, date, end, CONTEXTS, REASON]
      else [STATUS, PLAYER_UUID, STAFF_UUID, PLAYER_IP, date, end, CONTEXTS, REASON]
  }

  /** The address column is written exactly when an address is known, the end date exactly when one is set. */
  lemma ScopedInsertOptionalColumns(t: DB.Table, p: Punishment)
    requires Scoped(t)
    ensures PLAYER_IP in ScopedInsertColumns(t, p) <==> p.ipAddress.Some?
    ensures EndDateColumn(t) in ScopedInsertColumns(t, p) <==> p.terminationDate.Some?
  {
  }

  function ScopedInsertSql(t: DB.Table, p: Punishment): seq<Piece>
    requires Scoped(t)
  {
    InsertSql(Records(t), ScopedInsertColumns(t, p))
  }

  /** The values bound to a ban or mute INSERT, in the order of its columns. */
  function ScopedBound(p: Punishment): seq<SqlValue> {
    [Str(StatusToString(p.status)), IdOrNull(p.player), IdOrNull(p.staff)]
    + (if p.ipAddress.Some? then [Str(p.ipAddress.value)] else [])
    + [Stamp(p.dateAdded)]
    + (if p.terminationDate.Some? then [Stamp(p.terminationDate.value)] else [])
    + [StrOrNull(p.context), StrOrNull(p.reason)]
  }

  /** The record's values for the columns of its INSERT are the values bound. */
  lemma ScopedColumnValues(t: DB.Table, p: Punishment)
    requires Scoped(t)
    ensures ColumnValues(ScopedInsertColumns(t, p), ScopedRow(p)) == ScopedBound(p)
  {
    if p.terminationDate.None? {
      if p.ipAddress.None? { OpenColumnValues(t, p); } else { OpenIpColumnValues(t, p); }
    } else {
      if p.ipAddress.None? { TerminatedColumnValues(t, p); } else { TerminatedIpColumnValues(t, p); }
    }
  }

  lemma OpenColumnValues(t: DB.Table, p: Punishment)
    requires Scoped(t) && p.terminationDate.None? && p.ipAddress.None?
    ensures ColumnValues(ScopedInsertColumns(t, p), ScopedRow(p)) == ScopedBound(p)
  {
    DateValues(t, p);
    var vs := ColumnValues(ScopedInsertColumns(t, p), ScopedRow(p));
    forall i | 0 <= i < |vs|
      ensures vs[i] == ScopedBound(p)[i]
    {
    }
  }

  lemma OpenIpColumnValues(t: DB.Table, p: Punishment)
    requires Scoped(t) && p.terminationDate.None? && p.ipAddress.Some?
    ensures ColumnValues(ScopedInsertColumns(t, p), ScopedRow(p)) == ScopedBound(p)
  {
    DateValues(t, p);
    var vs := ColumnValues(ScopedInsertColumns(t, p), ScopedRow(p));
    forall i | 0 <= i < |vs|
      ensures vs[i] == ScopedBound(p)[i]
    {
    }
  }

  lemma TerminatedColumnValues(t: DB.Table, p: Punishment)
    requires Scoped(t) && p.terminationDate.Some? && p.ipAddress.None?
    ensures ColumnValues(ScopedInsertColumns(t, p), ScopedRow(p)) == ScopedBound(p)
  {
    DateValues(t, p);
    var vs := ColumnValues(ScopedInsertColumns(t, p), ScopedRow(p));
    forall i | 0 <= i < |vs|
      ensures vs[i] == ScopedBound(p)[i]
    {
    }
  }

  lemma TerminatedIpColumnValues(t: DB.Table, p: Punishment)
    requires Scoped(t) && p.terminationDate.Some? && p.ipAddress.Some?
    ensures ColumnValues(ScopedInsertColumns(t, p), ScopedRow(p)) == ScopedBound(p)
  {
    DateValues(t, p);
    var vs := ColumnValues(ScopedInsertColumns(t, p), ScopedRow(p));
    forall i | 0 <= i < |vs|
      ensures vs[i] == ScopedBound(p)[i]
    {
    }
  }

  /** A ban's or mute's dates, under the column names of its table. */
  lemma DateValues(t: DB.Table, p: Punishment)
    requires Scoped(t)
    ensures ColumnValue(ScopedRow(p), DateColumn(t)) == Stamp(p.dateAdded)
    ensures ColumnValue(ScopedRow(p), EndDateColumn(t)) == StampOrNull(p.terminationDate)
  {
  }

  lemma ScopedStatementValues(t: DB.Table, p: Punishment, q: seq<Piece>)
    requires Scoped(t) && q == ScopedInsertSql(t, p)
    ensures Positional(Values(q, ScopedRow(p), None)) == Positional(ScopedBound(p))
  {
    ScopedInsertValues(t, p);
    assert Values(q, ScopedRow(p), None) == ScopedBound(p);
  }

  /** Each placeholder of the chosen INSERT gets the record's value for its column. */
  lemma ScopedInsertValues(t: DB.Table, p: Punishment)
    requires Scoped(t)
    ensures Values(ScopedInsertSql(t, p), ScopedRow(p), None) == ScopedBound(p)
  {
    ScopedColumnValues(t, p);
    InsertValues(Records(t), ScopedInsertColumns(t, p), ScopedRow(p), None);
  }

  /**
   * `applyCreateStatusAdminRecordStatement`: binds status, player, staff,
   * the address when present, the date added, the termination date when
   * present, contexts and reason, advancing the index from 1. A missing
   * player throws IllegalArgumentException; otherwise parameters 1..n hold
   * the values the n placeholders of the chosen INSERT name.
   */
  method ApplyCreateScoped(st: PreparedStatement, p: Punishment) returns (r: Outcome<()>)
    requires st.params == map[]
    modifies st
    ensures r.Ok? <==> p.player.Some?
    ensures r.Throws? ==> r == Throws(IllegalArgumentException)
    ensures r.Ok? ==> st.params == Positional(ScopedBound(p))
  {
    ghost var vs := ScopedBound(p);
    var index := 1;
    Put(st, index, Str(StatusToString(p.status)), vs);
    index := index + 1;
    var player := NotNull(p.player);
    if player.Throws? {
      return Throws(player.ex);
    }
    Put(st, index, Id(player.value), vs);
    index := index + 1;
    Put(st, index, IdOrNull(p.staff), vs);
    index := index + 1;
    if p.ipAddress.Some? {
      Put(st, index, Str(p.ipAddress.value), vs);
      index := index + 1;
    }
    Put(st, index, Stamp(p.dateAdded), vs);
    index := index + 1;
    if p.terminationDate.Some? {
      Put(st, index, Stamp(p.terminationDate.value), vs);
      index := index + 1;
    }
    Put(st, index, StrOrNull(p.context), vs);
    index := index + 1;
    Put(st, index, StrOrNull(p.reason), vs);
    assert vs[..index] == vs;
    r := Ok(());
  }

  /** `getCreateBanStatement` / `getCreateMuteStatement`. */
  method CreateScopedStatement(t: DB.Table, p: Punishment) returns (r: Outcome<PreparedStatement>)
    requires Scoped(t)
    ensures r.Ok? <==> p.player.Some?
    ensures r.Throws? ==> r == Throws(IllegalArgumentException)
    ensures r.Ok? ==> fresh(r.value) && r.value.sql == ScopedInsertSql(t, p)
                      && r.value.params == Positional(Values(r.value.sql, ScopedRow(p), None))
  {
    var st := new PreparedStatement(ScopedInsertSql(t, p));
    var applied := ApplyCreateScoped(st, p);
    if applied.Throws? {
      return Throws(applied.ex);
    }
    ScopedStatementValues(t, p, st.sql);
    r := Ok(st);
  }

  const PLAYER_INSERT_COLUMNS: seq<Column> := [UUID, USERNAME, LAST_IP, FIRST_JOIN, LAST_JOIN, LAST_SERVER]
  const COMMENT_INSERT_COLUMNS: seq<Column> := [PLAYER_UUID, STAFF_UUID, DATE_ADDED, IS_WARNING, COMMENT]
  const KICK_INSERT_COLUMNS: seq<Column> := [PLAYER_UUID, STAFF_UUID, KICK_DATE, IS_GLOBAL, REASON]

  /** A new player record binds its id, name, address, first and last join and server. */
  lemma PlayerInsertValues(d: PlayerData)
    ensures Values(InsertSql(PLAYERS, PLAYER_INSERT_COLUMNS), PlayerRow(d), None)
         == ColumnValues(PLAYER_INSERT_COLUMNS, PlayerRow(d))
  {
    InsertValues(PLAYERS, PLAYER_INSERT_COLUMNS, PlayerRow(d), None);
  }

  lemma PlayerColumnValues(d: PlayerData)
    ensures ColumnValues(PLAYER_INSERT_COLUMNS, PlayerRow(d))
         == [Id(d.uuid), Str(d.username), StrOrNull(d.lastAddress), Stamp(d.firstJoin), Stamp(d.lastJoin), StrOrNull(d.lastServer)]
  {
  }

  /** `getCreatePlayerRecordStatement`. */
  method CreatePlayerStatement(d: PlayerData) returns (st: PreparedStatement)
    ensures fresh(st) && st.sql == InsertSql(PLAYERS, PLAYER_INSERT_COLUMNS)
    ensures st.params == Positional(Values(st.sql, PlayerRow(d), None))
  {
    st := new PreparedStatement(InsertSql(PLAYERS, PLAYER_INSERT_COLUMNS));
    BindPlayerInsert(st, d);
    PlayerInsertValues(d);
  }

  method BindPlayerInsert(st: PreparedStatement, d: PlayerData)
    requires st.params == map[]
    modifies st
    ensures st.params == Positional(ColumnValues(PLAYER_INSERT_COLUMNS, PlayerRow(d)))
  {
    ghost var vs := ColumnValues(PLAYER_INSERT_COLUMNS, PlayerRow(d));
    PlayerColumnValues(d);
    Put(st, 1, Id(d.uuid), vs);
    Put(st, 2, Str(d.username), vs);
    Put(st, 3, StrOrNull(d.lastAddress), vs);
    Put(st, 4, Stamp(d.firstJoin), vs);
    Put(st, 5, Stamp(d.lastJoin), vs);
    Put(st, 6, StrOrNull(d.lastServer), vs);
    assert vs[..6] == vs;
  }

  /** A new comment binds its player, staff, date, type and text. */
  lemma CommentColumnValues(c: CommentData)
    ensures ColumnValues(COMMENT_INSERT_COLUMNS, CommentRow(c)) == [Id(c.player), IdOrNull(c.staff), Stamp(c.commentDate), Flag(c.isWarning), Str(c.comment)]
  {
  }

  /** `getCreateCommentStatement`. */
  method CreateCommentStatement(c: CommentData) returns (st: PreparedStatement)
    ensures fresh(st) && st.sql == InsertSql(Records(DB.COMMENTS), COMMENT_INSERT_COLUMNS)
    ensures st.params == Positional(Values(st.sql, CommentRow(c), None))
  {
    st := new PreparedStatement(InsertSql(Records(DB.COMMENTS), COMMENT_INSERT_COLUMNS));
    BindComment(st, c);
    InsertValues(Records(DB.COMMENTS), COMMENT_INSERT_COLUMNS, CommentRow(c), None);
  }

  method BindComment(st: PreparedStatement, c: CommentData)
    requires st.params == map[]
    modifies st
    ensures st.params == Positional(ColumnValues(COMMENT_INSERT_COLUMNS, CommentRow(c)))
  {
    ghost var vs := ColumnValues(COMMENT_INSERT_COLUMNS, CommentRow(c));
    CommentColumnValues(c);
    Put(st, 1, Id(c.player), vs);
    Put(st, 2, IdOrNull(c.staff), vs);
    Put(st, 3, Stamp(c.commentDate), vs);
    Put(st, 4, Flag(c.isWarning), vs);
    Put(st, 5, Str(c.comment), vs);
    assert vs[..5] == vs;
  }

  /** A new kick binds its player, staff, date, scope and reason. */
  lemma KickColumnValues(k: KickData)
    ensures ColumnValues(KICK_INSERT_COLUMNS, KickRow(k)) == [Id(k.player), IdOrNull(k.staff), Stamp(k.kickDate), Flag(k.isGlobal), StrOrNull(k.reason)]
  {
  }

  /** `getCreateKickStatement`. */
  method CreateKickStatement(k: KickData) returns (st: PreparedStatement)
    ensures fresh(st) && st.sql == InsertSql(Records(DB.KICKS), KICK_INSERT_COLUMNS)
    ensures st.params == Positional(Values(st.sql, KickRow(k), None))
  {
    st := new PreparedStatement(InsertSql(Records(DB.KICKS), KICK_INSERT_COLUMNS));
    BindKick(st, k);
    InsertValues(Records(DB.KICKS), KICK_INSERT_COLUMNS, KickRow(k), None);
  }

  method BindKick(st: PreparedStatement, k: KickData)
    requires st.params == map[]
    modifies st
    ensures st.params == Positional(ColumnValues(KICK_INSERT_COLUMNS, KickRow(k)))
  {
    ghost var vs := ColumnValues(KICK_INSERT_COLUMNS, KickRow(k));
    KickColumnValues(k);
    Put(st, 1, Id(k.player), vs);
    Put(st, 2, IdOrNull(k.staff), vs);
    Put(st, 3, Stamp(k.kickDate), vs);
    Put(st, 4, Flag(k.isGlobal), vs);
    Put(st, 5, StrOrNull(k.reason), vs);
    assert vs[..5] == vs;
  }

  // ---------------------------------------------------------------------------
  // Counts and single-key lookups

  function CountColumn(byStaff: bool): Column { if byStaff then STAFF_UUID else PLAYER_UUID }

  /** `<select> <table> WHERE <c> = ?;`: one placeholder, for `c`. */
  function WhereOne(select: Word, table: SqlTable, c: Column): (q: seq<Piece>)
    ensures Roles(q) == [ColumnRole(c)]
  {
    var q1 := Head(select, table, WHERE);
    RolesAppend(q1, Compare(c));
    RolesSnoc(q1 + Compare(c), Kw(END));
    q1 + Compare(c) + [Kw(END)]
  }

  /** The one placeholder of a single-key statement takes the row's value for its column. */
  lemma WhereOneValues(select: Word, table: SqlTable, c: Column, row: Row, options: Option<LookupOptions>)
    ensures Values(WhereOne(select, table, c), row, options) == [ColumnValue(row, c)]
  {
    var vs := Values(WhereOne(select, table, c), row, options);
    assert |vs| == 1 && vs[0] == ColumnValue(row, c);
  }

  /** Binding the row's value at index 1 completes a single-key statement. */
  lemma WhereOneParams(select: Word, table: SqlTable, c: Column, row: Row, v: SqlValue)
    requires ColumnValue(row, c) == v
    ensures Positional(Values(WhereOne(select, table, c), row, None)) == Positional([v])
  {
    WhereOneValues(select, table, c, row, None);
    assert Values(WhereOne(select, table, c), row, None) == [v];
  }

  /** `SELECT COUNT(*) AS count FROM <table> WHERE <playerUuid or staffUuid> = ?;` */
  function CountSql(t: DB.Table, byStaff: bool): seq<Piece> {
    WhereOne(SELECT_COUNT, Records(t), CountColumn(byStaff))
  }

  /** The eight `getCount…Statement`s: one parameter, the player's or the staff member's id. */
  method CountStatement(t: DB.Table, byStaff: bool, uuid: Option<Uuid>) returns (r: Outcome<PreparedStatement>)
    ensures r.Ok? <==> uuid.Some?
    ensures r.Throws? ==> r == Throws(IllegalArgumentException)
    ensures r.Ok? ==> fresh(r.value) && r.value.sql == CountSql(t, byStaff)
                      && r.value.params == Positional(Values(r.value.sql, KeyRow(if byStaff then StaffKey(uuid) else PlayerKey(uuid), NoFilter), None))
  {
    var st := new PreparedStatement(CountSql(t, byStaff));
    var id := NotNull(uuid);
    if id.Throws? {
      return Throws(id.ex);
    }
    BindOne(st, Id(id.value));
    KeyValueOf(if byStaff then StaffKey(uuid) else PlayerKey(uuid), CountColumn(byStaff), Id(id.value));
    WhereOneParams(SELECT_COUNT, Records(t), CountColumn(byStaff), KeyRow(if byStaff then StaffKey(uuid) else PlayerKey(uuid), NoFilter), Id(id.value));
    r := Ok(st);
  }

  /** `SELECT * FROM players WHERE <uuid or username> = ?;` */
  function PlayerLookupSql(c: Column): seq<Piece> {
    WhereOne(SELECT_ALL, PLAYERS, c)
  }

  /** The value a key row gives its key's own column. */
  lemma KeyValueOf(key: Key, c: Column, v: SqlValue)
    requires (key.PlayerKey? && c == PLAYER_UUID && key.uuid.Some? && v == Id(key.uuid.value))
          || (key.StaffKey? && c == STAFF_UUID && key.uuid.Some? && v == Id(key.uuid.value))
          || (key.UuidKey? && c == UUID && key.uuid.Some? && v == Id(key.uuid.value))
          || (key.UsernameKey? && c == USERNAME && key.username.Some? && v == Str(key.username.value))
    ensures ColumnValue(KeyRow(key, NoFilter), c) == v
  {
  }

  /** Binding the key's value at index 1 completes a player lookup. */
  lemma PlayerLookupParams(key: Key, c: Column, v: SqlValue)
    requires ColumnValue(KeyRow(key, NoFilter), c) == v
    ensures Positional(Values(PlayerLookupSql(c), KeyRow(key, NoFilter), None)) == Positional([v])
  {
    WhereOneParams(SELECT_ALL, PLAYERS, c, KeyRow(key, NoFilter), v);
  }

  /** `getRetrievePlayerRecordStatement`. */
  method RetrievePlayerStatement(uuid: Option<Uuid>) returns (r: Outcome<PreparedStatement>)
    ensures r.Ok? <==> uuid.Some?
    ensures r.Throws? ==> r == Throws(IllegalArgumentException)
    ensures r.Ok? ==> fresh(r.value) && r.value.sql == PlayerLookupSql(UUID)
                      && r.value.params == Positional(Values(r.value.sql, KeyRow(UuidKey(uuid), NoFilter), None))
  {
    var st := new PreparedStatement(PlayerLookupSql(UUID));
    var id := NotNull(uuid);
    if id.Throws? {
      return Throws(id.ex);
    }
    BindOne(st, Id(id.value));
    KeyValueOf(UuidKey(uuid), UUID, Id(id.value));
    PlayerLookupParams(UuidKey(uuid), UUID, Id(id.value));
    r := Ok(st);
  }

  /** `getRetrievePlayerByUsernameStatement`. */
  method RetrievePlayerByUsernameStatement(username: Option<string>) returns (r: Outcome<PreparedStatement>)
    ensures r.Ok? <==> username.Some?
    ensures r.Throws? ==> r == Throws(IllegalArgumentException)
    ensures r.Ok? ==> fresh(r.value) && r.value.sql == PlayerLookupSql(USERNAME)
                      && r.value.params == Positional(Values(r.value.sql, KeyRow(UsernameKey(username), NoFilter), None))
  {
    var st := new PreparedStatement(PlayerLookupSql(USERNAME));
    var name := NotNull(username);
    if name.Throws? {
      return Throws(name.ex);
    }
    BindOne(st, Str(name.value));
    KeyValueOf(UsernameKey(username), USERNAME, Str(name.value));
    PlayerLookupParams(UsernameKey(username), USERNAME, Str(name.value));
    r := Ok(st);
  }

  // ---------------------------------------------------------------------------
  // Lookups with options

  /** A record lookup: the table, the key and the extra filter. */
  datatype Lookup = Lookup(table: DB.Table, key: Key, filter: Filter)

  /** The lookups the factory offers (`getRetrieve…Statement` with options). */
  predicate Supported(l: Lookup) {
    match l.key
    case PlayerKey(_) =>
      l.filter.NoFilter? || (l.filter.StatusFilter? && Scoped(l.table)) || (l.filter.TypeFilter? && l.table == DB.COMMENTS)
    case StaffKey(_) => l.filter.NoFilter?
    case AddressKey(_) => Scoped(l.table) && !l.filter.TypeFilter?
    case PlayerOrAddressKey(_, _) => Scoped(l.table) && !l.filter.TypeFilter?
    case UuidKey(_) => false
    case UsernameKey(_) => false
  }

  /** The key condition: one placeholder per key column, player before address. */
  function KeyClause(k: Key): (q: seq<Piece>)
    ensures Roles(q) == match k
                        case PlayerKey(_) => [ColumnRole(PLAYER_UUID)]
                        case StaffKey(_) => [ColumnRole(STAFF_UUID)]
                        case AddressKey(_) => [ColumnRole(PLAYER_IP)]
                        case PlayerOrAddressKey(_, _) => [ColumnRole(PLAYER_UUID), ColumnRole(PLAYER_IP)]
                        case UuidKey(_) => [ColumnRole(UUID)]
                        case UsernameKey(_) => [ColumnRole(USERNAME)]
  {
    match k
    case PlayerKey(_) => Compare(PLAYER_UUID)
    case StaffKey(_) => Compare(STAFF_UUID)
    case AddressKey(_) => Compare(PLAYER_IP)
    case PlayerOrAddressKey(_, _) =>
      var q1 := [Kw(OPEN)] + Compare(PLAYER_UUID) + [Kw(OR)];
      var q2 := q1 + Compare(PLAYER_IP);
      RolesOne(Kw(OPEN));
      RolesAppend([Kw(OPEN)], Compare(PLAYER_UUID));
      RolesSnoc([Kw(OPEN)] + Compare(PLAYER_UUID), Kw(OR));
      RolesAppend(q1, Compare(PLAYER_IP));
      RolesSnoc(q2, Kw(CLOSE));
      q2 + [Kw(CLOSE)]
    case UuidKey(_) => Compare(UUID)
    case UsernameKey(_) => Compare(USERNAME)
  }

  /** The extra condition: a placeholder for the status or the type, when filtered. */
  function FilterClause(f: Filter): (q: seq<Piece>)
    ensures Roles(q) == match f
                        case NoFilter => []
                        case StatusFilter(_) => [ColumnRole(STATUS)]
                        case TypeFilter(_) => [ColumnRole(IS_WARNING)]
  {
    var c := if f.StatusFilter? then STATUS else IS_WARNING;
    if f.NoFilter? then []
    else
      RolesOne(Kw(AND));
      RolesAppend([Kw(AND)], Compare(c));
      [Kw(AND)] + Compare(c)
  }

  /**
   * The date condition of `addDateFilter` for present options: both bounds
   * give `BETWEEN ? AND ?`, only a before-date `< ?`, only an after-date
   * `> ?`, neither nothing. The placeholders stand for the after-date (the
   * lower bound) and then the before-date, each when present.
   */
  function DateFilter(c: Column, o: LookupOptions): (q: seq<Piece>)
    ensures Roles(q) == (if o.dateAfter.Some? then [DateAfter] else []) + (if o.dateBefore.Some? then [DateBefore] else [])
  {
    if o.dateBefore.None? && o.dateAfter.None? then []
    else
      var q1 := [Kw(AND)] + [Name(c)];
      RolesOne(Kw(AND));
      RolesWord([Kw(AND)], Name(c));
      if o.dateBefore.Some? && o.dateAfter.Some? then
        var q2 := q1 + [Kw(BETWEEN)] + [Param(DateAfter)];
        RolesWord(q1, Kw(BETWEEN));
        RolesParam(q1 + [Kw(BETWEEN)], DateAfter);
        RolesWord(q2, Kw(AND));
        RolesParam(q2 + [Kw(AND)], DateBefore);
        q2 + [Kw(AND)] + [Param(DateBefore)]
      else
        var (w, r) := if o.dateBefore.Some? then (BEFORE, DateBefore) else (AFTER, DateAfter);
        RolesWord(q1, Kw(w));
        RolesParam(q1 + [Kw(w)], r);
        q1 + [Kw(w)] + [Param(r)]
  }

  /** Text adds no placeholder; a placeholder adds its role. */
  lemma RolesWord(a: seq<Piece>, p: Piece)
    requires !p.Param?
    ensures Roles(a + [p]) == Roles(a)
  {
    RolesSnoc(a, p);
    assert Roles(a) + [] == Roles(a);
  }

  lemma RolesParam(a: seq<Piece>, r: Role)
    ensures Roles(a + [Param(r)]) == Roles(a) + [r]
  {
    RolesSnoc(a, Param(r));
  }

  /** `addDateFilter`: `null` options are dereferenced and throw NullPointerException. */
  function AddDateFilter(c: Column, options: Option<LookupOptions>): (r: Outcome<seq<Piece>>)
    ensures r.Throws? <==> options.None?
    ensures r.Throws? ==> r.ex == NullPointerException
    ensures r.Ok? ==> r.value == DateFilter(c, options.value)
  {
    if options.None? then Throws(NullPointerException) else Ok(DateFilter(c, options.value))
  }

  /** ` ORDER BY id DESC LIMIT ? OFFSET ?;`: the limit's placeholder, then the offset's. */
  function SelectTail(): (q: seq<Piece>)
    ensures Roles(q) == [Limit, Offset]
  {
    var q1 := [Kw(ORDER_LIMIT)] + [Param(Limit)];
    var q2 := q1 + [Kw(OFFSET)] + [Param(Offset)];
    RolesOne(Kw(ORDER_LIMIT));
    RolesSnoc([Kw(ORDER_LIMIT)], Param(Limit));
    RolesSnoc(q1, Kw(OFFSET));
    RolesSnoc(q1 + [Kw(OFFSET)], Param(Offset));
    RolesSnoc(q2, Kw(END));
    q2 + [Kw(END)]
  }

  /**
   * `SELECT * FROM <table> WHERE <key>[ AND <filter>]<date filter> ORDER BY id DESC LIMIT ? OFFSET ?;`:
   * the key's and the filter's placeholders, the date filter's, then the limit's and the offset's.
   */
  function SelectSql(l: Lookup, dateFilter: seq<Piece>): (q: seq<Piece>)
    ensures Roles(q) == Roles(KeyClause(l.key)) + Roles(FilterClause(l.filter)) + Roles(dateFilter) + [Limit, Offset]
  {
    var h := Head(SELECT_ALL, Records(l.table), WHERE);
    var q1 := h + KeyClause(l.key);
    var q2 := q1 + FilterClause(l.filter);
    var q3 := q2 + dateFilter;
    RolesAppend(h, KeyClause(l.key));
    assert Roles(q1) == Roles(KeyClause(l.key)) by {
      assert [] + Roles(KeyClause(l.key)) == Roles(KeyClause(l.key));
    }
    RolesAppend(q1, FilterClause(l.filter));
    RolesAppend(q2, dateFilter);
    RolesAppend(q3, SelectTail());
    q3 + SelectTail()
  }

  /** The values `applyOptions` binds: after-date, before-date (each when present), limit, offset. */
  function OptionValues(o: LookupOptions): seq<SqlValue> {
    (if o.dateAfter.Some? then [Stamp(o.dateAfter.value)] else [])
    + (if o.dateBefore.Some? then [Stamp(o.dateBefore.value)] else [])
    + [Number(o.limit), Number(o.offset)]
  }

  /** The columns a lookup's key and filter compare with, in order: player, address, status or type. */
  function KeyColumns(l: Lookup): seq<Column> {
    KeyClauseColumns(l.key) + FilterColumns(l.filter)
  }

  function KeyClauseColumns(k: Key): seq<Column> {
    match k
    case PlayerKey(_) => [PLAYER_UUID]
    case StaffKey(_) => [STAFF_UUID]
    case AddressKey(_) => [PLAYER_IP]
    case PlayerOrAddressKey(_, _) => [PLAYER_UUID, PLAYER_IP]
    case UuidKey(_) => [UUID]
    case UsernameKey(_) => [USERNAME]
  }

  function FilterColumns(f: Filter): seq<Column> {
    match f
    case NoFilter => []
    case StatusFilter(_) => [STATUS]
    case TypeFilter(_) => [IS_WARNING]
  }

  /** The values the key and filter binders set, in order. */
  function KeyValues(l: Lookup): seq<SqlValue> {
    ColumnValues(KeyColumns(l), KeyRow(l.key, l.filter))
  }

  /**
   * The placeholders of a lookup are those of its key and filter followed by
   * those `applyOptions` fills: the date placeholders `addDateFilter` wrote
   * receive exactly the dates `applyOptions` binds, in the same order.
   */
  lemma SelectValues(l: Lookup, o: LookupOptions)
    ensures Values(SelectSql(l, DateFilter(DateColumn(l.table), o)), KeyRow(l.key, l.filter), Some(o)) == KeyValues(l) + OptionValues(o)
  {
    var df := DateFilter(DateColumn(l.table), o);
    var row := KeyRow(l.key, l.filter);
    var kr := ColumnRoles(KeyColumns(l));
    var tail := Roles(df) + [Limit, Offset];
    SelectRoles(l, df);
    MeaningsAppend(row, Some(o), kr, tail);
    MeaningsColumns(row, Some(o), KeyColumns(l));
    OptionMeanings(row, DateColumn(l.table), o);
  }

  /** The date placeholders, the limit's and the offset's receive what `applyOptions` binds. */
  lemma OptionMeanings(row: Row, c: Column, o: LookupOptions)
    ensures Meanings(row, Some(o), Roles(DateFilter(c, o)) + [Limit, Offset]) == OptionValues(o)
  {
  }

  /** A lookup's placeholders: its key columns', then the date filter's, the limit's and the offset's. */
  lemma SelectRoles(l: Lookup, df: seq<Piece>)
    ensures Roles(SelectSql(l, df)) == ColumnRoles(KeyColumns(l)) + (Roles(df) + [Limit, Offset])
  {
    KeyRoles(l);
    AppendAssoc(ColumnRoles(KeyColumns(l)), Roles(df), [Limit, Offset]);
  }

  lemma AppendAssoc<T>(a: seq<T>, b: seq<T>, c: seq<T>)
    ensures a + b + c == a + (b + c)
  {
  }

  /** The key's and the filter's placeholders are those of the columns they compare with. */
  lemma KeyRoles(l: Lookup)
    ensures Roles(KeyClause(l.key)) + Roles(FilterClause(l.filter)) == ColumnRoles(KeyColumns(l))
  {
    ColumnRolesAppend(KeyClauseColumns(l.key), FilterColumns(l.filter));
    assert Roles(KeyClause(l.key)) == ColumnRoles(KeyClauseColumns(l.key));
    assert Roles(FilterClause(l.filter)) == ColumnRoles(FilterColumns(l.filter));
  }

  /** Which keys a lookup needs present: the player, the address and the status, as it has them. */
  predicate KeysPresent(l: Lookup) {
    (!(l.key.PlayerKey? || l.key.StaffKey? || l.key.PlayerOrAddressKey?) || l.key.uuid.Some?)
    && (!(l.key.AddressKey? || l.key.PlayerOrAddressKey?) || l.key.address.Some?)
    && (!l.filter.StatusFilter? || l.filter.status.Some?)
  }

  /**
   * The key and filter binds of a lookup: player, address, status or type,
   * from index 1; a missing one throws IllegalArgumentException. Returns the
   * next index, which is where `applyOptions` starts.
   */
  method BindKeys(st: PreparedStatement, l: Lookup) returns (r: Outcome<int>)
    requires Supported(l) && st.params == map[]
    modifies st
    ensures r.Ok? <==> KeysPresent(l)
    ensures r.Throws? ==> r == Throws(IllegalArgumentException)
    ensures r.Ok? ==> st.params == Positional(KeyValues(l)) && r.value == |KeyValues(l)| + 1
  {
    ghost var vs := KeyValues(l);
    var index := 1;
    if l.key.PlayerKey? || l.key.StaffKey? || l.key.PlayerOrAddressKey? {
      var id := NotNull(l.key.uuid);
      if id.Throws? {
        return Throws(id.ex);
      }
      Put(st, index, Id(id.value), vs);
      index := index + 1;
    }
    if l.key.AddressKey? || l.key.PlayerOrAddressKey? {
      var address := NotNull(l.key.address);
      if address.Throws? {
        return Throws(address.ex);
      }
      Put(st, index, Str(address.value), vs);
      index := index + 1;
    }
    if l.filter.StatusFilter? {
      var status := NotNull(l.filter.status);
      if status.Throws? {
        return Throws(status.ex);
      }
      Put(st, index, Str(StatusToString(status.value)), vs);
      index := index + 1;
    } else if l.filter.TypeFilter? {
      Put(st, index, Flag(l.filter.isWarning), vs);
      index := index + 1;
    }
    assert vs[..index - 1] == vs;
    r := Ok(index);
  }

  /**
   * `applyOptions`: from `index`, the after-date and the before-date when
   * present, then the limit, then the offset.
   */
  method ApplyOptions(st: PreparedStatement, o: LookupOptions, index: int, ghost bound: seq<SqlValue>)
    requires st.params == Positional(bound) && index == |bound| + 1
    modifies st
    ensures st.params == Positional(bound + OptionValues(o))
  {
    ghost var vs := bound + OptionValues(o);
    assert vs[..index - 1] == bound;
    var i := index;
    if o.dateAfter.Some? {
      Put(st, i, Stamp(o.dateAfter.value), vs);
      i := i + 1;
    }
    if o.dateBefore.Some? {
      Put(st, i, Stamp(o.dateBefore.value), vs);
      i := i + 1;
    }
    Put(st, i, Number(o.limit), vs);
    i := i + 1;
    Put(st, i, Number(o.offset), vs);
    assert vs[..i] == vs;
  }

  /** The player and staff lookups pass their options through `optionsOrDefault`; the address lookups do not. */
  predicate DefaultsOptions(l: Lookup) { l.key.PlayerKey? || l.key.StaffKey? }

  /**
   * The `getRetrieve…Statement`s with options, as written: the SQL is
   * prepared with the raw options, so `null` options throw
   * NullPointerException in `addDateFilter` before `optionsOrDefault` is
   * reached, and the default limit of 100 never applies.
   */
  method RetrieveStatementAsWritten(l: Lookup, options: Option<LookupOptions>) returns (r: Outcome<PreparedStatement>)
    requires Supported(l)
    ensures options.None? ==> r == Throws(NullPointerException)
    ensures options.Some? ==> (r.Ok? <==> KeysPresent(l))
    ensures options.Some? && r.Throws? ==> r == Throws(IllegalArgumentException)
    ensures r.Ok? ==> fresh(r.value) && r.value.sql == SelectSql(l, DateFilter(DateColumn(l.table), options.value))
                      && r.value.params == Positional(Values(r.value.sql, KeyRow(l.key, l.filter), options))
  {
    var dateFilter := AddDateFilter(DateColumn(l.table), options);
    if dateFilter.Throws? {
      return Throws(dateFilter.ex);
    }
    var st := new PreparedStatement(SelectSql(l, dateFilter.value));
    var next := BindKeys(st, l);
    if next.Throws? {
      return Throws(next.ex);
    }
    // The address lookups pass the raw options; they are present here, since
    // `addDateFilter` has already dereferenced them.
    var applied := if DefaultsOptions(l) then OptionsOrDefault(options) else options.value;
    ApplyOptions(st, applied, next.value, KeyValues(l));
    SelectValues(l, options.value);
    r := Ok(st);
  }

  /**
   * The lookups with `optionsOrDefault` applied before the SQL is prepared,
   * for every lookup: `null` options give the default of limit 100.
   */
  method RetrieveStatement(l: Lookup, options: Option<LookupOptions>) returns (r: Outcome<PreparedStatement>)
    requires Supported(l)
    ensures r.Ok? <==> KeysPresent(l)
    ensures r.Throws? ==> r == Throws(IllegalArgumentException)
    ensures r.Ok? ==>
              var o := OptionsOrDefault(options);
              && fresh(r.value) && r.value.sql == SelectSql(l, DateFilter(DateColumn(l.table), o))
              && r.value.params == Positional(Values(r.value.sql, KeyRow(l.key, l.filter), Some(o)))
  {
    var o := OptionsOrDefault(options);
    var st := new PreparedStatement(SelectSql(l, DateFilter(DateColumn(l.table), o)));
    var next := BindKeys(st, l);
    if next.Throws? {
      return Throws(next.ex);
    }
    ApplyOptions(st, o, next.value, KeyValues(l));
    SelectValues(l, o);
    r := Ok(st);
  }

  /** With no options, the corrected lookup binds limit 100 and offset 0 as its last two parameters. */
  lemma DefaultLimitBound(l: Lookup)
    ensures var vs := Values(SelectSql(l, DateFilter(DateColumn(l.table), OptionsOrDefault(None))), KeyRow(l.key, l.filter), Some(OptionsOrDefault(None)));
            |vs| >= 2 && vs[|vs| - 2..] == [Number(100), Number(0)]
  {
    SelectValues(l, OptionsOrDefault(None));
  }

  // ---------------------------------------------------------------------------
  // Updates

  /** The statement `getUpdatePlayerRecordStatement` prepares. */
  datatype PlayerUpdate = FULL | JOINING | LEAVING | DYNAMIC | INSERT

  function ChangedGroups(join: bool, leave: bool, dynamic: bool): nat {
    (if join then 1 else 0) + (if leave then 1 else 0) + (if dynamic then 1 else 0)
  }

  /**
   * The full UPDATE when more than one group of columns changed, that
   * group's UPDATE when exactly one did, and an INSERT when none did.
   */
  function ChoosePlayerUpdate(join: bool, leave: bool, dynamic: bool): (u: PlayerUpdate)
    ensures u == INSERT <==> ChangedGroups(join, leave, dynamic) == 0
    ensures u == FULL <==> ChangedGroups(join, leave, dynamic) > 1
    ensures u == JOINING <==> join && !leave && !dynamic
    ensures u == LEAVING <==> leave && !join && !dynamic
    ensures u == DYNAMIC <==> dynamic && !join && !leave
  {
    if join || leave || dynamic then
      if ChangedGroups(join, leave, dynamic) > 1 then FULL
      else if join then JOINING
      else if leave then LEAVING
      else DYNAMIC
    else INSERT
  }

  /** The columns each UPDATE sets. */
  function UpdatedColumns(u: PlayerUpdate): seq<Column> {
    match u
    case FULL => [USERNAME, LAST_JOIN, LAST_LEAVE, LAST_IP, LAST_SERVER, PLAYTIME, TOTAL_JOINS]
    case JOINING => [USERNAME, LAST_JOIN, LAST_IP, TOTAL_JOINS]
    case LEAVING => [LAST_LEAVE, LAST_SERVER, PLAYTIME]
    case DYNAMIC => [LAST_SERVER]
    case INSERT => []
  }

  /** The columns whose setters raise each change flag of `PlayerRecordModification`. */
  const JOIN_COLUMNS: set<Column> := {USERNAME, LAST_JOIN, TOTAL_JOINS, LAST_IP}
  const LEAVE_COLUMNS: set<Column> := {LAST_LEAVE, PLAYTIME}
  const DYNAMIC_COLUMNS: set<Column> := {LAST_SERVER}

  /** Every column of a changed group is written by the chosen UPDATE. */
  lemma UpdateCoversChanges(join: bool, leave: bool, dynamic: bool)
    ensures var u := ChoosePlayerUpdate(join, leave, dynamic);
            && (join ==> forall c :: c in JOIN_COLUMNS ==> c in UpdatedColumns(u))
            && (leave ==> forall c :: c in LEAVE_COLUMNS ==> c in UpdatedColumns(u))
            && (dynamic ==> forall c :: c in DYNAMIC_COLUMNS ==> c in UpdatedColumns(u))
  {
  }

  function PlayerUpdateSql(u: PlayerUpdate): seq<Piece> {
    if u == INSERT then InsertSql(PLAYERS, PLAYER_INSERT_COLUMNS) else UpdateSql(PLAYERS, UpdatedColumns(u), UUID)
  }

  /** The values a player UPDATE binds: its columns' values, then the player's id. */
  lemma PlayerUpdateValues(d: PlayerData, u: PlayerUpdate)
    requires u != INSERT
    ensures Values(UpdateSql(PLAYERS, UpdatedColumns(u), UUID), PlayerRow(d), None)
         == ColumnValues(UpdatedColumns(u), PlayerRow(d)) + [Id(d.uuid)]
  {
    UpdateValues(PLAYERS, UpdatedColumns(u), UUID, PlayerRow(d), None);
    ColumnValuesSnoc(UpdatedColumns(u), UUID, PlayerRow(d));
  }

  lemma ColumnValuesSnoc(cols: seq<Column>, c: Column, row: Row)
    ensures ColumnValues(cols + [c], row) == ColumnValues(cols, row) + [ColumnValue(row, c)]
  {
    assert ColumnValues(cols + [c], row)[|cols|] == ColumnValue(row, c);
  }

  /**
   * `getUpdatePlayerRecordStatement`: the statement `ChoosePlayerUpdate`
   * names, its parameters the UPDATE's columns and then the player's id. The
   * full and the leaving UPDATE convert the last-leave date with
   * `Timestamp.valueOf`, which throws NullPointerException when it is absent.
   */
  method UpdatePlayerStatement(d: PlayerData, join: bool, leave: bool, dynamic: bool) returns (r: Outcome<PreparedStatement>)
    ensures var u := ChoosePlayerUpdate(join, leave, dynamic);
            r.Throws? <==> (u == FULL || u == LEAVING) && d.lastLeave.None?
    ensures r.Throws? ==> r == Throws(NullPointerException)
    ensures r.Ok? ==> fresh(r.value) && r.value.sql == PlayerUpdateSql(ChoosePlayerUpdate(join, leave, dynamic))
                      && r.value.params == Positional(Values(r.value.sql, PlayerRow(d), None))
  {
    var u := ChoosePlayerUpdate(join, leave, dynamic);
    if u == INSERT {
      var st := CreatePlayerStatement(d);
      return Ok(st);
    }
    var st := new PreparedStatement(UpdateSql(PLAYERS, UpdatedColumns(u), UUID));
    var bound := BindPlayerUpdate(st, d, u);
    if bound.Throws? {
      return Throws(bound.ex);
    }
    PlayerUpdateValues(d, u);
    PlayerUpdateBoundValues(d, u);
    r := Ok(st);
  }

  /** The values one update kind binds, in the order of its columns, then the key. */
  function PlayerUpdateBound(d: PlayerData, u: PlayerUpdate): seq<SqlValue> {
    match u
    case FULL => [Str(d.username), Stamp(d.lastJoin), StampOrNull(d.lastLeave), StrOrNull(d.lastAddress),
                  StrOrNull(d.lastServer), Number(d.playtime), Number(d.totalJoins), Id(d.uuid)]
    case JOINING => [Str(d.username), Stamp(d.lastJoin), StrOrNull(d.lastAddress), Number(d.totalJoins), Id(d.uuid)]
    case LEAVING => [StampOrNull(d.lastLeave), StrOrNull(d.lastServer), Number(d.playtime), Id(d.uuid)]
    case DYNAMIC => [StrOrNull(d.lastServer), Id(d.uuid)]
    case INSERT => [Id(d.uuid)]
  }

  lemma PlayerUpdateBoundValues(d: PlayerData, u: PlayerUpdate)
    ensures ColumnValues(UpdatedColumns(u), PlayerRow(d)) + [Id(d.uuid)] == PlayerUpdateBound(d, u)
  {
    match u
    case FULL => FullBound(d);
    case JOINING => JoiningBound(d);
    case LEAVING => LeavingBound(d);
    case DYNAMIC => DynamicBound(d);
    case INSERT => InsertBound(d);
  }

  lemma FullBound(d: PlayerData)
    ensures ColumnValues(UpdatedColumns(FULL), PlayerRow(d)) + [Id(d.uuid)] == PlayerUpdateBound(d, FULL)
  {
    var vs := ColumnValues(UpdatedColumns(FULL), PlayerRow(d)) + [Id(d.uuid)];
    var bound := PlayerUpdateBound(d, FULL);
    assert |vs| == |bound|;
    forall i | 0 <= i < |vs|
      ensures vs[i] == bound[i]
    {
    }
  }

  lemma JoiningBound(d: PlayerData)
    ensures ColumnValues(UpdatedColumns(JOINING), PlayerRow(d)) + [Id(d.uuid)] == PlayerUpdateBound(d, JOINING)
  {
    var vs := ColumnValues(UpdatedColumns(JOINING), PlayerRow(d)) + [Id(d.uuid)];
    var bound := PlayerUpdateBound(d, JOINING);
    assert |vs| == |bound|;
    forall i | 0 <= i < |vs|
      ensures vs[i] == bound[i]
    {
    }
  }

  lemma LeavingBound(d: PlayerData)
    ensures ColumnValues(UpdatedColumns(LEAVING), PlayerRow(d)) + [Id(d.uuid)] == PlayerUpdateBound(d, LEAVING)
  {
    var vs := ColumnValues(UpdatedColumns(LEAVING), PlayerRow(d)) + [Id(d.uuid)];
    var bound := PlayerUpdateBound(d, LEAVING);
    assert |vs| == |bound|;
    forall i | 0 <= i < |vs|
      ensures vs[i] == bound[i]
    {
    }
  }

  lemma DynamicBound(d: PlayerData)
    ensures ColumnValues(UpdatedColumns(DYNAMIC), PlayerRow(d)) + [Id(d.uuid)] == PlayerUpdateBound(d, DYNAMIC)
  {
    var vs := ColumnValues(UpdatedColumns(DYNAMIC), PlayerRow(d)) + [Id(d.uuid)];
    var bound := PlayerUpdateBound(d, DYNAMIC);
    assert |vs| == |bound|;
    forall i | 0 <= i < |vs|
      ensures vs[i] == bound[i]
    {
    }
  }

  lemma InsertBound(d: PlayerData)
    ensures ColumnValues(UpdatedColumns(INSERT), PlayerRow(d)) + [Id(d.uuid)] == PlayerUpdateBound(d, INSERT)
  {
    var vs := ColumnValues(UpdatedColumns(INSERT), PlayerRow(d)) + [Id(d.uuid)];
    var bound := PlayerUpdateBound(d, INSERT);
    assert |vs| == |bound|;
    forall i | 0 <= i < |vs|
      ensures vs[i] == bound[i]
    {
    }
  }

  /** The setters of one update kind, in the order of its columns; the key comes last. */
  method BindPlayerUpdate(st: PreparedStatement, d: PlayerData, u: PlayerUpdate) returns (r: Outcome<()>)
    requires u != INSERT && st.params == map[]
    modifies st
    ensures r.Throws? <==> (u == FULL || u == LEAVING) && d.lastLeave.None?
    ensures r.Throws? ==> r == Throws(NullPointerException)
    ensures r.Ok? ==> st.params == Positional(PlayerUpdateBound(d, u))
  {
    ghost var vs := PlayerUpdateBound(d, u);
    var keyIndex;
    if u == FULL {
      Put(st, 1, Str(d.username), vs);
      Put(st, 2, Stamp(d.lastJoin), vs);
      if d.lastLeave.None? {
        return Throws(NullPointerException);
      }
      Put(st, 3, Stamp(d.lastLeave.value), vs);
      Put(st, 4, StrOrNull(d.lastAddress), vs);
      Put(st, 5, StrOrNull(d.lastServer), vs);
      Put(st, 6, Number(d.playtime), vs);
      Put(st, 7, Number(d.totalJoins), vs);
      keyIndex := 8;
    } else if u == JOINING {
      Put(st, 1, Str(d.username), vs);
      Put(st, 2, Stamp(d.lastJoin), vs);
      Put(st, 3, StrOrNull(d.lastAddress), vs);
      Put(st, 4, Number(d.totalJoins), vs);
      keyIndex := 5;
    } else if u == LEAVING {
      if d.lastLeave.None? {
        return Throws(NullPointerException);
      }
      Put(st, 1, Stamp(d.lastLeave.value), vs);
      Put(st, 2, StrOrNull(d.lastServer), vs);
      Put(st, 3, Number(d.playtime), vs);
      keyIndex := 4;
    } else {
      Put(st, 1, StrOrNull(d.lastServer), vs);
      keyIndex := 2;
    }
    Put(st, keyIndex, Id(d.uuid), vs);
    assert vs[..keyIndex] == vs;
    r := Ok(());
  }

  /** The columns a ban or mute UPDATE sets: status, terminating staff, termination date and reason. */
  function TerminationColumns(t: DB.Table): seq<Column>
    requires Scoped(t)
  {
    [STATUS, EndStaffColumn(t), EndDateColumn(t), EndReasonColumn(t)]
  }

  function PunishmentUpdateSql(t: DB.Table): seq<Piece>
    requires Scoped(t)
  {
    UpdateSql(Records(t), TerminationColumns(t), ID)
  }

  /** A ban or mute UPDATE binds the status, the termination fields and then the id. */
  lemma TerminationValues(t: DB.Table, p: Punishment)
    requires Scoped(t)
    ensures ColumnValues(TerminationColumns(t) + [ID], ScopedRow(p))
         == [Str(StatusToString(p.status)), IdOrNull(p.terminatingStaff), StampOrNull(p.terminationDate), StrOrNull(p.terminationReason), Number(p.id)]
  {
  }

  /**
   * `getUpdatePlayerBanStatement` / `getUpdatePlayerMuteStatement`: a changed
   * record gets the UPDATE of its status and termination fields by id; an
   * unchanged one gets the INSERT of the whole record.
   */
  method UpdatePunishmentStatement(t: DB.Table, p: Punishment, changed: bool) returns (r: Outcome<PreparedStatement>)
    requires Scoped(t)
    ensures changed ==> r.Ok? && r.value.sql == PunishmentUpdateSql(t)
    ensures !changed ==> (r.Ok? <==> p.player.Some?) && (r.Ok? ==> r.value.sql == ScopedInsertSql(t, p))
    ensures r.Throws? ==> r == Throws(IllegalArgumentException)
    ensures r.Ok? ==> fresh(r.value) && r.value.params == Positional(Values(r.value.sql, ScopedRow(p), None))
  {
    if !changed {
      r := CreateScopedStatement(t, p);
      return;
    }
    var st := new PreparedStatement(PunishmentUpdateSql(t));
    BindTermination(st, t, p);
    UpdateValues(Records(t), TerminationColumns(t), ID, ScopedRow(p), None);
    r := Ok(st);
  }

  method BindTermination(st: PreparedStatement, t: DB.Table, p: Punishment)
    requires Scoped(t) && st.params == map[]
    modifies st
    ensures st.params == Positional(ColumnValues(TerminationColumns(t) + [ID], ScopedRow(p)))
  {
    ghost var vs := ColumnValues(TerminationColumns(t) + [ID], ScopedRow(p));
    TerminationValues(t, p);
    Put(st, 1, Str(StatusToString(p.status)), vs);
    Put(st, 2, IdOrNull(p.terminatingStaff), vs);
    Put(st, 3, StampOrNull(p.terminationDate), vs);
    Put(st, 4, StrOrNull(p.terminationReason), vs);
    Put(st, 5, Number(p.id), vs);
    assert vs[..5] == vs;
  }

  // ---------------------------------------------------------------------------
  // The SQL text

  /** The column names separated by ",", as an INSERT lists them. */
  function ColumnList(cols: seq<Column>): string {
    if cols == [] then "" else if |cols| == 1 then ColumnName(cols[0]) else ColumnName(cols[0]) + "," + ColumnList(cols[1..])
  }

  /** `n` question marks separated by ",". */
  function MarkList(n: nat): string {
    if n == 0 then "" else if n == 1 then "?" else "?," + MarkList(n - 1)
  }

  /** "<c1> = ?, <c2> = ?, ...", as an UPDATE assigns them. */
  function AssignmentList(cols: seq<Column>): string {
    if cols == [] then "" else if |cols| == 1 then ColumnName(cols[0]) + " = ?"
    else ColumnName(cols[0]) + " = ?" + ", " + AssignmentList(cols[1..])
  }

  lemma HeadText(first: Word, table: SqlTable, second: Word)
    ensures Render(Head(first, table, second)) == WordText(first) + TableName(table) + WordText(second)
  {
    RenderOne(Kw(first));
    RenderSnoc([Kw(first)], Tbl(table));
    RenderSnoc([Kw(first)] + [Tbl(table)], Kw(second));
  }

  lemma {:induction false} NamesText(cols: seq<Column>)
    ensures Render(Names(cols)) == ColumnList(cols)
  {
    if |cols| == 1 {
      RenderOne(Name(cols[0]));
    } else if |cols| > 1 {
      NamesText(cols[1..]);
      RenderOne(Name(cols[0]));
      RenderSnoc([Name(cols[0])], Kw(COMMA));
      RenderAppend([Name(cols[0])] + [Kw(COMMA)], Names(cols[1..]));
    }
  }

  lemma {:induction false} MarksText(cols: seq<Column>)
    ensures Render(Marks(cols)) == MarkList(|cols|)
  {
    if |cols| == 1 {
      RenderOne(Param(ColumnRole(cols[0])));
    } else if |cols| > 1 {
      MarksText(cols[1..]);
      RenderOne(Param(ColumnRole(cols[0])));
      RenderSnoc([Param(ColumnRole(cols[0]))], Kw(COMMA));
      RenderAppend([Param(ColumnRole(cols[0]))] + [Kw(COMMA)], Marks(cols[1..]));
    }
  }

  lemma {:induction false} AssignmentsText(cols: seq<Column>)
    ensures Render(Assignments(cols)) == AssignmentList(cols)
  {
    if |cols| == 1 {
      CompareText(cols[0]);
    } else if |cols| > 1 {
      AssignmentsText(cols[1..]);
      CompareText(cols[0]);
      RenderSnoc(Compare(cols[0]), Kw(SEPARATOR));
      RenderAppend(Compare(cols[0]) + [Kw(SEPARATOR)], Assignments(cols[1..]));
    }
  }

  /** The pieces of an INSERT spell its words, the table, the column list and the marks, in that order. */
  lemma InsertPieces(table: SqlTable, cols: seq<Column>)
    ensures Render(InsertSql(table, cols))
         == WordText(INSERT_INTO) + TableName(table) + WordText(OPEN_COLUMNS) + ColumnList(cols)
            + WordText(VALUES) + MarkList(|cols|) + WordText(CLOSE_VALUES)
  {
    var q1 := Head(INSERT_INTO, table, OPEN_COLUMNS) + Names(cols);
    var q2 := q1 + [Kw(VALUES)];
    var q3 := q2 + Marks(cols);
    HeadText(INSERT_INTO, table, OPEN_COLUMNS);
    NamesText(cols);
    MarksText(cols);
    RenderAppend(Head(INSERT_INTO, table, OPEN_COLUMNS), Names(cols));
    RenderSnoc(q1, Kw(VALUES));
    RenderAppend(q2, Marks(cols));
    RenderSnoc(q3, Kw(CLOSE_VALUES));
  }

  /** Every INSERT reads "INSERT INTO <table> (<columns>) VALUES (<one ? per column>);". */
  lemma InsertText(table: SqlTable, cols: seq<Column>)
    ensures Render(InsertSql(table, cols))
         == "INSERT INTO " + TableName(table) + " (" + ColumnList(cols) + ") VALUES (" + MarkList(|cols|) + ");"
  {
    InsertPieces(table, cols);
    InsertWords();
  }

  lemma InsertWords()
    ensures WordText(INSERT_INTO) == "INSERT INTO " && WordText(OPEN_COLUMNS) == " ("
    ensures WordText(VALUES) == ") VALUES (" && WordText(CLOSE_VALUES) == ");"
  {
  }

  /** Every UPDATE reads "UPDATE <table> SET <c> = ?, ... WHERE <key> = ?;". */
  lemma UpdateText(table: SqlTable, cols: seq<Column>, key: Column)
    ensures Render(UpdateSql(table, cols, key))
         == "UPDATE " + TableName(table) + " SET " + AssignmentList(cols) + " WHERE " + ColumnName(key) + " = ?;"
  {
    UpdatePieces(table, cols, key);
    UpdateWords();
    CompareEnd("UPDATE " + TableName(table) + " SET " + AssignmentList(cols) + " WHERE ", ColumnName(key));
  }

  lemma UpdatePieces(table: SqlTable, cols: seq<Column>, key: Column)
    ensures Render(UpdateSql(table, cols, key))
         == WordText(UPDATE) + TableName(table) + WordText(SET) + AssignmentList(cols) + WordText(WHERE)
            + (ColumnName(key) + " = ?") + WordText(END)
  {
    var q1 := Head(UPDATE, table, SET) + Assignments(cols);
    var q2 := q1 + [Kw(WHERE)];
    var q3 := q2 + Compare(key);
    HeadText(UPDATE, table, SET);
    AssignmentsText(cols);
    CompareText(key);
    RenderAppend(Head(UPDATE, table, SET), Assignments(cols));
    RenderSnoc(q1, Kw(WHERE));
    RenderAppend(q2, Compare(key));
    RenderSnoc(q3, Kw(END));
  }

  lemma UpdateWords()
    ensures WordText(UPDATE) == "UPDATE " && WordText(SET) == " SET "
    ensures WordText(WHERE) == " WHERE " && WordText(END) == ";"
  {
  }

  /** A comparison followed by the closing ';'. */
  lemma CompareEnd(x: string, name: string)
    ensures x + (name + " = ?") + ";" == x + name + " = ?;"
  {
    AppendAssoc(x, name, " = ?");
    AppendAssoc(x + name, " = ?", ";");
    assert " = ?" + ";" == " = ?;";
  }

  /** Every count and single-key lookup reads "<select><table> WHERE <column> = ?;". */
  lemma WhereOneText(select: Word, table: SqlTable, c: Column)
    ensures Render(WhereOne(select, table, c)) == WordText(select) + TableName(table) + " WHERE " + ColumnName(c) + " = ?;"
  {
    WhereOnePieces(select, table, c);
    WhereWords();
    CompareEnd(WordText(select) + TableName(table) + " WHERE ", ColumnName(c));
  }

  lemma WhereOnePieces(select: Word, table: SqlTable, c: Column)
    ensures Render(WhereOne(select, table, c))
         == WordText(select) + TableName(table) + WordText(WHERE) + (ColumnName(c) + " = ?") + WordText(END)
  {
    var q1 := Head(select, table, WHERE);
    HeadText(select, table, WHERE);
    CompareText(c);
    RenderAppend(q1, Compare(c));
    RenderSnoc(q1 + Compare(c), Kw(END));
  }

  lemma WhereWords()
    ensures WordText(WHERE) == " WHERE " && WordText(END) == ";"
  {
  }

  /** The eight count statements: by player or by staff member, in each record table. */
  lemma CountText(t: DB.Table, byStaff: bool)
    ensures Render(CountSql(t, byStaff))
         == "SELECT COUNT(*) AS count FROM " + TableName(Records(t)) + " WHERE " + (if byStaff then "staffUuid" else "playerUuid") + " = ?;"
  {
    WhereOneText(SELECT_COUNT, Records(t), CountColumn(byStaff));
    CountWords(byStaff);
  }

  lemma CountWords(byStaff: bool)
    ensures WordText(SELECT_COUNT) == "SELECT COUNT(*) AS count FROM "
    ensures ColumnName(CountColumn(byStaff)) == if byStaff then "staffUuid" else "playerUuid"
  {
  }

  /** The pieces of the date condition, word by word. */
  lemma DateFilterPieces(c: Column, o: LookupOptions)
    ensures Render(DateFilter(c, o))
         == if o.dateBefore.Some? && o.dateAfter.Some? then WordText(AND) + ColumnName(c) + WordText(BETWEEN) + "?" + WordText(AND) + "?"
            else if o.dateBefore.Some? then WordText(AND) + ColumnName(c) + WordText(BEFORE) + "?"
            else if o.dateAfter.Some? then WordText(AND) + ColumnName(c) + WordText(AFTER) + "?"
            else ""
  {
    if o.dateBefore.Some? || o.dateAfter.Some? {
      var q1 := [Kw(AND)] + [Name(c)];
      RenderOne(Kw(AND));
      RenderSnoc([Kw(AND)], Name(c));
      if o.dateBefore.Some? && o.dateAfter.Some? {
        var q2 := q1 + [Kw(BETWEEN)] + [Param(DateAfter)];
        RenderSnoc(q1, Kw(BETWEEN));
        RenderSnoc(q1 + [Kw(BETWEEN)], Param(DateAfter));
        RenderSnoc(q2, Kw(AND));
        RenderSnoc(q2 + [Kw(AND)], Param(DateBefore));
      } else {
        var w := if o.dateBefore.Some? then BEFORE else AFTER;
        var r := if o.dateBefore.Some? then DateBefore else DateAfter;
        RenderSnoc(q1, Kw(w));
        RenderSnoc(q1 + [Kw(w)], Param(r));
      }
    }
  }

  lemma DateFilterWords()
    ensures WordText(AND) == " AND " && WordText(BETWEEN) == " BETWEEN "
    ensures WordText(BEFORE) == " < " && WordText(AFTER) == " > "
  {
  }

  /** The date condition's text: " AND <c> BETWEEN ? AND ?", " AND <c> < ?", " AND <c> > ?" or nothing. */
  lemma DateFilterText(c: Column, o: LookupOptions)
    ensures Render(DateFilter(c, o))
         == if o.dateBefore.Some? && o.dateAfter.Some? then " AND " + ColumnName(c) + " BETWEEN ? AND ?"
            else if o.dateBefore.Some? then " AND " + ColumnName(c) + " < ?"
            else if o.dateAfter.Some? then " AND " + ColumnName(c) + " > ?"
            else ""
  {
    DateFilterPieces(c, o);
    DateFilterWords();
    var x := " AND " + ColumnName(c);
    if o.dateBefore.Some? && o.dateAfter.Some? {
      BetweenLiteral(x);
    } else if o.dateBefore.Some? || o.dateAfter.Some? {
      AppendAssoc(x, " < ", "?");
      AppendAssoc(x, " > ", "?");
      assert " < " + "?" == " < ?" && " > " + "?" == " > ?";
    }
  }

  lemma BetweenLiteral(x: string)
    ensures x + " BETWEEN " + "?" + " AND " + "?" == x + " BETWEEN ? AND ?"
  {
    AppendAssoc(x, " BETWEEN ", "?");
    AppendAssoc(x, " BETWEEN " + "?", " AND ");
    AppendAssoc(x, " BETWEEN " + "?" + " AND ", "?");
    assert " BETWEEN " + "?" + " AND " + "?" == " BETWEEN ? AND ?";
  }

  /** Every lookup reads "SELECT * FROM <table> WHERE <key><filter><date filter> ORDER BY id DESC LIMIT ? OFFSET ?;". */
  lemma SelectText(l: Lookup, df: seq<Piece>)
    ensures Render(SelectSql(l, df))
         == "SELECT * FROM " + TableName(Records(l.table)) + " WHERE " + Render(KeyClause(l.key))
            + Render(FilterClause(l.filter)) + Render(df) + " ORDER BY id DESC LIMIT ? OFFSET ?;"
  {
    SelectPieces(l, df);
    SelectWords();
    SelectTailText();
  }

  lemma SelectPieces(l: Lookup, df: seq<Piece>)
    ensures Render(SelectSql(l, df))
         == WordText(SELECT_ALL) + TableName(Records(l.table)) + WordText(WHERE) + Render(KeyClause(l.key))
            + Render(FilterClause(l.filter)) + Render(df) + Render(SelectTail())
  {
    var h := Head(SELECT_ALL, Records(l.table), WHERE);
    var q1 := h + KeyClause(l.key);
    var q2 := q1 + FilterClause(l.filter);
    var q3 := q2 + df;
    HeadText(SELECT_ALL, Records(l.table), WHERE);
    RenderAppend(h, KeyClause(l.key));
    RenderAppend(q1, FilterClause(l.filter));
    RenderAppend(q2, df);
    RenderAppend(q3, SelectTail());
  }

  lemma SelectWords()
    ensures WordText(SELECT_ALL) == "SELECT * FROM " && WordText(WHERE) == " WHERE "
  {
  }

  lemma SelectTailPieces()
    ensures Render(SelectTail()) == WordText(ORDER_LIMIT) + "?" + WordText(OFFSET) + "?" + WordText(END)
  {
    var q1 := [Kw(ORDER_LIMIT)] + [Param(Limit)];
    var q2 := q1 + [Kw(OFFSET)] + [Param(Offset)];
    RenderOne(Kw(ORDER_LIMIT));
    RenderSnoc([Kw(ORDER_LIMIT)], Param(Limit));
    RenderSnoc(q1, Kw(OFFSET));
    RenderSnoc(q1 + [Kw(OFFSET)], Param(Offset));
    RenderSnoc(q2, Kw(END));
  }

  lemma SelectTailText()
    ensures Render(SelectTail()) == " ORDER BY id DESC LIMIT ? OFFSET ?;"
  {
    SelectTailPieces();
    assert WordText(ORDER_LIMIT) == " ORDER BY id DESC LIMIT " && WordText(OFFSET) == " OFFSET " && WordText(END) == ";";
    TailLiteral();
  }

  lemma TailLiteral()
    ensures " ORDER BY id DESC LIMIT " + "?" + " OFFSET " + "?" + ";" == " ORDER BY id DESC LIMIT ? OFFSET ?;"
  {
  }

  /** The key condition of the combined lookups reads "(playerUuid = ? OR playerIP = ?)". */
  lemma PlayerOrAddressText(u: Option<Uuid>, a: Option<string>)
    ensures Render(KeyClause(PlayerOrAddressKey(u, a))) == "(playerUuid = ? OR playerIP = ?)"
  {
    PlayerOrAddressPieces(u, a);
    PlayerOrAddressWords();
    PlayerOrAddressLiteral();
  }

  lemma PlayerOrAddressPieces(u: Option<Uuid>, a: Option<string>)
    ensures Render(KeyClause(PlayerOrAddressKey(u, a)))
         == WordText(OPEN) + (ColumnName(PLAYER_UUID) + " = ?") + WordText(OR) + (ColumnName(PLAYER_IP) + " = ?") + WordText(CLOSE)
  {
    var q1 := [Kw(OPEN)] + Compare(PLAYER_UUID) + [Kw(OR)];
    var q2 := q1 + Compare(PLAYER_IP);
    CompareText(PLAYER_UUID);
    CompareText(PLAYER_IP);
    RenderOne(Kw(OPEN));
    RenderAppend([Kw(OPEN)], Compare(PLAYER_UUID));
    RenderSnoc([Kw(OPEN)] + Compare(PLAYER_UUID), Kw(OR));
    RenderAppend(q1, Compare(PLAYER_IP));
    RenderSnoc(q2, Kw(CLOSE));
  }

  lemma PlayerOrAddressWords()
    ensures WordText(OPEN) == "(" && WordText(OR) == " OR " && WordText(CLOSE) == ")"
    ensures ColumnName(PLAYER_UUID) == "playerUuid" && ColumnName(PLAYER_IP) == "playerIP"
  {
  }

  lemma PlayerOrAddressLiteral()
    ensures "(" + ("playerUuid" + " = ?") + " OR " + ("playerIP" + " = ?") + ")" == "(playerUuid = ? OR playerIP = ?)"
  {
  }

  /** The status filter reads " AND status = ?". */
  lemma StatusFilterText(s: Option<PunishmentStatus>)
    ensures Render(FilterClause(StatusFilter(s))) == " AND status = ?"
  {
    CompareText(STATUS);
    RenderOne(Kw(AND));
    RenderAppend([Kw(AND)], Compare(STATUS));
  }
}
