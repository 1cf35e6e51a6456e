/*
 * `PlayerRecordImpl`, its private modifier `PlayerRecordModification`, and
 * the change-tracking `MutablePlayerRecordImpl`.
 *
 * Player statistics fall into three groups, each with its own change flag:
 * join statistics (user name, last join, total joins, last address), leave
 * statistics (last leave, play time) and dynamic statistics (last server).
 * `playtime` is a Java `long` and `totalJoins` an `int`; their arithmetic
 * wraps.
 */
module PlayerRecords {
  import opened JavaLang

  datatype PlayerData = PlayerData(
    loaded: bool,
    uuid: Uuid,
    username: string,
    firstJoin: Time,
    lastJoin: Time,
    lastLeave: Option<Time>,
    playtime: int,
    totalJoins: int,
    lastServer: Option<string>,
    lastAddress: Option<string>)

  class PlayerRecord {
    var loaded: bool
    var uuid: Uuid
    var username: string
    var firstJoin: Time
    var lastJoin: Time
    var lastLeave: Option<Time>
    var playtime: int
    var totalJoins: int
    var lastServer: Option<string>
    var lastAddress: Option<string>

    function Data(): PlayerData
      reads this
    {
      PlayerData(loaded, uuid, username, firstJoin, lastJoin, lastLeave, playtime, totalJoins,
                 lastServer, lastAddress)
    }

    /** The full constructor. */
    constructor Load(loaded: bool, uuid: Uuid, username: string, firstJoin: Time, lastJoin: Time,
                     lastLeave: Option<Time>, playtime: int, totalJoins: int,
                     lastServer: Option<string>, lastAddress: Option<string>)
      ensures Data() == PlayerData(loaded, uuid, username, firstJoin, lastJoin, lastLeave,
                                   playtime, totalJoins, lastServer, lastAddress)
    {
      this.loaded := loaded;
      this.uuid := uuid;
      this.username := username;
      this.firstJoin := firstJoin;
      this.lastJoin := lastJoin;
      this.lastLeave := lastLeave;
      this.playtime := playtime;
      this.totalJoins := totalJoins;
      this.lastServer := lastServer;
      this.lastAddress := lastAddress;
    }

    /** A new player: last join is the first join, never left, no play time, no joins counted, not loaded. */
    constructor (uuid: Uuid, username: string, firstJoin: Time, lastServer: Option<string>,
                 lastAddress: Option<string>)
      ensures Data() == PlayerData(false, uuid, username, firstJoin, firstJoin, None, 0, 0,
                                   lastServer, lastAddress)
    {
      loaded := false;
      this.uuid := uuid;
      this.username := username;
      this.firstJoin := firstJoin;
      lastJoin := firstJoin;
      lastLeave := None;
      playtime := 0;
      totalJoins := 0;
      this.lastServer := lastServer;
      this.lastAddress := lastAddress;
    }

    /** A new player with a given join count. */
    constructor WithJoins(uuid: Uuid, username: string, firstJoin: Time, totalJoins: int,
                          lastServer: Option<string>, lastAddress: Option<string>)
      ensures Data() == PlayerData(false, uuid, username, firstJoin, firstJoin, None, 0, totalJoins,
                                   lastServer, lastAddress)
    {
      loaded := false;
      this.uuid := uuid;
      this.username := username;
      this.firstJoin := firstJoin;
      lastJoin := firstJoin;
      lastLeave := None;
      playtime := 0;
      this.totalJoins := totalJoins;
      this.lastServer := lastServer;
      this.lastAddress := lastAddress;
    }

    /** `copy`: a new record with every field equal. */
    method Copy() returns (r: PlayerRecord)
      ensures fresh(r)
      ensures r.Data() == Data()
    {
      r := new PlayerRecord.Load(loaded, uuid, username, firstJoin, lastJoin, lastLeave, playtime,
                                 totalJoins, lastServer, lastAddress);
    }
  }

  /** `PlayerRecordModification`: edits a private copy; each setter sets its group's flag to the copy's `loaded`. */
  class PlayerRecordModification {
    const record: PlayerRecord
    var joinChanged: bool
    var leaveChanged: bool
    var dynamicChanged: bool

    constructor (source: PlayerRecord)
      ensures fresh(record)
      ensures record.Data() == source.Data()
      ensures !joinChanged && !leaveChanged && !dynamicChanged
    {
      var copy := source.Copy();
      record := copy;
      joinChanged, leaveChanged, dynamicChanged := false, false, false;
    }

    predicate HasChanged()
      reads this
    {
      joinChanged || leaveChanged || dynamicChanged
    }

    method SetUsername(username: string)
      modifies this, record
      ensures record.Data() == old(record.Data()).(username := username)
      ensures joinChanged == record.loaded
      ensures leaveChanged == old(leaveChanged) && dynamicChanged == old(dynamicChanged)
    {
      record.username := username;
      joinChanged := record.loaded;
    }

    method SetLastJoined(lastJoin: Time)
      modifies this, record
      ensures record.Data() == old(record.Data()).(lastJoin := lastJoin)
      ensures joinChanged == record.loaded
      ensures leaveChanged == old(leaveChanged) && dynamicChanged == old(dynamicChanged)
    {
      record.lastJoin := lastJoin;
      joinChanged := record.loaded;
    }

    method SetLastLeft(lastLeave: Option<Time>)
      modifies this, record
      ensures record.Data() == old(record.Data()).(lastLeave := lastLeave)
      ensures leaveChanged == record.loaded
      ensures joinChanged == old(joinChanged) && dynamicChanged == old(dynamicChanged)
    {
      record.lastLeave := lastLeave;
      leaveChanged := record.loaded;
    }

    method SetPlaytime(playtime: int)
      modifies this, record
      ensures record.Data() == old(record.Data()).(playtime := playtime)
      ensures leaveChanged == record.loaded
      ensures joinChanged == old(joinChanged) && dynamicChanged == old(dynamicChanged)
    {
      record.playtime := playtime;
      leaveChanged := record.loaded;
    }

    method AddPlaytime(timeToAdd: int)
      modifies this, record
      ensures record.Data() == old(record.Data()).(playtime := Wrap64(old(record.playtime) + timeToAdd))
      ensures leaveChanged == record.loaded
      ensures joinChanged == old(joinChanged) && dynamicChanged == old(dynamicChanged)
    {
      record.playtime := Wrap64(record.playtime + timeToAdd);
      leaveChanged := record.loaded;
    }

    method SetTotalJoins(totalJoins: int)
      modifies this, record
      ensures record.Data() == old(record.Data()).(totalJoins := totalJoins)
      ensures joinChanged == record.loaded
      ensures leaveChanged == old(leaveChanged) && dynamicChanged == old(dynamicChanged)
    {
      record.totalJoins := totalJoins;
      joinChanged := record.loaded;
    }

    method IncrementTotalJoins()
      modifies this, record
      ensures record.Data() == old(record.Data()).(totalJoins := Wrap32(old(record.totalJoins) + 1))
      ensures joinChanged == record.loaded
      ensures leaveChanged == old(leaveChanged) && dynamicChanged == old(dynamicChanged)
    {
      record.totalJoins := Wrap32(record.totalJoins + 1);
      joinChanged := record.loaded;
    }

    method SetLastServer(lastServer: Option<string>)
      modifies this, record
      ensures record.Data() == old(record.Data()).(lastServer := lastServer)
      ensures dynamicChanged == record.loaded
      ensures joinChanged == old(joinChanged) && leaveChanged == old(leaveChanged)
    {
      record.lastServer := lastServer;
      dynamicChanged := record.loaded;
    }

    method SetLastAddress(lastAddress: Option<string>)
      modifies this, record
      ensures record.Data() == old(record.Data()).(lastAddress := lastAddress)
      ensures joinChanged == record.loaded
      ensures leaveChanged == old(leaveChanged) && dynamicChanged == old(dynamicChanged)
    {
      record.lastAddress := lastAddress;
      joinChanged := record.loaded;
    }
  }

  /** A join recorded on a player loaded from the database reports a change of join statistics only. */
  method RecordJoin(source: PlayerRecord, now: Time) returns (m: PlayerRecordModification)
    requires source.loaded && IsInt(source.totalJoins) && source.totalJoins < INT_MAX
    ensures source.Data() == old(source.Data())
    ensures m.record.lastJoin == now && m.record.totalJoins == source.totalJoins + 1
    ensures m.joinChanged && !m.leaveChanged && !m.dynamicChanged
  {
    m := new PlayerRecordModification(source);
    m.SetLastJoined(now);
    m.IncrementTotalJoins();
  }

  /** `MutablePlayerRecordImpl`: each setter flags its group only when the value actually changes. */
  class MutablePlayerRecord {
    const source: PlayerRecord
    var joinStatsChanged: bool
    var leaveStatsChanged: bool
    var dynamicStatsChanged: bool
    var loaded: bool
    var uuid: Uuid
    var username: string
    var firstJoin: Time
    var lastJoin: Time
    var lastLeave: Option<Time>
    var playtime: int
    var totalJoins: int
    var lastServer: Option<string>
    var lastAddress: Option<string>

    function Data(): PlayerData
      reads this
    {
      PlayerData(loaded, uuid, username, firstJoin, lastJoin, lastLeave, playtime, totalJoins,
                 lastServer, lastAddress)
    }

    predicate IsModified()
      reads this
    {
      joinStatsChanged || leaveStatsChanged || dynamicStatsChanged
    }

    /** Until a setter changes something, the contents are the source's. */
    ghost predicate Valid()
      reads this, source
    {
      !IsModified() ==> Data() == source.Data()
    }

    constructor (source: PlayerRecord)
      ensures this.source == source
      ensures Data() == source.Data()
      ensures !IsModified()
      ensures Valid()
    {
      this.source := source;
      joinStatsChanged, leaveStatsChanged, dynamicStatsChanged := false, false, false;
      loaded := source.loaded;
      uuid := source.uuid;
      username := source.username;
      firstJoin := source.firstJoin;
      lastJoin := source.lastJoin;
      lastLeave := source.lastLeave;
      playtime := source.playtime;
      totalJoins := source.totalJoins;
      lastServer := source.lastServer;
      lastAddress := source.lastAddress;
    }

    method SetUsername(username: string)
      requires Valid()
      modifies this
      ensures Valid()
      ensures Data() == old(Data()).(username := username)
      ensures joinStatsChanged == (old(joinStatsChanged) || username != old(this.username))
      ensures leaveStatsChanged == old(leaveStatsChanged) && dynamicStatsChanged == old(dynamicStatsChanged)
    {
      if username != this.username {
        this.username := username;
        joinStatsChanged := true;
      }
    }

    method SetLastJoined(lastJoin: Time)
      requires Valid()
      modifies this
      ensures Valid()
      ensures Data() == old(Data()).(lastJoin := lastJoin)
      ensures joinStatsChanged == (old(joinStatsChanged) || lastJoin != old(this.lastJoin))
      ensures leaveStatsChanged == old(leaveStatsChanged) && dynamicStatsChanged == old(dynamicStatsChanged)
    {
      if lastJoin != this.lastJoin {
        this.lastJoin := lastJoin;
        joinStatsChanged := true;
      }
    }

    method SetLastLeft(lastLeave: Option<Time>)
      requires Valid()
      modifies this
      ensures Valid()
      ensures Data() == old(Data()).(lastLeave := lastLeave)
      ensures leaveStatsChanged == (old(leaveStatsChanged) || lastLeave != old(this.lastLeave))
      ensures joinStatsChanged == old(joinStatsChanged) && dynamicStatsChanged == old(dynamicStatsChanged)
    {
      if lastLeave != this.lastLeave {
        this.lastLeave := lastLeave;
        leaveStatsChanged := true;
      }
    }

    method SetPlaytime(playtime: int)
      requires Valid()
      modifies this
      ensures Valid()
      ensures Data() == old(Data()).(playtime := playtime)
      ensures leaveStatsChanged == (old(leaveStatsChanged) || playtime != old(this.playtime))
      ensures joinStatsChanged == old(joinStatsChanged) && dynamicStatsChanged == old(dynamicStatsChanged)
    {
      if playtime != this.playtime {
        this.playtime := playtime;
        leaveStatsChanged := true;
      }
    }

    /** Adding 0 changes nothing; any other amount is added (with `long` wrap-around) and flags the leave group. */
    method AddPlaytime(timeToAdd: int)
      requires Valid()
      modifies this
      ensures Valid()
      ensures timeToAdd == 0 ==> Data() == old(Data()) && leaveStatsChanged == old(leaveStatsChanged)
      ensures timeToAdd != 0 ==> Data() == old(Data()).(playtime := Wrap64(old(playtime) + timeToAdd))
                                 && leaveStatsChanged
      ensures joinStatsChanged == old(joinStatsChanged) && dynamicStatsChanged == old(dynamicStatsChanged)
    {
      if timeToAdd != 0 {
        playtime := Wrap64(playtime + timeToAdd);
        leaveStatsChanged := true;
      }
    }

    method SetTotalJoins(totalJoins: int)
      requires Valid()
      modifies this
      ensures Valid()
      ensures Data() == old(Data()).(totalJoins := totalJoins)
      ensures joinStatsChanged == (old(joinStatsChanged) || totalJoins != old(this.totalJoins))
      ensures leaveStatsChanged == old(leaveStatsChanged) && dynamicStatsChanged == old(dynamicStatsChanged)
    {
      if totalJoins != this.totalJoins {
        this.totalJoins := totalJoins;
        joinStatsChanged := true;
      }
    }

    /** Always counts one more join (with `int` wrap-around) and always flags the join group. */
    method IncrementTotalJoins()
      requires Valid()
      modifies this
      ensures Valid()
      ensures Data() == old(Data()).(totalJoins := Wrap32(old(totalJoins) + 1))
      ensures joinStatsChanged
      ensures leaveStatsChanged == old(leaveStatsChanged) && dynamicStatsChanged == old(dynamicStatsChanged)
    {
      totalJoins := Wrap32(totalJoins + 1);
      joinStatsChanged := true;
    }

    method SetLastServer(lastServer: Option<string>)
      requires Valid()
      modifies this
      ensures Valid()
      ensures Data() == old(Data()).(lastServer := lastServer)
      ensures dynamicStatsChanged == (old(dynamicStatsChanged) || lastServer != old(this.lastServer))
      ensures joinStatsChanged == old(joinStatsChanged) && leaveStatsChanged == old(leaveStatsChanged)
    {
      if lastServer != this.lastServer {
        this.lastServer := lastServer;
        dynamicStatsChanged := true;
      }
    }

    method SetLastAddress(lastAddress: Option<string>)
      requires Valid()
      modifies this
      ensures Valid()
      ensures Data() == old(Data()).(lastAddress := lastAddress)
      ensures joinStatsChanged == (old(joinStatsChanged) || lastAddress != old(this.lastAddress))
      ensures leaveStatsChanged == old(leaveStatsChanged) && dynamicStatsChanged == old(dynamicStatsChanged)
    {
      if lastAddress != this.lastAddress {
        this.lastAddress := lastAddress;
        joinStatsChanged := true;
      }
    }

    function GetOriginal(): PlayerRecord { source }

    /** `asImmutable`: the source while nothing changed, otherwise a new record; either way with the current contents. */
    method AsImmutable() returns (r: PlayerRecord)
      requires Valid()
      ensures !IsModified() ==> r == source
      ensures IsModified() ==> fresh(r)
      ensures r.Data() == Data()
    {
      if IsModified() {
        r := new PlayerRecord.Load(loaded, uuid, username, firstJoin, lastJoin, lastLeave, playtime,
                                   totalJoins, lastServer, lastAddress);
      } else {
        r := source;
      }
    }
  }
}
