/** The manager's calls as the source writes them, on a table that other callers may change between statements. */
module CacheManager {
  import opened Base
  import opened ReservationTable
  import opened Words

  class ReservationRepo {
    var rows: Table

    constructor ()
      ensures rows == map[]
    {
      rows := map[];
    }

    /** Whatever other callers do before the next statement. */
    method Interleave(t: Table)
      modifies this
      ensures rows == t
    {
      rows := t;
    }

    method Find(key: string) returns (r: Result<Row, RepoError>)
      ensures r.Ok? <==> key in rows
      ensures r.Ok? ==> r.value == rows[key]
      ensures r.Err? ==> r.error == NotFound
    {
      r := Get(rows, key);
    }

    method Insert(key: string, row: Row) returns (r: Result<(), RepoError>)
      modifies this
      ensures r == if key in old(rows) then Err(AlreadyExists) else Ok(())
      ensures rows == if r.Ok? then old(rows)[key := row] else old(rows)
    {
      match Create(rows, key, row)
      case Ok(t) =>
        rows := t;
        r := Ok(());
      case Err(e) =>
        r := Err(e);
    }

    method UpdateClaimable(key: string, row: Row, now: int) returns (r: Result<(), RepoError>)
      modifies this
      ensures r == Ok(()) || r == Err(NotClaimable)
      ensures r.Ok? <==> key in old(rows) && (old(rows)[key].expiresAt <= now || old(rows)[key].owner == row.owner)
      ensures rows == if r.Ok? then old(rows)[key := row] else old(rows)
    {
      match UpdateIfExpiredOrOwned(rows, key, row, now)
      case Ok(t) =>
        rows := t;
        r := Ok(());
      case Err(e) =>
        r := Err(e);
    }

    method Remove(key: string, owner: string) returns (r: Result<(), RepoError>)
      modifies this
      ensures r == Ok(()) || r == Err(NotFound)
      ensures r.Ok? <==> key in old(rows) && old(rows)[key].owner == owner
      ensures rows == if r.Ok? then old(rows) - {key} else old(rows)
    {
      match DeleteByKeyAndOwner(rows, key, owner)
      case Ok(t) =>
        rows := t;
        r := Ok(());
      case Err(e) =>
        r := Err(e);
    }
  }

  datatype ManagerError = InvalidArgument | Internal

  /** Whether the caller's own row goes in, given the tables its first read and its write met. */
  predicate Takes(first: Table, second: Table, key: string, owner: string, now: int) {
    if key in first
    then key in second && (second[key].expiresAt <= now || second[key].owner == owner)
    else key !in second
  }

  class Manager {
    const cfg: Config
    const reservations: ReservationRepo

    constructor (maxHeartbeat: GoInt, grace: GoInt, reservations: ReservationRepo)
      ensures cfg.Valid() && this.reservations == reservations
    {
      cfg := NewConfig(maxHeartbeat, grace);
      this.reservations := reservations;
    }

    /** The statements of one call meet the tables first, second and third. The caller's row goes in exactly when
        it may, and is returned; otherwise the row read last is returned, or an error if that row is gone. */
    method GetOrExtendReservation(key: string, owner: string, requested: Option<int>, now: int,
                                  first: Table, second: Table, third: Table)
        returns (r: Result<Row, ManagerError>)
      requires cfg.Valid()
      modifies reservations
      ensures key == "" || owner == "" ==> r == Err(InvalidArgument) && reservations.rows == old(reservations.rows)
      ensures key != "" && owner != "" && Takes(first, second, key, owner, now) ==>
                r == Ok(OwnRow(cfg, owner, requested, now)) && reservations.rows == second[key := r.value]
      ensures key != "" && owner != "" && !Takes(first, second, key, owner, now) ==>
                r == (if key in third then Ok(third[key]) else Err(Internal)) && reservations.rows == third
    {
      if key == "" || owner == "" {
        return Err(InvalidArgument);
      }
      var row := OwnRow(cfg, owner, requested, now);
      reservations.Interleave(first);
      var found := reservations.Find(key);
      reservations.Interleave(second);
      if found.Ok? {
        var updated := reservations.UpdateClaimable(key, row, now);
        if updated.Err? {
          reservations.Interleave(third);
          var current := reservations.Find(key);
          return if current.Ok? then Ok(current.value) else Err(Internal);
        }
        return Ok(row);
      }
      var inserted := reservations.Insert(key, row);
      if inserted.Err? {
        reservations.Interleave(third);
        var current := reservations.Find(key);
        return if current.Ok? then Ok(current.value) else Err(Internal);
      }
      return Ok(row);
    }

    /** Releasing a key held by another owner, or by nobody, succeeds and changes nothing. */
    method ReleaseReservation(key: string, owner: string) returns (r: Result<(), ManagerError>)
      modifies reservations
      ensures r == if key == "" || owner == "" then Err(InvalidArgument) else Ok(())
      ensures reservations.rows ==
              if r.Ok? && key in old(reservations.rows) && old(reservations.rows)[key].owner == owner
              then old(reservations.rows) - {key} else old(reservations.rows)
    {
      if key == "" || owner == "" {
        return Err(InvalidArgument);
      }
      var _ := reservations.Remove(key, owner);
      return Ok(());
    }
  }
}
