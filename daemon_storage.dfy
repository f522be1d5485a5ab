/** The `daemons` table behind the `DaemonStorage` contract, as the Postgres
    implementation reads and writes it (backend/src/server/daemons/storage.rs).
    The table is a map from daemon id to row; each SQL statement is a method of
    `PostgresDaemonStorage` that reads or reassigns that map. */
module DaemonStorage {
  import opened Wrappers

  type Uuid = nat
  /** A UTC instant, in whole seconds. */
  type Timestamp = nat
  type Byte = x: int | 0 <= x < 0x100
  type U16 = x: int | 0 <= x < 0x1_0000

  /** `std::net::IpAddr`; a V6 address holds its eight 16-bit segments. */
  datatype IpAddr = V4(a: Byte, b: Byte, c: Byte, d: Byte) | V6(segments: seq<U16>)

  datatype DaemonBase = DaemonBase(ip: IpAddr, port: U16, hostId: Uuid, networkId: Uuid, apiKey: string)

  datatype Daemon = Daemon(id: Uuid, lastSeen: Timestamp, registeredAt: Timestamp, base: DaemonBase)

  /** One row of the `daemons` table: `ip` holds the JSON text of the address and
      `port` a 32-bit integer column. */
  datatype Row = Row(id: Uuid, hostId: Uuid, ip: string, port: int, lastSeen: Timestamp,
                     registeredAt: Timestamp, networkId: Uuid, apiKey: string)

  /** The table, keyed by the `id` column. */
  type Table = map<Uuid, Row>

  /** The JSON text encoding of an address (`serde_json::to_string` / `from_str`),
      left abstract: any pair of total functions. */
  datatype IpCodec = IpCodec(encode: IpAddr -> string, decode: string -> Option<IpAddr>)

  /** The assumption under which a stored address reads back unchanged. */
  ghost predicate RoundTrips(c: IpCodec) {
    forall ip :: c.decode(c.encode(ip)) == Some(ip)
  }

  /** `Conflict`: a unique constraint of the table rejected the statement.
      `IpDecodeFailed`: "Failed to deserialize IP".
      `PortOutOfRange`: the `try_into().unwrap()` of the port column, a panic in the source. */
  datatype StoreError = Conflict | IpDecodeFailed | PortOutOfRange

  predicate InPortRange(port: int) {
    0 <= port < 0x1_0000
  }

  /** `row_to_daemon`: decode the ip column first, then narrow the port column. */
  function RowToDaemon(row: Row, c: IpCodec): (r: Result<Daemon, StoreError>)
    ensures r.Failure? <==> c.decode(row.ip).None? || !InPortRange(row.port)
    ensures c.decode(row.ip).None? ==> r == Failure(IpDecodeFailed)
    ensures c.decode(row.ip).Some? && !InPortRange(row.port) ==> r == Failure(PortOutOfRange)
    ensures r.Success? ==>
              && c.decode(row.ip) == Some(r.value.base.ip)
              && r.value.id == row.id && r.value.base.hostId == row.hostId
              && r.value.base.port == row.port && r.value.base.networkId == row.networkId
              && r.value.base.apiKey == row.apiKey
              && r.value.lastSeen == row.lastSeen && r.value.registeredAt == row.registeredAt
  {
    match c.decode(row.ip)
    case None => Failure(IpDecodeFailed)
    case Some(ip) =>
      if !InPortRange(row.port) then Failure(PortOutOfRange)
      else Success(Daemon(row.id, row.lastSeen, row.registeredAt,
                          DaemonBase(ip, row.port, row.hostId, row.networkId, row.apiKey)))
  }

  /** The row holding every column of `d`, as the INSERT binds them. */
  function ToRow(d: Daemon, c: IpCodec): (row: Row)
    ensures row.id == d.id && InPortRange(row.port)
    ensures RoundTrips(c) ==> RowToDaemon(row, c) == Success(d)
  {
    Row(d.id, d.base.hostId, c.encode(d.base.ip), d.base.port, d.lastSeen, d.registeredAt,
        d.base.networkId, d.base.apiKey)
  }

  /** `d` as `create` stores it: both timestamps are the time of the INSERT. */
  function Stamped(d: Daemon, now: Timestamp): Daemon {
    d.(lastSeen := now, registeredAt := now)
  }

  /** What the UPDATE statement makes of the stored `row` of `d.id`: only the
      `host_id`, `ip`, `port` and `last_seen` columns are rewritten. */
  function ApplyUpdate(row: Row, d: Daemon, c: IpCodec): (r: Row)
    requires row.id == d.id
    ensures RoundTrips(c) ==>
              RowToDaemon(r, c) == Success(d.(registeredAt := row.registeredAt,
                                               base := d.base.(networkId := row.networkId, apiKey := row.apiKey)))
  {
    row.(hostId := d.base.hostId, ip := c.encode(d.base.ip), port := d.base.port, lastSeen := d.lastSeen)
  }

  /** The unique constraints the table is assumed to carry: `id` (the key),
      `host_id` and `api_key`. */
  predicate CreateConflicts(t: Table, d: Daemon) {
    || d.id in t
    || (exists k :: k in t && t[k].hostId == d.base.hostId)
    || (exists k :: k in t && t[k].apiKey == d.base.apiKey)
  }

  /** The UPDATE matches a row and would give it a `host_id` another row holds. */
  predicate UpdateConflicts(t: Table, d: Daemon) {
    d.id in t && exists k :: k in t && k != d.id && t[k].hostId == d.base.hostId
  }

  function Created(t: Table, d: Daemon, now: Timestamp, c: IpCodec): Table {
    t[d.id := ToRow(Stamped(d, now), c)]
  }

  /** Every row sits under its own id (the primary key). */
  predicate Keyed(t: Table) {
    forall k :: k in t ==> t[k].id == k
  }

  function Updated(t: Table, d: Daemon, c: IpCodec): Table
    requires Keyed(t)
  {
    if d.id in t then t[d.id := ApplyUpdate(t[d.id], d, c)] else t
  }

  /** The table's invariant: rows sit under their own id, ports fit 16 bits,
      `host_id` and `api_key` are unique, and with a round-tripping codec every
      ip column decodes. */
  ghost predicate WellFormed(t: Table, c: IpCodec) {
    && Keyed(t)
    && (forall k :: k in t ==> InPortRange(t[k].port))
    && (forall k, k' :: k in t && k' in t && t[k].hostId == t[k'].hostId ==> k == k')
    && (forall k, k' :: k in t && k' in t && t[k].apiKey == t[k'].apiKey ==> k == k')
    && (RoundTrips(c) ==> forall k :: k in t ==> c.decode(t[k].ip).Some?)
  }

  function IdHits(t: Table, id: Uuid): set<Uuid> {
    set k | k in t && t[k].id == id
  }

  function HostIdHits(t: Table, hostId: Uuid): set<Uuid> {
    set k | k in t && t[k].hostId == hostId
  }

  function ApiKeyHits(t: Table, apiKey: string): set<Uuid> {
    set k | k in t && t[k].apiKey == apiKey
  }

  /** `Ok(Some(row_to_daemon(row)?))` */
  function AsFound(r: Result<Daemon, StoreError>): Result<Option<Daemon>, StoreError> {
    match r
    case Success(d) => Success(Some(d))
    case Failure(e) => Failure(e)
  }

  /** `r` is what `fetch_optional` gives for the rows `hits`: a miss is `Ok(None)`,
      a hit is that row decoded (or its decoding error). */
  ghost predicate IsLookupResult(t: Table, c: IpCodec, hits: set<Uuid>, r: Result<Option<Daemon>, StoreError>) {
    && (hits == {} ==> r == Success(None))
    && (forall k :: k in hits ==> k in t && r == AsFound(RowToDaemon(t[k], c)))
  }

  function MatchingIds(t: Table, networkIds: seq<Uuid>): set<Uuid> {
    set k | k in t && t[k].networkId in networkIds
  }

  function IdsOf(ds: seq<Daemon>): set<Uuid> {
    set i | 0 <= i < |ds| :: ds[i].id
  }

  predicate NewestFirst(ds: seq<Daemon>) {
    forall i, j :: 0 <= i < j < |ds| ==> ds[i].registeredAt >= ds[j].registeredAt
  }

  predicate DistinctIds(ds: seq<Daemon>) {
    forall i, j :: 0 <= i < j < |ds| ==> ds[i].id != ds[j].id
  }

  /** `r` is what `get_all(networkIds)` gives: the rows whose `network_id` is one
      of `networkIds`, each once, decoded and ordered by `registered_at`
      descending; or, when one of those rows does not decode, that row's error. */
  ghost predicate IsListing(t: Table, c: IpCodec, networkIds: seq<Uuid>, r: Result<seq<Daemon>, StoreError>) {
    && (r.Success? <==> forall k :: k in MatchingIds(t, networkIds) ==> RowToDaemon(t[k], c).Success?)
    && (r.Failure? ==> exists k :: k in MatchingIds(t, networkIds) && RowToDaemon(t[k], c) == Failure(r.error))
    && (r.Success? ==>
          && IdsOf(r.value) == MatchingIds(t, networkIds)
          && DistinctIds(r.value)
          && NewestFirst(r.value)
          && forall i :: 0 <= i < |r.value| ==>
               r.value[i].id in t && RowToDaemon(t[r.value[i].id], c) == Success(r.value[i]))
  }

  function RowIds(s: seq<Row>): set<Uuid> {
    set i | 0 <= i < |s| :: s[i].id
  }

  predicate RowsNewestFirst(s: seq<Row>) {
    forall i, j :: 0 <= i < j < |s| ==> s[i].registeredAt >= s[j].registeredAt
  }

  predicate DistinctRowIds(s: seq<Row>) {
    forall i, j :: 0 <= i < j < |s| ==> s[i].id != s[j].id
  }

  /** `sel` is the result set of `WHERE network_id = ANY($1) ORDER BY registered_at DESC`. */
  ghost predicate IsSelection(t: Table, networkIds: seq<Uuid>, sel: seq<Row>) {
    && RowIds(sel) == MatchingIds(t, networkIds)
    && DistinctRowIds(sel)
    && RowsNewestFirst(sel)
    && forall i :: 0 <= i < |sel| ==> sel[i].id in t && t[sel[i].id] == sel[i]
  }

  /** Where a row registered at `at` goes in a newest-first sequence: after every
      row registered at or after it, before every older one. */
  method InsertionPoint(s: seq<Row>, at: Timestamp) returns (p: nat)
    requires RowsNewestFirst(s)
    ensures p <= |s|
    ensures forall i :: 0 <= i < p ==> s[i].registeredAt >= at
    ensures forall i :: p <= i < |s| ==> s[i].registeredAt < at
  {
    p := 0;
    while p < |s| && s[p].registeredAt >= at
      invariant p <= |s|
      invariant forall i :: 0 <= i < p ==> s[i].registeredAt >= at
    {
      p := p + 1;
    }
  }

  /** Inserting `row` at its insertion point keeps the sequence newest-first. */
  lemma InsertKeepsOrder(s: seq<Row>, p: nat, row: Row)
    requires p <= |s|
    requires RowsNewestFirst(s)
    requires forall i :: 0 <= i < p ==> s[i].registeredAt >= row.registeredAt
    requires forall i :: p <= i < |s| ==> s[i].registeredAt < row.registeredAt
    ensures RowsNewestFirst(s[..p] + [row] + s[p..])
  {
    var u := s[..p] + [row] + s[p..];
    assert forall i :: 0 <= i < p ==> u[i] == s[i];
    assert u[p] == row;
    assert forall i :: p < i < |u| ==> u[i] == s[i - 1];
  }

  /** Inserting a row whose id is new keeps the ids distinct. */
  lemma InsertKeepsDistinct(s: seq<Row>, p: nat, row: Row)
    requires p <= |s|
    requires DistinctRowIds(s) && row.id !in RowIds(s)
    ensures DistinctRowIds(s[..p] + [row] + s[p..])
  {
    var u := s[..p] + [row] + s[p..];
    assert forall i :: 0 <= i < p ==> u[i] == s[i];
    assert u[p] == row;
    assert forall i :: p < i < |u| ==> u[i] == s[i - 1];
    forall i | 0 <= i < |s| ensures s[i].id != row.id {
      assert s[i].id in RowIds(s);
    }
  }

  /** Inserting a row adds exactly its id. */
  lemma InsertAddsId(s: seq<Row>, p: nat, row: Row)
    requires p <= |s|
    ensures RowIds(s[..p] + [row] + s[p..]) == RowIds(s) + {row.id}
  {
    var u := s[..p] + [row] + s[p..];
    assert forall i :: 0 <= i < p ==> u[i] == s[i];
    assert u[p] == row;
    assert forall i :: p < i < |u| ==> u[i] == s[i - 1];
    forall x | x in RowIds(u) ensures x in RowIds(s) + {row.id} {
      var i :| 0 <= i < |u| && u[i].id == x;
      if i < p { assert s[i].id in RowIds(s); }
      else if i > p { assert s[i - 1].id in RowIds(s); }
    }
    forall x | x in RowIds(s) + {row.id} ensures x in RowIds(u) {
      if x == row.id {
        assert u[p].id == x;
      } else {
        var i :| 0 <= i < |s| && s[i].id == x;
        if i < p { assert u[i].id == x; } else { assert u[i + 1].id == x; }
      }
    }
  }

  lemma InsertKeepsSelection(s: seq<Row>, p: nat, row: Row)
    requires p <= |s|
    requires RowsNewestFirst(s) && DistinctRowIds(s) && row.id !in RowIds(s)
    requires forall i :: 0 <= i < p ==> s[i].registeredAt >= row.registeredAt
    requires forall i :: p <= i < |s| ==> s[i].registeredAt < row.registeredAt
    ensures RowsNewestFirst(s[..p] + [row] + s[p..])
    ensures DistinctRowIds(s[..p] + [row] + s[p..])
    ensures RowIds(s[..p] + [row] + s[p..]) == RowIds(s) + {row.id}
  {
    InsertKeepsOrder(s, p, row);
    InsertKeepsDistinct(s, p, row);
    InsertAddsId(s, p, row);
  }

  /** The query part of `get_all`: the rows of `t` in one of `networkIds`, newest first. */
  method SelectNewestFirst(t: Table, networkIds: seq<Uuid>) returns (sel: seq<Row>)
    requires Keyed(t)
    ensures IsSelection(t, networkIds, sel)
  {
    sel := [];
    var pending := t.Keys;
    while pending != {}
      invariant pending <= t.Keys
      invariant forall i :: 0 <= i < |sel| ==> sel[i].id in t && sel[i].id !in pending && t[sel[i].id] == sel[i]
      invariant RowIds(sel) == MatchingIds(t, networkIds) - pending
      invariant DistinctRowIds(sel)
      invariant RowsNewestFirst(sel)
      decreases pending
    {
      var k :| k in pending;
      if t[k].networkId in networkIds {
        var row := t[k];
        var p := InsertionPoint(sel, row.registeredAt);
        assert row.id !in RowIds(sel);
        InsertKeepsSelection(sel, p, row);
        sel := sel[..p] + [row] + sel[p..];
      }
      pending := pending - {k};
    }
  }

  class PostgresDaemonStorage {
    var rows: Table
    const codec: IpCodec

    ghost predicate Valid()
      reads this
    {
      WellFormed(rows, codec)
    }

    constructor (codec: IpCodec)
      ensures Valid() && rows == map[] && this.codec == codec
    {
      rows := map[];
      this.codec := codec;
    }

    /** `create`: INSERT every column of `d`, both timestamps set to `now`. */
    method Create(d: Daemon, now: Timestamp) returns (r: Result<(), StoreError>)
      requires Valid()
      modifies this
      ensures Valid()
      ensures r.Failure? <==> CreateConflicts(old(rows), d)
      ensures r.Failure? ==> r.error == Conflict
      ensures rows == if r.Success? then Created(old(rows), d, now, codec) else old(rows)
    {
      if CreateConflicts(rows, d) {
        return Failure(Conflict);
      }
      rows := Created(rows, d, now, codec);
      r := Success(());
    }

    /** `get_by_id` */
    method GetById(id: Uuid) returns (r: Result<Option<Daemon>, StoreError>)
      requires Valid()
      ensures IsLookupResult(rows, codec, IdHits(rows, id), r)
    {
      if id in rows {
        assert id in IdHits(rows, id);
        r := AsFound(RowToDaemon(rows[id], codec));
      } else {
        r := Success(None);
      }
    }

    /** `get_by_host_id` */
    method GetByHostId(hostId: Uuid) returns (r: Result<Option<Daemon>, StoreError>)
      requires Valid()
      ensures IsLookupResult(rows, codec, HostIdHits(rows, hostId), r)
    {
      if k :| k in rows && rows[k].hostId == hostId {
        assert k in HostIdHits(rows, hostId);
        r := AsFound(RowToDaemon(rows[k], codec));
      } else {
        r := Success(None);
      }
    }

    /** `get_by_api_key`: exact match on the stored key. */
    method GetByApiKey(apiKey: string) returns (r: Result<Option<Daemon>, StoreError>)
      requires Valid()
      ensures IsLookupResult(rows, codec, ApiKeyHits(rows, apiKey), r)
    {
      if k :| k in rows && rows[k].apiKey == apiKey {
        assert k in ApiKeyHits(rows, apiKey);
        r := AsFound(RowToDaemon(rows[k], codec));
      } else {
        r := Success(None);
      }
    }

    /** `get_all`: run the query, then decode its rows in order, stopping at the
        first row that does not decode. */
    method GetAll(networkIds: seq<Uuid>) returns (r: Result<seq<Daemon>, StoreError>)
      requires Valid()
      ensures IsListing(rows, codec, networkIds, r)
    {
      var selected := SelectNewestFirst(rows, networkIds);
      var daemons: seq<Daemon> := [];
      var i := 0;
      while i < |selected|
        invariant i <= |selected|
        invariant |daemons| == i
        invariant forall j :: 0 <= j < i ==> RowToDaemon(selected[j], codec) == Success(daemons[j])
      {
        var d := RowToDaemon(selected[i], codec);
        if d.Failure? {
          assert selected[i].id in RowIds(selected);
          return Failure(d.error);
        }
        daemons := daemons + [d.value];
        i := i + 1;
      }
      r := Success(daemons);
      forall k | k in MatchingIds(rows, networkIds) ensures RowToDaemon(rows[k], codec).Success? {
        var j :| 0 <= j < |selected| && selected[j].id == k;
      }
      forall x ensures x in IdsOf(daemons) <==> x in RowIds(selected) {
        if x in IdsOf(daemons) {
          var j :| 0 <= j < |daemons| && daemons[j].id == x;
          assert selected[j].id == x;
        }
        if x in RowIds(selected) {
          var j :| 0 <= j < |selected| && selected[j].id == x;
          assert daemons[j].id == x;
        }
      }
    }

    /** `update`: rewrite `host_id`, `ip`, `port` and `last_seen` of the row of
        `d.id`; a missing id matches nothing and is not an error. */
    method Update(d: Daemon) returns (r: Result<Daemon, StoreError>)
      requires Valid()
      modifies this
      ensures Valid()
      ensures r.Failure? <==> UpdateConflicts(old(rows), d)
      ensures r.Failure? ==> r.error == Conflict
      ensures r.Success? ==> r.value == d
      ensures rows == if r.Success? then Updated(old(rows), d, codec) else old(rows)
    {
      if UpdateConflicts(rows, d) {
        return Failure(Conflict);
      }
      rows := Updated(rows, d, codec);
      r := Success(d);
    }

    /** `delete`: remove the row of `id`, if there is one. */
    method Delete(id: Uuid)
      requires Valid()
      modifies this
      ensures Valid()
      ensures rows == old(rows) - {id}
    {
      rows := rows - {id};
    }
  }

  /** A created daemon reads back with both timestamps equal to the creation
      time and every other field as given; no other row changes. */
  lemma CreatedReadsBack(t: Table, d: Daemon, now: Timestamp, c: IpCodec)
    requires RoundTrips(c)
    ensures d.id in Created(t, d, now, c)
    ensures RowToDaemon(Created(t, d, now, c)[d.id], c) ==
            Success(d.(lastSeen := now, registeredAt := now))
    ensures forall k :: k in t && k != d.id ==> k in Created(t, d, now, c) && Created(t, d, now, c)[k] == t[k]
  {
  }

  /** An update changes only `host_id`, `ip`, `port` and `last_seen` of the row
      of `d.id`; `network_id`, `api_key`, `registered_at` and all other rows
      stay; with a round-tripping codec the row reads back with `d`'s address. */
  lemma UpdateRewritesOnlyMutableColumns(t: Table, d: Daemon, c: IpCodec)
    requires Keyed(t)
    requires d.id in t
    ensures Updated(t, d, c).Keys == t.Keys
    ensures forall k :: k in t && k != d.id ==> Updated(t, d, c)[k] == t[k]
    ensures Updated(t, d, c)[d.id].networkId == t[d.id].networkId
    ensures Updated(t, d, c)[d.id].apiKey == t[d.id].apiKey
    ensures Updated(t, d, c)[d.id].registeredAt == t[d.id].registeredAt
    ensures Updated(t, d, c)[d.id].hostId == d.base.hostId
    ensures Updated(t, d, c)[d.id].port == d.base.port
    ensures Updated(t, d, c)[d.id].lastSeen == d.lastSeen
    ensures RoundTrips(c) ==> RowToDaemon(Updated(t, d, c)[d.id], c).Success? &&
                              RowToDaemon(Updated(t, d, c)[d.id], c).value.base.ip == d.base.ip
  {
  }

  /** An update of an id the table does not hold changes nothing. */
  lemma UpdateOfMissingIdIsNoOp(t: Table, d: Daemon, c: IpCodec)
    requires Keyed(t)
    requires d.id !in t
    ensures !UpdateConflicts(t, d) && Updated(t, d, c) == t
  {
  }

  /** Deleting twice is deleting once, and deleting an absent id changes nothing. */
  lemma DeleteIsIdempotent(t: Table, id: Uuid)
    ensures (t - {id}) - {id} == t - {id}
    ensures id !in t ==> t - {id} == t
  {
  }

  /** In a well-formed table a row fails to decode exactly when its ip column does not. */
  lemma StoredRowFailsOnlyOnIp(t: Table, c: IpCodec, k: Uuid)
    requires WellFormed(t, c) && k in t
    ensures RowToDaemon(t[k], c).Failure? <==> c.decode(t[k].ip).None?
    ensures RoundTrips(c) ==> RowToDaemon(t[k], c).Success?
  {
  }
}
