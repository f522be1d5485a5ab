/** `DaemonService` (backend/src/server/daemons/service.rs): daemon lifecycle
    over the store, the heartbeat, and the two outbound calls to a daemon,
    whose HTTP exchange is an input here. */
module DaemonServices {
  import opened Wrappers
  import opened DaemonStorage

  /** The JSON envelope `ApiResponse` a daemon answers with (its `data` is not inspected). */
  datatype Envelope = Envelope(success: bool, error: Option<string>)

  /** A response that arrived: its status code and its body, `None` when the body
      is not a well-formed envelope. */
  datatype HttpResponse = HttpResponse(status: nat, body: Option<Envelope>)

  datatype Protocol = Http

  datatype Endpoint = Endpoint(ip: Option<IpAddr>, port: U16, protocol: Protocol, path: string)

  datatype DispatchError =
    | TransportFailed                                        // `send().await?`
    | MalformedEnvelope                                      // `response.json().await?`
    | DiscoveryHttpStatus(status: nat)                       // "Failed to send discovery request: HTTP .."
    | DiscoveryRejected(daemonId: Uuid, message: string)     // "Failed to send discovery request to daemon ..: .."
    | CancellationHttpStatus(daemonId: Uuid, status: nat)    // "Failed to send discovery cancellation to daemon ..: HTTP .."

  const DiscoveryPath: string := "/api/discovery/initiate"
  const CancellationPath: string := "/api/discovery/cancel"
  const UnknownError: string := "Unknown error"

  /** `StatusCode::is_success`: the 2xx range. */
  predicate IsSuccessStatus(status: nat) {
    200 <= status < 300
  }

  function DiscoveryEndpoint(d: Daemon): Endpoint {
    Endpoint(Some(d.base.ip), d.base.port, Http, DiscoveryPath)
  }

  function CancellationEndpoint(d: Daemon): Endpoint {
    Endpoint(Some(d.base.ip), d.base.port, Http, CancellationPath)
  }

  /** Both calls go over HTTP to the daemon's own address and port and differ
      only in their path. */
  lemma EndpointsDifferOnlyInPath(d: Daemon)
    ensures DiscoveryEndpoint(d).ip == CancellationEndpoint(d).ip == Some(d.base.ip)
    ensures DiscoveryEndpoint(d).port == CancellationEndpoint(d).port == d.base.port
    ensures DiscoveryEndpoint(d).protocol == CancellationEndpoint(d).protocol == Http
    ensures DiscoveryEndpoint(d) != CancellationEndpoint(d)
  {
    assert DiscoveryPath[15] != CancellationPath[15];
  }

  /** `send_discovery_request`, given what came back from the POST to
      `DiscoveryEndpoint(d)` (`None`: the request never got a response). */
  function DiscoveryOutcome(d: Daemon, response: Option<HttpResponse>): (r: Result<(), DispatchError>)
    ensures r.Success? <==>
              && response.Some? && IsSuccessStatus(response.value.status)
              && response.value.body.Some? && response.value.body.value.success
    ensures response.None? ==> r == Failure(TransportFailed)
    ensures response.Some? && !IsSuccessStatus(response.value.status) ==>
              r == Failure(DiscoveryHttpStatus(response.value.status))
    ensures r.Failure? && r.error.DiscoveryRejected? ==>
              && r.error.daemonId == d.id
              && response.Some? && response.value.body.Some?
              && r.error.message == response.value.body.value.error.GetOr(UnknownError)
    ensures response.Some? && IsSuccessStatus(response.value.status) && response.value.body.None? ==>
              r == Failure(MalformedEnvelope)
    ensures response.Some? && IsSuccessStatus(response.value.status) &&
            response.value.body.Some? && !response.value.body.value.success ==>
              r == Failure(DiscoveryRejected(d.id, response.value.body.value.error.GetOr(UnknownError)))
  {
    match response
    case None => Failure(TransportFailed)
    case Some(resp) =>
      if !IsSuccessStatus(resp.status) then Failure(DiscoveryHttpStatus(resp.status))
      else match resp.body
        case None => Failure(MalformedEnvelope)
        case Some(env) =>
          if !env.success then Failure(DiscoveryRejected(d.id, env.error.GetOr(UnknownError)))
          else Success(())
  }

  /** `send_discovery_cancellation`: only the status is looked at. */
  function CancellationOutcome(d: Daemon, response: Option<HttpResponse>): (r: Result<(), DispatchError>)
    ensures r.Success? <==> response.Some? && IsSuccessStatus(response.value.status)
    ensures response.None? ==> r == Failure(TransportFailed)
    ensures response.Some? && r.Failure? ==> r == Failure(CancellationHttpStatus(d.id, response.value.status))
  {
    match response
    case None => Failure(TransportFailed)
    case Some(resp) =>
      if !IsSuccessStatus(resp.status) then Failure(CancellationHttpStatus(d.id, resp.status))
      else Success(())
  }

  /** A cancellation never reads the envelope; a discovery request that got a 2xx
      response succeeds only when the envelope says so. */
  lemma CancellationIgnoresEnvelope(d: Daemon, status: nat, body: Option<Envelope>, body': Option<Envelope>)
    ensures CancellationOutcome(d, Some(HttpResponse(status, body))) ==
            CancellationOutcome(d, Some(HttpResponse(status, body')))
    ensures IsSuccessStatus(status) ==>
              CancellationOutcome(d, Some(HttpResponse(status, Some(Envelope(false, None))))).Success? &&
              DiscoveryOutcome(d, Some(HttpResponse(status, Some(Envelope(false, None))))).Failure?
  {
  }

  /** One heartbeat: the daemon `daemon` as reported, received at time `at`. */
  datatype Beat = Beat(daemon: Daemon, at: Timestamp)

  /** The table after `receive_heartbeat(b.daemon)` at time `b.at`. */
  function AfterHeartbeat(t: Table, b: Beat, c: IpCodec): (r: Table)
    requires Keyed(t)
    ensures Keyed(r) && r.Keys == t.Keys
    ensures forall k :: k in t && k != b.daemon.id ==> r[k] == t[k]
    ensures b.daemon.id in t && !UpdateConflicts(t, b.daemon) ==> r[b.daemon.id].lastSeen == b.at
    ensures b.daemon.id in t && UpdateConflicts(t, b.daemon) ==> r[b.daemon.id] == t[b.daemon.id]
  {
    var beat := b.daemon.(lastSeen := b.at);
    if UpdateConflicts(t, beat) then t else Updated(t, beat, c)
  }

  /** The table after the heartbeats `beats`, received in order. */
  function AfterHeartbeats(t: Table, beats: seq<Beat>, c: IpCodec): (r: Table)
    requires Keyed(t)
    ensures Keyed(r) && r.Keys == t.Keys
    decreases |beats|
  {
    if beats == [] then t
    else AfterHeartbeat(AfterHeartbeats(t, beats[..|beats| - 1], c), beats[|beats| - 1], c)
  }

  predicate InArrivalOrder(beats: seq<Beat>) {
    forall i, j :: 0 <= i < j < |beats| ==> beats[i].at <= beats[j].at
  }

  /** After any prefix of in-order heartbeats, a stored `last_seen` lies between
      its starting value and the time of the latest heartbeat. */
  lemma {:induction false} LastSeenWithinBeats(t: Table, beats: seq<Beat>, c: IpCodec, k: Uuid)
    requires Keyed(t) && k in t
    requires InArrivalOrder(beats)
    requires forall i :: 0 <= i < |beats| ==> t[k].lastSeen <= beats[i].at
    ensures k in AfterHeartbeats(t, beats, c)
    ensures t[k].lastSeen <= AfterHeartbeats(t, beats, c)[k].lastSeen
    ensures |beats| > 0 ==> AfterHeartbeats(t, beats, c)[k].lastSeen <= beats[|beats| - 1].at
  {
    if beats != [] {
      var n := |beats| - 1;
      LastSeenWithinBeats(t, beats[..n], c, k);
      if n > 0 {
        assert beats[..n][n - 1] == beats[n - 1];
      }
    }
  }

  /** A heartbeat no earlier than the stored `last_seen` does not move it back. */
  lemma HeartbeatNeverMovesBack(t: Table, b: Beat, c: IpCodec, k: Uuid)
    requires Keyed(t) && k in t
    requires t[k].lastSeen <= b.at
    ensures k in AfterHeartbeat(t, b, c)
    ensures t[k].lastSeen <= AfterHeartbeat(t, b, c)[k].lastSeen
  {
  }

  /** With heartbeat times that never decrease, starting no earlier than the
      stored value, `last_seen` never decreases from one heartbeat to the next. */
  lemma {:induction false} HeartbeatsNeverDecreaseLastSeen(t: Table, beats: seq<Beat>, c: IpCodec, k: Uuid, i: nat, j: nat)
    requires Keyed(t) && k in t
    requires InArrivalOrder(beats)
    requires forall n :: 0 <= n < |beats| ==> t[k].lastSeen <= beats[n].at
    requires i <= j <= |beats|
    ensures k in AfterHeartbeats(t, beats[..i], c) && k in AfterHeartbeats(t, beats[..j], c)
    ensures AfterHeartbeats(t, beats[..i], c)[k].lastSeen <= AfterHeartbeats(t, beats[..j], c)[k].lastSeen
  {
    if i < j {
      HeartbeatsNeverDecreaseLastSeen(t, beats, c, k, i, j - 1);
      var prefix := beats[..j - 1];
      HeartbeatsStep(t, beats, c, j);
      LastSeenWithinBeats(t, prefix, c, k);
      if j - 1 > 0 {
        assert prefix[j - 2] == beats[j - 2];
      }
      HeartbeatNeverMovesBack(AfterHeartbeats(t, prefix, c), beats[j - 1], c, k);
    }
  }

  /** The first `j` heartbeats are the first `j - 1` followed by the `j`-th. */
  lemma HeartbeatsStep(t: Table, beats: seq<Beat>, c: IpCodec, j: nat)
    requires Keyed(t)
    requires 0 < j <= |beats|
    ensures AfterHeartbeats(t, beats[..j], c) == AfterHeartbeat(AfterHeartbeats(t, beats[..j - 1], c), beats[j - 1], c)
  {
    assert beats[..j][..j - 1] == beats[..j - 1];
  }

  class DaemonService {
    const storage: PostgresDaemonStorage

    constructor (storage: PostgresDaemonStorage)
      ensures this.storage == storage
    {
      this.storage := storage;
    }

    /** `register_daemon`: create, then hand back the daemon as given. */
    method RegisterDaemon(d: Daemon, now: Timestamp) returns (r: Result<Daemon, StoreError>)
      requires storage.Valid()
      modifies storage
      ensures storage.Valid()
      ensures r.Success? <==> !CreateConflicts(old(storage.rows), d)
      ensures r.Success? ==> r.value == d
      ensures r.Failure? ==> r.error == Conflict
      ensures storage.rows == if r.Success? then Created(old(storage.rows), d, now, storage.codec) else old(storage.rows)
    {
      var created := storage.Create(d, now);
      if created.Failure? {
        return Failure(created.error);
      }
      r := Success(d);
    }

    /** `get_daemon` */
    method GetDaemon(id: Uuid) returns (r: Result<Option<Daemon>, StoreError>)
      requires storage.Valid()
      ensures IsLookupResult(storage.rows, storage.codec, IdHits(storage.rows, id), r)
    {
      r := storage.GetById(id);
    }

    /** `get_host_daemon` */
    method GetHostDaemon(hostId: Uuid) returns (r: Result<Option<Daemon>, StoreError>)
      requires storage.Valid()
      ensures IsLookupResult(storage.rows, storage.codec, HostIdHits(storage.rows, hostId), r)
    {
      r := storage.GetByHostId(hostId);
    }

    /** `get_daemon_by_api_key_hash`, resolved to the store's exact-match
        `get_by_api_key`. */
    method GetDaemonByApiKeyHash(apiKey: string) returns (r: Result<Option<Daemon>, StoreError>)
      requires storage.Valid()
      ensures IsLookupResult(storage.rows, storage.codec, ApiKeyHits(storage.rows, apiKey), r)
    {
      r := storage.GetByApiKey(apiKey);
    }

    /** `get_all_daemons` */
    method GetAllDaemons(networkIds: seq<Uuid>) returns (r: Result<seq<Daemon>, StoreError>)
      requires storage.Valid()
      ensures IsListing(storage.rows, storage.codec, networkIds, r)
    {
      r := storage.GetAll(networkIds);
    }

    /** `update_daemon`: the store's update, nothing added. */
    method UpdateDaemon(d: Daemon) returns (r: Result<Daemon, StoreError>)
      requires storage.Valid()
      modifies storage
      ensures storage.Valid()
      ensures r.Failure? <==> UpdateConflicts(old(storage.rows), d)
      ensures r.Failure? ==> r.error == Conflict
      ensures r.Success? ==> r.value == d
      ensures storage.rows == if r.Success? then Updated(old(storage.rows), d, storage.codec) else old(storage.rows)
    {
      r := storage.Update(d);
    }

    /** `receive_heartbeat`: stamp `last_seen` with `now`, then update. */
    method ReceiveHeartbeat(d: Daemon, now: Timestamp) returns (r: Result<Daemon, StoreError>)
      requires storage.Valid()
      modifies storage
      ensures storage.Valid()
      ensures r.Failure? <==> UpdateConflicts(old(storage.rows), d)
      ensures r.Failure? ==> r.error == Conflict
      ensures r.Success? ==> r.value == d.(lastSeen := now)
      ensures storage.rows == AfterHeartbeat(old(storage.rows), Beat(d, now), storage.codec)
    {
      var beat := d.(lastSeen := now);
      r := storage.Update(beat);
    }

    /** `delete_daemon` */
    method DeleteDaemon(id: Uuid)
      requires storage.Valid()
      modifies storage
      ensures storage.Valid()
      ensures storage.rows == old(storage.rows) - {id}
    {
      storage.Delete(id);
    }
  }
}
