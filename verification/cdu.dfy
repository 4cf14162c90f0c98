/** One reconciliation run of the updater: find the public IPv4 address,
    resolve the zone, resolve every configured record, then point every
    record at the address. The DNS provider and the public-address lookup
    are an oracle; the run returns its outcome together with the list of
    provider calls it issued, in order. */
module Cdu {
  import opened Wrappers

  newtype Octet = x: int | 0 <= x < 256

  datatype Ipv4 = Ipv4(a: Octet, b: Octet, c: Octet, d: Octet)

  /** The errors a run can end with. `ApiFailure` is any failed provider
      request; `Other` covers failures of code outside the model, such as
      building the HTTP client or parsing the cron expression. */
  datatype CduError =
    | PublicIP
    | ApiFailure
    | ZoneNotFound(zone: string)
    | RecordNotFound(name: string)
    | Other

  /** What a provider request returns: the listed or updated result, or a
      request failure. */
  datatype ApiReply<+T> = Reply(result: T) | Failed

  datatype DnsContent = A(content: Ipv4)

  /** Body of an update request; `None` leaves the attribute as it is. */
  datatype UpdateParams = UpdateParams(
    name: string,
    content: DnsContent,
    proxied: Option<bool>,
    ttl: Option<nat>)

  /** A request sent to the provider. */
  datatype Call =
    | ListZones(name: string)
    | ListDnsRecords(zoneId: string, name: string)
    | UpdateDnsRecord(zoneId: string, recordId: string, params: UpdateParams)

  /** The world as one run sees it: the public address (if one can be found),
      whether the HTTP client can be built, and the provider's answer to each
      request. Zone and record listings answer with the ids of the matches,
      in the provider's order. */
  datatype Provider = Provider(
    publicIp: Option<Ipv4>,
    clientBuilds: bool,
    zones: string -> ApiReply<seq<string>>,
    records: (string, string) -> ApiReply<seq<string>>,
    update: (string, string, UpdateParams) -> ApiReply<DnsContent>)

  /** A record name together with the id it resolved to. */
  datatype Resolved = Resolved(id: string, name: string)

  datatype RunResult = RunResult(outcome: Outcome<CduError>, calls: seq<Call>)

  // ---------------------------------------------------------------------
  // Reference view of the provider, stated on the oracle directly.

  /** The zone listing answered with at least one zone. */
  predicate ZoneFound(p: Provider, zone: string)
  {
    p.zones(zone).Reply? && |p.zones(zone).result| > 0
  }

  /** The record listing for `name` in zone `zoneId` answered with at least one record. */
  predicate RecordFound(p: Provider, zoneId: string, name: string)
  {
    p.records(zoneId, name).Reply? && |p.records(zoneId, name).result| > 0
  }

  /** Every configured name has a record in the zone. */
  predicate AllRecordsFound(p: Provider, zoneId: string, names: seq<string>)
  {
    forall i :: 0 <= i < |names| ==> RecordFound(p, zoneId, names[i])
  }

  /** The update the run must send for `name`: the first matching record,
      its own name, the address as A content, proxied and ttl untouched. */
  function ExpectedUpdate(p: Provider, zoneId: string, name: string, ip: Ipv4): Call
    requires RecordFound(p, zoneId, name)
  {
    UpdateDnsRecord(zoneId, p.records(zoneId, name).result[0], UpdateParams(name, A(ip), None, None))
  }

  /** Every configured name has a record and the provider accepts the
      expected update of each of them. */
  predicate UpdatesAccepted(p: Provider, zoneId: string, names: seq<string>, ip: Ipv4)
  {
    && AllRecordsFound(p, zoneId, names)
    && forall i :: 0 <= i < |names| ==>
         var c := ExpectedUpdate(p, zoneId, names[i], ip);
         p.update(c.zoneId, c.recordId, c.params).Reply?
  }

  /** A run that succeeds: address known, client built, zone found, every
      record found and every one of the expected updates accepted. */
  predicate Reconciles(p: Provider, zone: string, names: seq<string>)
  {
    && p.publicIp.Some?
    && p.clientBuilds
    && ZoneFound(p, zone)
    && UpdatesAccepted(p, p.zones(zone).result[0], names, p.publicIp.value)
  }

  // ---------------------------------------------------------------------
  // The run itself.

  /** The zone id is the id of the first zone listed. */
  function ZoneLookup(p: Provider, zone: string): Result<string, CduError>
  {
    match p.zones(zone)
    case Failed => Failure(ApiFailure)
    case Reply(ids) => if |ids| == 0 then Failure(ZoneNotFound(zone)) else Success(ids[0])
  }

  /** The record id is the id of the first record listed for the name. */
  function RecordLookup(p: Provider, zoneId: string, name: string): Result<Resolved, CduError>
  {
    match p.records(zoneId, name)
    case Failed => Failure(ApiFailure)
    case Reply(ids) => if |ids| == 0 then Failure(RecordNotFound(name)) else Success(Resolved(ids[0], name))
  }

  /** The update request for one resolved record. */
  function UpdateCall(zoneId: string, ip: Ipv4, r: Resolved): Call
  {
    UpdateDnsRecord(zoneId, r.id, UpdateParams(r.name, A(ip), None, None))
  }

  function UpdateResult(p: Provider, c: Call): Result<DnsContent, CduError>
    requires c.UpdateDnsRecord?
  {
    match p.update(c.zoneId, c.recordId, c.params)
    case Failed => Failure(ApiFailure)
    case Reply(content) => Success(content)
  }

  /** One record listing per configured name, in configured order. */
  function LookupCalls(zoneId: string, names: seq<string>): (calls: seq<Call>)
  {
    seq(|names|, i requires 0 <= i < |names| => ListDnsRecords(zoneId, names[i]))
  }

  /** Resolves every name in the zone; the first failing name in configured
      order decides the error. */
  function ResolveAll(p: Provider, zoneId: string, names: seq<string>): (r: Result<seq<Resolved>, CduError>)
    ensures r.Success? <==> AllRecordsFound(p, zoneId, names)
    ensures r.Success? ==>
      && |r.value| == |names|
      && forall i :: 0 <= i < |names| ==>
           r.value[i] == Resolved(p.records(zoneId, names[i]).result[0], names[i])
  {
    var found := seq(|names|, i requires 0 <= i < |names| => RecordLookup(p, zoneId, names[i]));
    assert forall i :: 0 <= i < |names| ==> (found[i].Success? <==> RecordFound(p, zoneId, names[i]));
    Collect(found)
  }

  /** Sends one update per resolved record, all of them before any reply is
      looked at; the first failed reply in order is the error. */
  function Dispatch(p: Provider, zoneId: string, ip: Ipv4, resolved: seq<Resolved>): (r: RunResult)
    ensures |r.calls| == |resolved|
    ensures forall i :: 0 <= i < |resolved| ==> r.calls[i] == UpdateCall(zoneId, ip, resolved[i])
    ensures r.outcome.Pass? <==>
      forall i :: 0 <= i < |resolved| ==>
        p.update(zoneId, resolved[i].id, UpdateParams(resolved[i].name, A(ip), None, None)).Reply?
    ensures r.outcome.Fail? ==> r.outcome.error == ApiFailure
  {
    var updates := seq(|resolved|, i requires 0 <= i < |resolved| => UpdateCall(zoneId, ip, resolved[i]));
    var replies := seq(|updates|, i requires 0 <= i < |updates| => UpdateResult(p, updates[i]));
    assert forall i :: 0 <= i < |replies| ==>
      (replies[i].Success? <==>
       p.update(zoneId, resolved[i].id, UpdateParams(resolved[i].name, A(ip), None, None)).Reply?);
    assert forall res :: res in replies && res.Failure? ==> res.error == ApiFailure;
    var outcome := Collect(replies).ToOutcome();
    RunResult(outcome, updates)
  }

  /** Everything after the zone is known: resolve every name, then update
      every record. Nothing is updated unless every name resolved. */
  function InZone(p: Provider, zoneId: string, ip: Ipv4, names: seq<string>): (r: RunResult)
    // One lookup per configured name, in order.
    ensures |r.calls| >= |names|
    ensures forall i :: 0 <= i < |names| ==> r.calls[i] == ListDnsRecords(zoneId, names[i])
    // All or nothing: one missing record means no update at all.
    ensures !AllRecordsFound(p, zoneId, names) ==> |r.calls| == |names| && r.outcome.Fail?
    // Otherwise one update per name, in order, with the expected parameters.
    ensures AllRecordsFound(p, zoneId, names) ==>
      && |r.calls| == 2 * |names|
      && (forall i :: 0 <= i < |names| ==> r.calls[|names| + i] == ExpectedUpdate(p, zoneId, names[i], ip))
      && (r.outcome.Fail? ==> r.outcome.error == ApiFailure)
    ensures r.outcome.Pass? <==> UpdatesAccepted(p, zoneId, names, ip)
  {
    var lookups := LookupCalls(zoneId, names);
    match ResolveAll(p, zoneId, names)
    case Failure(e) => RunResult(Fail(e), lookups)
    case Success(resolved) =>
      var updates := Dispatch(p, zoneId, ip, resolved);
      RunResult(updates.outcome, lookups + updates.calls)
  }

  /** One run for zone `zone` and record names `names`. Lookups are all issued
      before any of their results is looked at, and so are updates; results are
      consumed in configured order and the first error met is the run's. */
  function Run(zone: string, names: seq<string>, p: Provider): (r: RunResult)
    // No address: fail before talking to the provider.
    ensures p.publicIp.None? ==> r == RunResult(Fail(PublicIP), [])
    ensures p.publicIp.Some? && !p.clientBuilds ==> r == RunResult(Fail(Other), [])
    // The zone listing is the first provider call.
    ensures p.publicIp.Some? && p.clientBuilds ==> |r.calls| >= 1 && r.calls[0] == ListZones(zone)
    ensures p.publicIp.Some? && p.clientBuilds && !ZoneFound(p, zone) ==>
      r.calls == [ListZones(zone)] &&
      r.outcome == Fail(if p.zones(zone).Failed? then ApiFailure else ZoneNotFound(zone))
    // Then everything else, against the id of the first zone listed.
    ensures p.publicIp.Some? && p.clientBuilds && ZoneFound(p, zone) ==>
      r == RunResult(r.outcome, [ListZones(zone)] + InZone(p, p.zones(zone).result[0], p.publicIp.value, names).calls)
    // The run succeeds exactly when the reference view says every step does.
    ensures r.outcome.Pass? <==> Reconciles(p, zone, names)
  {
    match p.publicIp
    case None => RunResult(Fail(PublicIP), [])
    case Some(ip) =>
      if !p.clientBuilds then RunResult(Fail(Other), [])
      else
        match ZoneLookup(p, zone)
        case Failure(e) => RunResult(Fail(e), [ListZones(zone)])
        case Success(zoneId) =>
          var rest := InZone(p, zoneId, ip, names);
          RunResult(rest.outcome, [ListZones(zone)] + rest.calls)
  }

  /** The calls of a run that found its zone: the zone listing, then one
      record listing per configured name in order, then (only if every name
      has a record) one update per name in order with the expected
      parameters. */
  lemma RunCallTrace(zone: string, names: seq<string>, p: Provider)
    requires p.publicIp.Some? && p.clientBuilds && ZoneFound(p, zone)
    ensures var r := Run(zone, names, p);
      var zoneId := p.zones(zone).result[0];
      && r.calls[0] == ListZones(zone)
      && |r.calls| >= 1 + |names|
      && (forall i :: 0 <= i < |names| ==> r.calls[1 + i] == ListDnsRecords(zoneId, names[i]))
      && (!AllRecordsFound(p, zoneId, names) ==> |r.calls| == 1 + |names| && r.outcome.Fail?)
      && (AllRecordsFound(p, zoneId, names) ==>
            && |r.calls| == 1 + 2 * |names|
            && (forall i :: 0 <= i < |names| ==>
                  r.calls[1 + |names| + i] == ExpectedUpdate(p, zoneId, names[i], p.publicIp.value))
            && (r.outcome.Fail? ==> r.outcome.error == ApiFailure))
  {
  }

  /** When several lookups fail, the run reports the earliest failing name in
      configured order: its request failure, or "record not found" for it. */
  lemma RunReportsEarliestLookupFailure(zone: string, names: seq<string>, p: Provider, i: nat)
    requires p.publicIp.Some? && p.clientBuilds && ZoneFound(p, zone)
    requires i < |names| && !RecordFound(p, p.zones(zone).result[0], names[i])
    requires forall j :: 0 <= j < i ==> RecordFound(p, p.zones(zone).result[0], names[j])
    ensures Run(zone, names, p).outcome ==
      Fail(if p.records(p.zones(zone).result[0], names[i]).Failed? then ApiFailure else RecordNotFound(names[i]))
  {
    var zoneId := p.zones(zone).result[0];
    var found := seq(|names|, k requires 0 <= k < |names| => RecordLookup(p, zoneId, names[k]));
    CollectEarliestFailure(found, i);
  }
}
