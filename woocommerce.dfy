/** The WooCommerce connection registry: an ordered list of server profiles kept
    under one storage key, of which at most one is meant to be active. Every
    operation reads the whole list, changes it and writes the whole list back;
    the stored list is the `servers` field of a `Registry`. */
module WooCommerce {
  import opened Common

  datatype Status = Online | Offline | Error

  /** One stored connection profile. The optional fields of the stored record
      (`lastChecked`, `status`, `errorMessage`) are `Option`s. */
  datatype Server = Server(
    id: string,
    name: string,
    url: string,
    consumerKey: string,
    consumerSecret: string,
    isActive: bool,
    lastChecked: Option<string>,
    status: Option<Status>,
    errorMessage: Option<string>)

  /** What a caller hands to `addServer`: a profile without `id`, `isActive` and `status`. */
  datatype NewServer = NewServer(
    name: string,
    url: string,
    consumerKey: string,
    consumerSecret: string,
    lastChecked: Option<string>,
    errorMessage: Option<string>)

  /** One key of a partial record: absent (`Keep`) or present with a value. A key
      that is present with the value `undefined` is `Put(None)`. */
  datatype Patch<+T> = Keep | Put(value: T)

  /** `Partial<WooCommerceServer>`: any subset of the profile's keys. */
  datatype ServerUpdate = ServerUpdate(
    id: Patch<string>,
    name: Patch<string>,
    url: Patch<string>,
    consumerKey: Patch<string>,
    consumerSecret: Patch<string>,
    isActive: Patch<bool>,
    lastChecked: Patch<Option<string>>,
    status: Patch<Option<Status>>,
    errorMessage: Patch<Option<string>>)

  function Over<T>(p: Patch<T>, current: T): T {
    match p
    case Keep => current
    case Put(v) => v
  }

  /** `{ ...s, ...u }`: every key present in `u` replaces the one in `s`. */
  function ApplyUpdate(s: Server, u: ServerUpdate): Server {
    Server(
      Over(u.id, s.id),
      Over(u.name, s.name),
      Over(u.url, s.url),
      Over(u.consumerKey, s.consumerKey),
      Over(u.consumerSecret, s.consumerSecret),
      Over(u.isActive, s.isActive),
      Over(u.lastChecked, s.lastChecked),
      Over(u.status, s.status),
      Over(u.errorMessage, s.errorMessage))
  }

  /** The update with no key present. */
  const NoUpdate: ServerUpdate := ServerUpdate(Keep, Keep, Keep, Keep, Keep, Keep, Keep, Keep, Keep)

  function Later<T>(p: Patch<T>, q: Patch<T>): Patch<T> {
    if q.Put? then q else p
  }

  /** `{ ...u, ...v }`: the keys of `v` win over those of `u`. */
  function Then(u: ServerUpdate, v: ServerUpdate): ServerUpdate {
    ServerUpdate(
      Later(u.id, v.id),
      Later(u.name, v.name),
      Later(u.url, v.url),
      Later(u.consumerKey, v.consumerKey),
      Later(u.consumerSecret, v.consumerSecret),
      Later(u.isActive, v.isActive),
      Later(u.lastChecked, v.lastChecked),
      Later(u.status, v.status),
      Later(u.errorMessage, v.errorMessage))
  }

  /** The laws of the spread `{ ...s, ...u }`: an empty update changes nothing,
      spreading the same update again changes nothing more, and two updates in
      a row act as one update in which the later keys win. */
  lemma ApplyUpdateLaws(s: Server, u: ServerUpdate, v: ServerUpdate)
    ensures ApplyUpdate(s, NoUpdate) == s
    ensures ApplyUpdate(ApplyUpdate(s, u), u) == ApplyUpdate(s, u)
    ensures ApplyUpdate(ApplyUpdate(s, u), v) == ApplyUpdate(s, Then(u, v))
  {
  }

  // ---------------------------------------------------------------------------
  // Properties of a stored list

  predicate DistinctIds(s: seq<Server>) {
    forall i, j :: 0 <= i < j < |s| ==> s[i].id != s[j].id
  }

  predicate HasId(s: seq<Server>, id: string) {
    exists i :: 0 <= i < |s| && s[i].id == id
  }

  predicate AtMostOneActive(s: seq<Server>) {
    forall i, j :: 0 <= i < |s| && 0 <= j < |s| && s[i].isActive && s[j].isActive ==> i == j
  }

  predicate NoneActive(s: seq<Server>) {
    forall i :: 0 <= i < |s| ==> !s[i].isActive
  }

  predicate ExactlyOneActive(s: seq<Server>) {
    exists i :: 0 <= i < |s| && s[i].isActive && forall j :: 0 <= j < |s| && s[j].isActive ==> j == i
  }

  // ---------------------------------------------------------------------------
  // The list operations the service performs with library calls

  /** `servers.find(s => s.isActive)`: the first active profile, if any. */
  function FirstActive(s: seq<Server>): (r: Option<Server>)
    ensures r.None? <==> NoneActive(s)
    ensures r.Some? ==> exists i :: 0 <= i < |s| && s[i] == r.value && r.value.isActive && NoneActive(s[..i])
  {
    if s == [] then None
    else if s[0].isActive then
      assert s[..0] == [];
      Some(s[0])
    else
      var r := FirstActive(s[1..]);
      if r.Some? then
        var i :| 0 <= i < |s[1..]| && s[1..][i] == r.value && r.value.isActive && NoneActive(s[1..][..i]);
        assert s[..i + 1] == [s[0]] + s[1..][..i];
        r
      else
        r
  }

  /** `servers.findIndex(s => s.id === id)`: the first index holding `id`, or -1. */
  function IndexOfId(s: seq<Server>, id: string): (r: int)
    ensures -1 <= r < |s|
    ensures r == -1 <==> !HasId(s, id)
    ensures r >= 0 ==> s[r].id == id && forall j :: 0 <= j < r ==> s[j].id != id
  {
    if s == [] then -1
    else if s[0].id == id then 0
    else
      var k := IndexOfId(s[1..], id);
      if k == -1 then
        assert forall i :: 1 <= i < |s| ==> s[i] == s[1..][i - 1];
        -1
      else
        k + 1
  }

  /** `servers.filter(s => s.id !== id)`. */
  function WithoutId(s: seq<Server>, id: string): (r: seq<Server>)
    ensures |r| <= |s|
    ensures forall x :: x in r <==> x in s && x.id != id
  {
    if s == [] then []
    else if s[0].id == id then WithoutId(s[1..], id)
    else [s[0]] + WithoutId(s[1..], id)
  }

  /** The delete filter keeps the survivors in their order: filtering a
      concatenation concatenates the filtered parts. */
  lemma {:induction false} WithoutIdSplit(a: seq<Server>, b: seq<Server>, id: string)
    ensures WithoutId(a + b, id) == WithoutId(a, id) + WithoutId(b, id)
  {
    if a == [] {
      assert a + b == b;
    } else {
      assert (a + b)[0] == a[0];
      assert (a + b)[1..] == a[1..] + b;
      WithoutIdSplit(a[1..], b, id);
    }
  }

  /** The list after `forEach(server => server.isActive = server.id === id)`:
      a profile is active exactly when it holds `id`, nothing else changes, and
      no profile is active exactly when no profile holds `id`. */
  function ActivateOnly(s: seq<Server>, id: string): (r: seq<Server>)
    ensures |r| == |s|
    ensures forall i :: 0 <= i < |s| ==> (r[i].isActive <==> s[i].id == id) && r[i].(isActive := s[i].isActive) == s[i]
    ensures NoneActive(r) <==> !HasId(s, id)
  {
    seq(|s|, i requires 0 <= i < |s| => s[i].(isActive := s[i].id == id))
  }

  // ---------------------------------------------------------------------------
  // The new stored list after each operation

  /** The profile `addServer` creates from `input`, given a fresh id and whether
      the registry was empty. */
  function NewProfile(input: NewServer, id: string, first: bool): (p: Server)
    ensures p.id == id && p.status == Some(Offline) && p.isActive == first
    ensures NewServer(p.name, p.url, p.consumerKey, p.consumerSecret, p.lastChecked, p.errorMessage) == input
  {
    Server(id, input.name, input.url, input.consumerKey, input.consumerSecret,
           first, input.lastChecked, Some(Offline), input.errorMessage)
  }

  function Added(s: seq<Server>, input: NewServer, id: string): (r: seq<Server>)
    ensures |r| == |s| + 1 && r[..|s|] == s
    ensures r[|s|].id == id && r[|s|].status == Some(Offline) && (r[|s|].isActive <==> s == [])
  {
    s + [NewProfile(input, id, s == [])]
  }

  /** The list after `updateServer(id, u)`. */
  function Updated(s: seq<Server>, id: string, u: ServerUpdate): (r: seq<Server>)
    ensures |r| == |s|
    ensures !HasId(s, id) ==> r == s
  {
    var k := IndexOfId(s, id);
    if k == -1 then s else s[k := ApplyUpdate(s[k], u)]
  }

  /** With a known id, `updateServer` rewrites the first profile holding it,
      with the keys of `u` overriding, and no other. */
  lemma UpdatedAt(s: seq<Server>, id: string, u: ServerUpdate, k: int)
    requires 0 <= k < |s| && s[k].id == id
    requires forall j :: 0 <= j < k ==> s[j].id != id
    ensures Updated(s, id, u)[k] == ApplyUpdate(s[k], u)
    ensures forall j :: 0 <= j < |s| && j != k ==> Updated(s, id, u)[j] == s[j]
  {
    var i := IndexOfId(s, id);
    assert i == k by {
      if i < k {
        assert false;
      }
    }
  }

  /** The list after `deleteServer(id)`: the survivors, and if none of them is
      active, the first survivor's id is made the active one. */
  function AfterDelete(s: seq<Server>, id: string): (r: seq<Server>)
    ensures |r| == |WithoutId(s, id)| <= |s|
    ensures forall i :: 0 <= i < |r| ==> r[i].id != id
    ensures r != [] ==> !NoneActive(r)
  {
    var kept := WithoutId(s, id);
    assert forall i :: 0 <= i < |kept| ==> kept[i] in kept;
    if FirstActive(kept).None? && |kept| > 0 then
      var r := ActivateOnly(kept, kept[0].id);
      assert r[0].isActive;
      r
    else
      kept
  }

  // ---------------------------------------------------------------------------
  // Status probing

  /** The probe request: GET `{url}/wp-json/wc/v3/system_status` with the
      profile's key and secret as basic-auth user and password. */
  datatype ProbeRequest = ProbeRequest(url: string, username: string, password: string)

  function ProbeFor(s: Server): (p: ProbeRequest)
    ensures StartsWith(p.url, s.url) && EndsWith(p.url, StatusPath)
    ensures p.username == s.consumerKey && p.password == s.consumerSecret
  {
    assert (s.url + StatusPath)[..|s.url|] == s.url;
    assert (s.url + StatusPath)[|s.url|..] == StatusPath;
    ProbeRequest(s.url + StatusPath, s.consumerKey, s.consumerSecret)
  }

  const StatusPath: string := "/wp-json/wc/v3/system_status"
  const UnexpectedStatusMessage: string := "Server returned unexpected status"
  const UnknownErrorMessage: string := "Unknown error occurred"

  datatype StatusReport = StatusReport(status: Status, errorMessage: Option<string>)

  /** `checkServerStatus`: `probe` answers each request with the HTTP status code
      it received or with what the client threw. */
  function CheckServerStatus(s: Server, probe: ProbeRequest -> Outcome<int>): (r: StatusReport)
    ensures r.status == Online <==> probe(ProbeFor(s)) == Ok(200)
    ensures r.status == Online ==> r.errorMessage == None
    ensures r.status != Online ==> r.status == Error && r.errorMessage.Some?
    ensures probe(ProbeFor(s)).Err? && probe(ProbeFor(s)).error.IsError() ==>
              r.errorMessage == Some(probe(ProbeFor(s)).error.message)
    ensures probe(ProbeFor(s)).Err? && !probe(ProbeFor(s)).error.IsError() ==> r.errorMessage == Some(UnknownErrorMessage)
    ensures probe(ProbeFor(s)).Ok? && probe(ProbeFor(s)).value != 200 ==> r.errorMessage == Some(UnexpectedStatusMessage)
  {
    match probe(ProbeFor(s))
    case Ok(code) =>
      StatusReport(if code == 200 then Online else Error,
                   if code != 200 then Some(UnexpectedStatusMessage) else None)
    case Err(e) =>
      StatusReport(Error, Some(if e.IsError() then e.message else UnknownErrorMessage))
  }

  /** The update `checkAllServersStatus` writes for one profile. */
  function StampUpdate(r: StatusReport, now: string): (u: ServerUpdate)
    ensures forall s :: SameProfile(ApplyUpdate(s, u), s)
    ensures forall s :: ApplyUpdate(s, u).lastChecked == Some(now) && ApplyUpdate(s, u).status == Some(r.status) &&
                        ApplyUpdate(s, u).errorMessage == r.errorMessage
  {
    ServerUpdate(Keep, Keep, Keep, Keep, Keep, Keep, Put(Some(now)), Put(Some(r.status)), Put(r.errorMessage))
  }

  /** The report the status loop obtains for each profile of the snapshot `s0`. */
  function Reports(s0: seq<Server>, probe: ProbeRequest -> Outcome<int>): seq<StatusReport> {
    seq(|s0|, i requires 0 <= i < |s0| => CheckServerStatus(s0[i], probe))
  }

  /** The first `n` clock readings; `clock(i)` is the time read in iteration `i`. */
  function Readings(clock: nat -> string, n: nat): seq<string> {
    seq(n, i requires 0 <= i < n => clock(i))
  }

  /** The stored list after the first `k` iterations of the status loop over
      the snapshot `s0`, iteration `i` writing `reports[i]` stamped `times[i]`
      through `updateServer`. */
  function SweepPrefix(s0: seq<Server>, reports: seq<StatusReport>, times: seq<string>, k: nat): seq<Server>
    requires k <= |s0| == |reports| == |times|
  {
    if k == 0 then s0
    else Updated(SweepPrefix(s0, reports, times, k - 1), s0[k - 1].id, StampUpdate(reports[k - 1], times[k - 1]))
  }

  /** Stamping a status report through `updateServer` touches only the three
      status fields. */
  lemma StampIsUpdate(s: Server, r: StatusReport, now: string)
    ensures ApplyUpdate(s, StampUpdate(r, now)) == Stamped(s, r, now)
  {
  }

  /** `a` and `b` are the same profile, whatever their status fields say. */
  predicate SameProfile(a: Server, b: Server) {
    a.id == b.id && a.name == b.name && a.url == b.url && a.consumerKey == b.consumerKey &&
    a.consumerSecret == b.consumerSecret && a.isActive == b.isActive
  }

  function Swept(s0: seq<Server>, probe: ProbeRequest -> Outcome<int>, clock: nat -> string): seq<Server> {
    SweepPrefix(s0, Reports(s0, probe), Readings(clock, |s0|), |s0|)
  }

  /** Profile `s` as the status loop leaves it. */
  function Stamped(s: Server, r: StatusReport, now: string): Server {
    s.(lastChecked := Some(now), status := Some(r.status), errorMessage := r.errorMessage)
  }

  // ---------------------------------------------------------------------------
  // The stored registry

  class Registry {
    var servers: seq<Server>

    /** An empty storage key. */
    constructor ()
      ensures servers == []
    {
      servers := [];
    }

    /** `getActiveServer`. */
    function GetActiveServer(): (r: Option<Server>)
      reads this
      ensures r.None? <==> NoneActive(servers)
      ensures r.Some? ==> r.value in servers && r.value.isActive
      ensures r == FirstActive(servers)
    {
      FirstActive(servers)
    }

    /** `addServer`; `freshId` is the value `crypto.randomUUID()` returned. */
    method AddServer(input: NewServer, freshId: string) returns (created: Server)
      requires !HasId(servers, freshId)
      modifies this
      ensures created.id == freshId && created.status == Some(Offline)
      ensures created.isActive <==> old(servers) == []
      ensures created == NewProfile(input, freshId, old(servers) == [])
      ensures servers == old(servers) + [created]
    {
      var list := servers;
      created := NewProfile(input, freshId, |list| == 0);
      list := list + [created];
      servers := list;
    }

    /** `updateServer`. */
    method UpdateServer(id: string, u: ServerUpdate)
      modifies this
      ensures servers == Updated(old(servers), id, u)
    {
      var list := servers;
      var index := IndexOfId(list, id);
      if index != -1 {
        list := list[index := ApplyUpdate(list[index], u)];
        servers := list;
      }
    }

    /** `deleteServer`. */
    method DeleteServer(id: string)
      modifies this
      ensures servers == AfterDelete(old(servers), id)
    {
      var list := WithoutId(servers, id);
      servers := list;
      var active := FirstActive(list);
      if active.None? && |list| > 0 {
        SetActiveServer(list[0].id);
      }
    }

    /** `setActiveServer`: the `forEach` loop writes every profile's flag. */
    method SetActiveServer(id: string)
      modifies this
      ensures |servers| == |old(servers)|
      ensures forall i :: 0 <= i < |servers| ==>
                servers[i] == old(servers)[i].(isActive := old(servers)[i].id == id)
      ensures servers == ActivateOnly(old(servers), id)
    {
      var list := servers;
      var i := 0;
      while i < |list|
        invariant 0 <= i <= |list| == |old(servers)|
        invariant forall k :: 0 <= k < i ==> list[k] == old(servers)[k].(isActive := old(servers)[k].id == id)
        invariant forall k :: i <= k < |list| ==> list[k] == old(servers)[k]
      {
        list := list[i := list[i].(isActive := list[i].id == id)];
        i := i + 1;
      }
      servers := list;
    }

    /** `checkAllServersStatus`: probes each profile of the list read at the
        start, in order, and writes its status through `updateServer`. */
    method CheckAllServersStatus(probe: ProbeRequest -> Outcome<int>, clock: nat -> string)
      modifies this
      ensures servers == Swept(old(servers), probe, clock)
    {
      var snapshot := servers;
      ghost var reports := Reports(snapshot, probe);
      ghost var times := Readings(clock, |snapshot|);
      var k := 0;
      while k < |snapshot|
        invariant 0 <= k <= |snapshot|
        invariant servers == SweepPrefix(snapshot, reports, times, k)
      {
        var report := CheckServerStatus(snapshot[k], probe);
        UpdateServer(snapshot[k].id, StampUpdate(report, clock(k)));
        k := k + 1;
      }
    }
  }

  // ---------------------------------------------------------------------------
  // Lemmas: the active-flag rules

  /** The first profile added is the active one; adding to a non-empty list
      does not change which profile is found active. */
  lemma {:induction false} AddActiveRule(s: seq<Server>, input: NewServer, id: string)
    ensures s == [] ==> FirstActive(Added(s, input, id)) == Some(NewProfile(input, id, true))
    ensures s != [] ==> FirstActive(Added(s, input, id)) == FirstActive(s)
  {
    if s != [] {
      FirstActiveAppendInactive(s, NewProfile(input, id, false));
    }
  }

  lemma {:induction false} FirstActiveAppendInactive(s: seq<Server>, x: Server)
    requires !x.isActive
    ensures FirstActive(s + [x]) == FirstActive(s)
  {
    if s != [] {
      assert (s + [x])[1..] == s[1..] + [x];
      FirstActiveAppendInactive(s[1..], x);
    }
  }

  /** Adding keeps "at most one active" and, with a fresh id, distinct ids. */
  lemma AddPreservesInvariants(s: seq<Server>, input: NewServer, id: string)
    requires AtMostOneActive(s)
    ensures AtMostOneActive(Added(s, input, id))
    ensures DistinctIds(s) && !HasId(s, id) ==> DistinctIds(Added(s, input, id))
  {
    var r := Added(s, input, id);
    forall i, j | 0 <= i < |r| && 0 <= j < |r| && r[i].isActive && r[j].isActive
      ensures i == j
    {
      if i < |s| && j < |s| {
        assert s[i].isActive && s[j].isActive;
      }
    }
  }

  /** After `setActiveServer(id)` the profiles holding `id` are exactly the
      active ones; an unknown id leaves none active, and with distinct ids a
      known id leaves exactly one. */
  lemma SetActiveRule(s: seq<Server>, id: string)
    ensures !HasId(s, id) ==> NoneActive(ActivateOnly(s, id)) && FirstActive(ActivateOnly(s, id)) == None
    ensures HasId(s, id) ==> FirstActive(ActivateOnly(s, id)).Some?
    ensures DistinctIds(s) ==> AtMostOneActive(ActivateOnly(s, id)) && DistinctIds(ActivateOnly(s, id))
  {
    var r := ActivateOnly(s, id);
    if HasId(s, id) {
      var i :| 0 <= i < |s| && s[i].id == id;
      assert r[i].isActive;
    }
  }

  /** `deleteServer` removes every profile holding `id` and keeps every other
      one, in order; only the `isActive` flags may differ from the filtered list. */
  lemma DeleteRemovesExactly(s: seq<Server>, id: string)
    ensures var r := AfterDelete(s, id); var kept := WithoutId(s, id);
      |r| == |kept| &&
      (forall i :: 0 <= i < |r| ==> r[i].id != id && r[i] == kept[i].(isActive := r[i].isActive))
  {
    var kept := WithoutId(s, id);
    forall i | 0 <= i < |kept| ensures kept[i].id != id {
      assert kept[i] in kept;
    }
  }

  /** The promotion rule depends on whether an active profile survives, not on
      whether the deleted one was active: if one survives the list is just
      filtered, otherwise a non-empty survivor list gets its first profile's id
      made active. */
  lemma DeletePromotionRule(s: seq<Server>, id: string)
    ensures FirstActive(WithoutId(s, id)).Some? ==> AfterDelete(s, id) == WithoutId(s, id)
    ensures WithoutId(s, id) != [] ==> FirstActive(AfterDelete(s, id)).Some?
    ensures FirstActive(WithoutId(s, id)).None? && WithoutId(s, id) != [] ==>
              AfterDelete(s, id)[0] == WithoutId(s, id)[0].(isActive := true)
  {
    var kept := WithoutId(s, id);
    if FirstActive(kept).None? && kept != [] {
      SetActiveRule(kept, kept[0].id);
    }
  }

  lemma {:induction false} WithoutIdKeepsDistinct(s: seq<Server>, id: string)
    requires DistinctIds(s)
    ensures DistinctIds(WithoutId(s, id))
  {
    if s != [] {
      WithoutIdKeepsDistinct(s[1..], id);
      var rest := WithoutId(s[1..], id);
      forall j | 0 <= j < |rest| ensures rest[j].id != s[0].id {
        assert rest[j] in s[1..];
      }
    }
  }

  lemma {:induction false} WithoutIdKeepsAtMostOne(s: seq<Server>, id: string)
    requires AtMostOneActive(s)
    ensures AtMostOneActive(WithoutId(s, id))
  {
    if s != [] {
      assert AtMostOneActive(s[1..]) by {
        forall i, j | 0 <= i < |s| - 1 && 0 <= j < |s| - 1 && s[1..][i].isActive && s[1..][j].isActive
          ensures i == j
        {
          assert s[i + 1].isActive && s[j + 1].isActive;
        }
      }
      WithoutIdKeepsAtMostOne(s[1..], id);
      var rest := WithoutId(s[1..], id);
      if s[0].id != id && s[0].isActive {
        forall j | 0 <= j < |rest| ensures !rest[j].isActive {
          assert rest[j] in s[1..];
          var k :| 0 <= k < |s[1..]| && s[1..][k] == rest[j];
          assert s[k + 1] == rest[j];
        }
      }
    }
  }

  /** With distinct ids, deleting keeps "at most one active" and distinct ids,
      and a non-empty registry is left with exactly one active profile whenever
      it had at most one before. */
  lemma DeletePreservesInvariants(s: seq<Server>, id: string)
    requires DistinctIds(s) && AtMostOneActive(s)
    ensures AtMostOneActive(AfterDelete(s, id)) && DistinctIds(AfterDelete(s, id))
    ensures AfterDelete(s, id) != [] ==> ExactlyOneActive(AfterDelete(s, id))
  {
    var kept := WithoutId(s, id);
    WithoutIdKeepsDistinct(s, id);
    WithoutIdKeepsAtMostOne(s, id);
    if FirstActive(kept).None? && |kept| > 0 {
      SetActiveRule(kept, kept[0].id);
    }
    var r := AfterDelete(s, id);
    if r != [] {
      var i :| 0 <= i < |r| && r[i].isActive;
      assert ExactlyOneActive(r) by {
        assert forall j :: 0 <= j < |r| && r[j].isActive ==> j == i;
      }
    }
  }

  // ---------------------------------------------------------------------------
  // Lemmas: updates and the status loop

  lemma UpdatedKeepsIdsWhenIdKept(s: seq<Server>, id: string, u: ServerUpdate)
    requires u.id == Keep
    ensures |Updated(s, id, u)| == |s|
    ensures forall i :: 0 <= i < |s| ==> Updated(s, id, u)[i].id == s[i].id
  {
    var k := IndexOfId(s, id);
    if k != -1 {
      assert forall j :: 0 <= j < k ==> s[j].id != id;
    }
  }

  /** The status loop never changes the list's length or order, nor any field
      other than `lastChecked`, `status` and `errorMessage`. */
  lemma {:induction false} SweepKeepsShape(s0: seq<Server>, reports: seq<StatusReport>, times: seq<string>, k: nat)
    requires k <= |s0| == |reports| == |times|
    ensures |SweepPrefix(s0, reports, times, k)| == |s0|
    ensures forall i :: 0 <= i < |s0| ==> SameProfile(SweepPrefix(s0, reports, times, k)[i], s0[i])
  {
    if k > 0 {
      var prev := SweepPrefix(s0, reports, times, k - 1);
      var u := StampUpdate(reports[k - 1], times[k - 1]);
      SweepKeepsShape(s0, reports, times, k - 1);
      StampStep(prev, s0[k - 1].id, reports[k - 1], times[k - 1]);
      var next := SweepPrefix(s0, reports, times, k);
      assert next == Updated(prev, s0[k - 1].id, u);
      forall i | 0 <= i < |s0| ensures SameProfile(next[i], s0[i]) {
        assert SameProfile(next[i], prev[i]) && SameProfile(prev[i], s0[i]);
      }
    }
  }

  /** One iteration of the status loop changes no profile beyond its status fields. */
  lemma StampStep(s: seq<Server>, id: string, r: StatusReport, now: string)
    ensures |Updated(s, id, StampUpdate(r, now))| == |s|
    ensures forall i :: 0 <= i < |s| ==> SameProfile(Updated(s, id, StampUpdate(r, now))[i], s[i])
  {
    var k := IndexOfId(s, id);
    if k != -1 {
      UpdatedAt(s, id, StampUpdate(r, now), k);
      StampIsUpdate(s[k], r, now);
    }
  }


  /** With distinct ids, after the first `k` iterations exactly the first `k`
      profiles carry their fresh status, each stamped once with its own report
      and its own clock reading. */
  lemma {:induction false} SweepStampsPrefix(s0: seq<Server>, reports: seq<StatusReport>, times: seq<string>, k: nat)
    requires k <= |s0| == |reports| == |times| && DistinctIds(s0)
    ensures |SweepPrefix(s0, reports, times, k)| == |s0|
    ensures forall i :: 0 <= i < k ==> SweepPrefix(s0, reports, times, k)[i] == Stamped(s0[i], reports[i], times[i])
    ensures forall i :: k <= i < |s0| ==> SweepPrefix(s0, reports, times, k)[i] == s0[i]
  {
    if k > 0 {
      SweepStampsPrefix(s0, reports, times, k - 1);
      var s := SweepPrefix(s0, reports, times, k - 1);
      var id := s0[k - 1].id;
      forall j | 0 <= j < k - 1 ensures s[j].id != id {
        assert s[j].id == s0[j].id;
      }
      var u := StampUpdate(reports[k - 1], times[k - 1]);
      UpdatedAt(s, id, u, k - 1);
      StampIsUpdate(s0[k - 1], reports[k - 1], times[k - 1]);
      var next := SweepPrefix(s0, reports, times, k);
      assert next == Updated(s, id, u);
      forall i | 0 <= i < k ensures next[i] == Stamped(s0[i], reports[i], times[i]) {
        if i < k - 1 {
          assert next[i] == s[i];
        }
      }
      forall i | k <= i < |s0| ensures next[i] == s0[i] {
        assert next[i] == s[i];
      }
    }
  }

  /** `checkAllServersStatus` with distinct ids: every profile is stamped with
      its own probe result, in order. */
  lemma SweepStampsAll(s0: seq<Server>, probe: ProbeRequest -> Outcome<int>, clock: nat -> string)
    requires DistinctIds(s0)
    ensures |Swept(s0, probe, clock)| == |s0|
    ensures forall i :: 0 <= i < |s0| ==>
              Swept(s0, probe, clock)[i] == Stamped(s0[i], CheckServerStatus(s0[i], probe), clock(i))
  {
    SweepStampsPrefix(s0, Reports(s0, probe), Readings(clock, |s0|), |s0|);
  }

  /** The loop keeps the length, the order and every field but the status
      fields of every profile, whatever the ids. */
  lemma SweepKeepsProfiles(s0: seq<Server>, probe: ProbeRequest -> Outcome<int>, clock: nat -> string)
    ensures |Swept(s0, probe, clock)| == |s0|
    ensures forall i :: 0 <= i < |s0| ==> SameProfile(Swept(s0, probe, clock)[i], s0[i])
  {
    SweepKeepsShape(s0, Reports(s0, probe), Readings(clock, |s0|), |s0|);
  }

  /** When two profiles share an id, the loop writes both results into the
      first one and never stamps the second. */
  lemma SweepWithSharedId(a: Server, b: Server, probe: ProbeRequest -> Outcome<int>, clock: nat -> string)
    requires a.id == b.id
    ensures |Swept([a, b], probe, clock)| == 2
    ensures Swept([a, b], probe, clock)[1] == b
    ensures Swept([a, b], probe, clock)[0] == Stamped(a, CheckServerStatus(b, probe), clock(1))
  {
    var s0 := [a, b];
    var reports := Reports(s0, probe);
    var times := Readings(clock, 2);
    var u0 := StampUpdate(reports[0], times[0]);
    var u1 := StampUpdate(reports[1], times[1]);
    UpdatedAt(s0, a.id, u0, 0);
    assert SweepPrefix(s0, reports, times, 0) == s0;
    var s1 := SweepPrefix(s0, reports, times, 1);
    assert s1 == Updated(s0, a.id, u0);
    assert s1[0].id == a.id && s1[1] == b;
    UpdatedAt(s1, b.id, u1, 0);
    assert Swept(s0, probe, clock) == Updated(s1, b.id, u1);
  }

  // ---------------------------------------------------------------------------
  // A session: add S1, add S2, delete S1

  lemma AddAddDeleteScenario(n1: NewServer, n2: NewServer, id1: string, id2: string)
    requires id1 != id2
    ensures var s := Added(Added([], n1, id1), n2, id2);
      s[0].isActive && s[0].status == Some(Offline) && !s[1].isActive &&
      FirstActive(s) == Some(s[0]) &&
      FirstActive(AfterDelete(s, id1)) == Some(s[1].(isActive := true))
  {
    var s := Added(Added([], n1, id1), n2, id2);
    assert WithoutId(s, id1) == [s[1]];
  }
}
