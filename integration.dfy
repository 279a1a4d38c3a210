/** The integration's entry points: setting up a configuration entry (storing
    its data and running the sensor platform), the `update_weather` service
    handler that resolves its targets against the registry of sensors and
    refreshes them one by one, and the unloading of an entry, which cleans the
    shared data up. */
module Integration {
  import opened Json
  import opened Text
  import opened Const
  import Api
  import Registry
  import opened Sensor

  /** `async_setup_entry`: the entry's data is stored under its id in the
      shared data (created on first use), the sensor platform is set up for
      the entry, and the service is registered. A raise inside the platform
      setup stops the platform only; the entry setup still succeeds. */
  method SetupIntegration(domain: DomainData, entry: ConfigEntry, api: Api.Client, codec: TimeCodec)
    returns (ok: bool, sensors: seq<Sensor>, requests: seq<Api.Request>, raised: bool)
    requires domain.Valid()
    modifies domain
    ensures ok && domain.present && domain.serviceRegistered && domain.Valid()
    ensures domain.entries == old(domain.entries)[entry.entryId := entry.data]
    ensures domain.apis == Some((if old(domain.apis).Some? then old(domain.apis).value else map[])[entry.entryId := api])
    ensures requests == InitialRequests(entry.data)
    ensures var plan := Plan(Codes(entry.data.icaoCodes), entry.data.feeds);
      && SetUpAll(sensors, plan, api, codec, InitialBatch(api, entry.data, Metar), InitialBatch(api, entry.data, Taf))
      && (!raised ==> |sensors| == |plan|)
      && domain.entities == Some(Registry.RegisterAll(OrEmpty(old(domain.entities)), PlanCodes(plan)[..|sensors|], sensors))
  {
    domain.present := true;
    domain.entries := domain.entries[entry.entryId := entry.data];
    sensors, requests, raised := SetupEntry(domain, entry, api, codec);
    domain.serviceRegistered := true;
    ok := true;
  }

  /** Every sensor listed in the registry, under any code. */
  ghost function Registered(reg: Registry.Registry<Sensor>): set<Sensor> {
    set c, s | c in reg.lists && s in reg.lists[c] :: s
  }

  ghost predicate AllValid(sensors: set<Sensor>)
    reads sensors
  {
    forall s :: s in sensors ==> s.Valid()
  }

  /** Whether the service call names a code: `icao_code` given and non-empty. */
  predicate NamesCode(icaoCode: Option<string>) {
    icaoCode.Some? && icaoCode.value != ""
  }

  /** The sensors the handler refreshes, in order: none without a registry; the
      list of the uppercased code when one is named (none when that code has no
      list); otherwise every list, code by code in registration order. */
  function Targets(entities: Option<Registry.Registry<Sensor>>, icaoCode: Option<string>): (targets: seq<Sensor>)
    requires entities.Some? ==> Registry.Valid(entities.value)
  {
    if entities.None? then []
    else if NamesCode(icaoCode) then Registry.ListOf(entities.value, Upper(icaoCode.value))
    else Registry.All(entities.value)
  }

  /** The handler refreshes exactly the sensors of the named code, or exactly the
      registered sensors when no code is named. */
  lemma TargetsMembers(entities: Option<Registry.Registry<Sensor>>, icaoCode: Option<string>, s: Sensor)
    requires entities.Some? ==> Registry.Valid(entities.value)
    ensures s in Targets(entities, icaoCode) <==>
      && entities.Some?
      && (if NamesCode(icaoCode) then s in Registry.ListOf(entities.value, Upper(icaoCode.value))
          else s in Registered(entities.value))
  {
    if entities.Some? && !NamesCode(icaoCode) {
      Registry.AllMembers(entities.value, s);
    }
  }

  /** Every target is a registered sensor. */
  lemma TargetsRegistered(entities: Option<Registry.Registry<Sensor>>, icaoCode: Option<string>)
    requires entities.Some? ==> Registry.Valid(entities.value)
    ensures forall s :: s in Targets(entities, icaoCode) ==> entities.Some? && s in Registered(entities.value)
  {
    forall s | s in Targets(entities, icaoCode)
      ensures entities.Some? && s in Registered(entities.value)
    {
      TargetsMembers(entities, icaoCode, s);
    }
  }

  /** The loop over `entities.values()` that extends the target list. */
  method CollectTargets(reg: Registry.Registry<Sensor>) returns (targets: seq<Sensor>)
    requires Registry.Valid(reg)
    ensures targets == Registry.All(reg)
  {
    targets := [];
    var i := 0;
    while i < |reg.order|
      invariant 0 <= i <= |reg.order|
      invariant targets == Registry.Concat(reg, reg.order[..i])
    {
      assert reg.order[..i + 1][..i] == reg.order[..i];
      targets := targets + reg.lists[reg.order[i]];
      i := i + 1;
    }
    assert reg.order[..i] == reg.order;
  }

  /** The record a refresh leaves on a sensor: the first record of a fetch of
      its own code that belongs to it. */
  function Fetched(s: Sensor): Option<Record> {
    FindStation(Api.FetchData(s.api, FeedUrl(s.feed), s.icaoCode), s.icaoCode)
  }

  /** A refreshed sensor shows the fetched record. A METAR icon follows from the
      record alone and a TAF icon never changes, so the state is the same
      however many times the sensor was refreshed. */
  ghost predicate Refreshed(s: Sensor)
    reads s
  {
    s.Valid() && s.data == Fetched(s) && s.icon == IconAfter(s.feed, s.data, ICON_FORECAST)
  }

  /** The fetch a refreshed sensor sends: its own code alone, on its feed's
      endpoint. */
  function RequestOf(s: Sensor): Api.Request {
    Api.BuildRequest(FeedUrl(s.feed), s.icaoCode)
  }

  /** The images under `f` of the elements `keep` selects, in order. */
  function Collect<T, U>(xs: seq<T>, keep: T -> bool, f: T -> U): (ys: seq<U>)
    ensures |ys| <= |xs|
    ensures (forall x :: x in xs ==> keep(x)) ==> |ys| == |xs|
  {
    if xs == [] then []
    else
      var x := xs[|xs| - 1];
      Collect(xs[..|xs| - 1], keep, f) + (if keep(x) then [f(x)] else [])
  }

  lemma {:induction false} CollectMembers<T, U>(xs: seq<T>, keep: T -> bool, f: T -> U, y: U)
    ensures y in Collect(xs, keep, f) <==> exists x :: x in xs && keep(x) && y == f(x)
  {
    if xs != [] {
      var init, last := xs[..|xs| - 1], xs[|xs| - 1];
      CollectMembers(init, keep, f, y);
      assert xs == init + [last];
      if y in Collect(xs, keep, f) && y !in Collect(init, keep, f) {
        assert last in xs;
      }
    }
  }

  /** The requests of refreshing the targets in order: one fetch of its own code
      for each target of the selected feed. */
  function RequestsFor(targets: seq<Sensor>, feedType: Option<string>): (requests: seq<Api.Request>)
    ensures |requests| <= |targets|
    ensures (forall s :: s in targets ==> Selected(s.feed, feedType)) ==> |requests| == |targets|
  {
    Collect(targets, (s: Sensor) => Selected(s.feed, feedType), RequestOf)
  }

  /** One more target adds its own request if it is selected. */
  lemma RequestsForNext(targets: seq<Sensor>, i: nat, feedType: Option<string>)
    requires i < |targets|
    ensures RequestsFor(targets[..i + 1], feedType)
      == RequestsFor(targets[..i], feedType) + (if Selected(targets[i].feed, feedType) then [RequestOf(targets[i])] else [])
  {
    assert targets[..i + 1][..i] == targets[..i];
  }

  /** A request is sent exactly for the selected targets, each naming the
      target's own code on its feed's endpoint. */
  lemma RequestsForMembers(targets: seq<Sensor>, feedType: Option<string>, req: Api.Request)
    ensures req in RequestsFor(targets, feedType) <==>
      exists s :: s in targets && Selected(s.feed, feedType) && req == RequestOf(s)
  {
    CollectMembers(targets, (s: Sensor) => Selected(s.feed, feedType), RequestOf, req);
  }

  /** Every target is in a consistent state, and those among the first `i` that
      the feed filter selects are refreshed. */
  ghost predicate RefreshedUpTo(targets: seq<Sensor>, i: nat, feedType: Option<string>)
    requires i <= |targets|
    reads set s | s in targets
  {
    && (forall s :: s in targets ==> s.Valid())
    && (forall s :: s in targets[..i] && Selected(s.feed, feedType) ==> Refreshed(s))
  }

  /** One `await entity.async_update_weather(feed_type)` inside its `try`, for
      the next target: the targets before it that were selected stay refreshed,
      and so does the next one if it is selected. */
  method UpdateNext(targets: seq<Sensor>, i: nat, feedType: Option<string>) returns (requests: seq<Api.Request>)
    requires i < |targets| && RefreshedUpTo(targets, i, feedType)
    modifies if Selected(targets[i].feed, feedType) then {targets[i]} else {}
    ensures requests == if Selected(targets[i].feed, feedType) then [RequestOf(targets[i])] else []
    ensures RefreshedUpTo(targets, i + 1, feedType)
  {
    assert targets[..i + 1] == targets[..i] + [targets[i]];
    var raised;
    requests, raised := targets[i].UpdateWeather(feedType);
  }

  /** The loop `for entity in entities_to_update` with its `try`/`except`: each
      target refreshes itself with the same `feed_type`, and a raise from one
      does not stop the others. Only selected targets change (the frame), and a sensor
      listed twice ends with the data of its last fetch. */
  method UpdateAll(targets: seq<Sensor>, feedType: Option<string>) returns (requests: seq<Api.Request>)
    requires forall s :: s in targets ==> s.Valid()
    modifies set s | s in targets && Selected(s.feed, feedType)
    ensures requests == RequestsFor(targets, feedType)
    ensures forall s :: s in targets ==> s.Valid()
    ensures forall s :: s in targets && Selected(s.feed, feedType) ==> Refreshed(s)
  {
    requests := [];
    var i := 0;
    while i < |targets|
      invariant 0 <= i <= |targets|
      invariant requests == RequestsFor(targets[..i], feedType)
      invariant RefreshedUpTo(targets, i, feedType)
    {
      var sent := UpdateNext(targets, i, feedType);
      RequestsForNext(targets, i, feedType);
      requests := requests + sent;
      i := i + 1;
    }
    assert targets[..i] == targets;
  }

  /** `async_handle_update_weather`: resolves the targets, then refreshes them.
      Nothing but the targets changes; the shared data itself is only read. */
  method HandleUpdateWeather(domain: DomainData, icaoCode: Option<string>, feedType: Option<string>)
    returns (targets: seq<Sensor>, requests: seq<Api.Request>)
    requires domain.Valid()
    requires domain.entities.Some? ==> AllValid(Registered(domain.entities.value))
    modifies if domain.entities.Some? then set s | s in Registered(domain.entities.value) && Selected(s.feed, feedType) else {}
    ensures targets == Targets(domain.entities, icaoCode)
    ensures requests == RequestsFor(targets, feedType)
    ensures domain.entities.Some? ==> AllValid(Registered(domain.entities.value))
    ensures forall s :: s in targets ==> old(allocated(s))
    ensures forall s :: s in targets && Selected(s.feed, feedType) ==> Refreshed(s)
  {
    if domain.entities.None? {
      return [], [];
    }
    var reg := domain.entities.value;
    if NamesCode(icaoCode) {
      var code := Upper(icaoCode.value);
      if code !in reg.lists {
        return [], [];
      }
      targets := reg.lists[code];
    } else {
      targets := CollectTargets(reg);
    }
    TargetsRegistered(domain.entities, icaoCode);
    assert forall s :: s in targets ==> s in Registered(reg) && s.Valid();
    requests := UpdateAll(targets, feedType);
    assert forall s :: s in Registered(reg) && s !in targets ==> unchanged(s);
  }

  /** The keys unloading removes: each comma-separated part, stripped and
      uppercased. */
  function UnloadKeys(icaoCodes: string): (keys: seq<string>)
    ensures |keys| == |Split(icaoCodes, ',')|
    ensures forall i :: 0 <= i < |keys| ==> keys[i] == Upper(Codes(icaoCodes)[i])
  {
    var parts := Split(icaoCodes, ',');
    seq(|parts|, i requires 0 <= i < |parts| => Upper(Strip(parts[i])))
  }

  /** The loop over the entry's codes that pops each present one from the
      registry: the registry ends without the entry's keys. */
  method PopCodes(reg: Registry.Registry<Sensor>, icaoCodes: string) returns (r: Registry.Registry<Sensor>)
    requires Registry.Valid(reg)
    ensures r == Registry.RemoveAll(reg, UnloadKeys(icaoCodes))
  {
    r := reg;
    var parts := Split(icaoCodes, ',');
    ghost var keys := UnloadKeys(icaoCodes);
    var i := 0;
    while i < |parts|
      invariant 0 <= i <= |parts|
      invariant r == Registry.RemoveAll(reg, keys[..i])
    {
      var code := Upper(Strip(parts[i]));
      assert code == keys[i];
      Registry.RemoveAllNext(reg, keys, i);
      if code in r.lists {
        r := Registry.Remove(r, code);
      }
      i := i + 1;
    }
    assert keys[..i] == keys;
  }

  /** `not hass.data[DOMAIN]` once the entry id is gone. */
  predicate EmptyWithout(entries: map<string, EntryData>, apis: Option<map<string, Api.Client>>,
                         entities: Option<Registry.Registry<Sensor>>)
  {
    entries == map[] && apis.None? && entities.None?
  }

  /** `async_unload_entry`, given whether the platforms unloaded. Without that,
      nothing changes. Otherwise the entry id goes, every key of the entry's
      codes leaves the registry (absent keys are skipped, other codes keep their
      lists), and the shared data and the service go only when nothing at all is
      left. */
  method UnloadEntry(domain: DomainData, entry: ConfigEntry, unloadOk: bool) returns (ok: bool)
    requires domain.Valid()
    requires unloadOk ==> entry.entryId in domain.entries
    modifies domain
    ensures ok == unloadOk && domain.Valid()
    ensures !unloadOk ==> unchanged(domain)
    ensures unloadOk ==>
      && domain.entries == old(domain.entries) - {entry.entryId}
      && domain.apis == old(domain.apis)
      && domain.entities == (if old(domain.entities).Some?
                             then Some(Registry.RemoveAll(old(domain.entities).value, UnloadKeys(entry.data.icaoCodes)))
                             else None)
      && domain.present == !EmptyWithout(domain.entries, domain.apis, domain.entities)
      && domain.serviceRegistered == (old(domain.serviceRegistered) && domain.present)
  {
    ok := unloadOk;
    if !unloadOk {
      return;
    }
    var entities := domain.entities;
    if entities.Some? {
      var remaining := PopCodes(entities.value, entry.data.icaoCodes);
      entities := Some(remaining);
    }
    domain.entries, domain.entities := domain.entries - {entry.entryId}, entities;
    if domain.IsEmpty() {
      domain.present := false;
      domain.serviceRegistered := false;
    }
  }

  /** For an entry whose codes are already stripped and uppercased, as the
      configuration flow stores them, unloading removes every key the platform
      setup registered for it. */
  lemma UnloadRemovesSetupKeys(data: EntryData, reg: Registry.Registry<Sensor>, c: string)
    requires Registry.Valid(reg)
    requires forall p :: p in Codes(data.icaoCodes) ==> Upper(p) == p
    requires c in Codes(data.icaoCodes)
    ensures c !in Registry.RemoveAll(reg, UnloadKeys(data.icaoCodes)).lists
  {
    var codes := Codes(data.icaoCodes);
    var i :| 0 <= i < |codes| && codes[i] == c;
    assert UnloadKeys(data.icaoCodes)[i] == c;
  }
}
