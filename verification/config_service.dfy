/** The TTL-gated reference-data cache (`ConfigServiceImpl`): master data, resource bundles and
    ordinals are served from local tables, seeded from a bundled file on first use and refreshed
    from the server once their stored expiry time has passed. */
module ConfigService {
  import opened Common

  const MILLISECONDS_IN_AN_HOUR := 3600000

  /** The single row key under which ordinals are stored. */
  const ORDINALS_KEY := "ordinals_key"

  // Stand-ins for ConfigConstants.PreferenceKey.*_EXPIRATION_KEY; only their distinctness matters.
  const MASTER_DATA_EXPIRATION_KEY := "master_data_api_expiration_key"
  const RESOURCE_BUNDLE_EXPIRATION_KEY := "resource_bundle_api_expiration_key"
  const ORDINALS_EXPIRATION_KEY := "ordinal_api_expiration_key"

  /** The three cached datasets. */
  datatype Dataset = MasterData | ResourceBundle | Ordinals

  /** The key-value entry that holds a dataset's expiry time. */
  function ExpirationKey(d: Dataset): string
  {
    match d
    case MasterData => MASTER_DATA_EXPIRATION_KEY
    case ResourceBundle => RESOURCE_BUNDLE_EXPIRATION_KEY
    case Ordinals => ORDINALS_EXPIRATION_KEY
  }

  /** `getLongFromKeyValueStore`: an entry never written reads as 0. */
  function LongAt(kv: map<string, int>, key: string): int
  {
    if key in kv then kv[key] else 0
  }

  /** `hasExpired`: strictly after the stored expiry time, so the expiry instant itself still
      serves the stored data and the next millisecond does not. */
  predicate HasExpired(expiration: int, now: int): (r: bool)
    ensures now == expiration ==> !r
    ensures now == expiration + 1 ==> r
  {
    now > expiration
  }

  /** Once expired, data stays expired at every later time until a save moves the expiry. */
  lemma ExpiredStaysExpired(expiration: int, now: int, later: int)
    requires HasExpired(expiration, now) && now <= later
    ensures HasExpired(expiration, later)
  {
  }

  /** What a read does before it looks the row up. */
  datatype ReadAction = SeedThenRefresh | Refresh | ServeOnly

  /** The gate at the top of `getMasterData`, `getResourceBundle` and `getOrdinals`: a zero
      expiry means "never stored" and seeds from the bundled file before refreshing; otherwise a
      refresh starts only once the expiry time has passed. */
  function Gate(expiration: int, now: int): (a: ReadAction)
    ensures a == SeedThenRefresh <==> expiration == 0
    ensures a == Refresh <==> expiration != 0 && now > expiration
    ensures a == ServeOnly <==> expiration != 0 && now <= expiration
  {
    if expiration == 0 then SeedThenRefresh
    else if HasExpired(expiration, now) then Refresh
    else ServeOnly
  }

  /** `saveDataExpirationTime`: with a ttl (in whole hours) the expiry becomes
      `ttl * MILLISECONDS_IN_AN_HOUR + now`; without one the store is left as it was. */
  function WithExpiration(kv: map<string, int>, key: string, ttl: Option<int>, now: int): (r: map<string, int>)
    ensures ttl.None? ==> r == kv
    ensures ttl.Some? ==> r.Keys == kv.Keys + {key} && LongAt(r, key) == ttl.value * MILLISECONDS_IN_AN_HOUR + now
    ensures forall k :: k != key ==> LongAt(r, k) == LongAt(kv, k)
  {
    if ttl.Some? then kv[key := ttl.value * MILLISECONDS_IN_AN_HOUR + now] else kv
  }

  /** The `(Double)` cast applied to a ttl entry succeeds. */
  predicate TtlReadable(v: Value)
  {
    v.Null? || v.Num?
  }

  function Ttl(v: Value): Option<int>
    requires TtlReadable(v)
  {
    if v.Num? then Some(v.n) else None
  }

  /** The casts a `save*` method performs on the decoded response succeed; a payload outside this
      makes the source throw. */
  predicate Saveable(d: Dataset, payload: map<string, Value>)
  {
    var result := Get(payload, "result");
    match d
    case MasterData =>
      result.Null? || (result.Obj? && TtlReadable(Get(result.fields, "ttl")))
    case ResourceBundle =>
      && result.Obj?
      && var bundles := Get(result.fields, "resourcebundles");
         (bundles.Null? || bundles.Obj?) && (bundles.Obj? ==> TtlReadable(Get(result.fields, "ttl")))
    case Ordinals =>
      result.Obj? && ("ordinals" in result.fields ==> TtlReadable(Get(payload, "ttl")))
  }

  /** What a save persists: the ttl to turn into an expiry time and the rows to upsert. */
  datatype Extracted = Extracted(ttl: Option<int>, entries: map<string, Value>)

  /** The payload-to-rows extraction of `saveMasterData`, `saveResourceBundle` and `saveOrdinals`;
      `None` when the payload carries nothing to persist. */
  function Extract(d: Dataset, payload: map<string, Value>): (r: Option<Extracted>)
    requires Saveable(d, payload)
    // master data: every entry of `result` except `ttl` becomes a row; ttl is read from `result`
    ensures d == MasterData ==> (r.Some? <==> Get(payload, "result").Obj?)
    ensures d == MasterData && r.Some? ==>
      && (forall k :: k in r.value.entries <==> k in payload["result"].fields && k != "ttl")
      && (forall k :: k in r.value.entries ==> r.value.entries[k] == payload["result"].fields[k])
      && r.value.ttl == Ttl(Get(payload["result"].fields, "ttl"))
    // resource bundles: only under `result.resourcebundles`; ttl is read from `result`
    ensures d == ResourceBundle ==> (r.Some? <==> Get(payload["result"].fields, "resourcebundles").Obj?)
    ensures d == ResourceBundle && r.Some? ==>
      && r.value.entries == payload["result"].fields["resourcebundles"].fields
      && r.value.ttl == Ttl(Get(payload["result"].fields, "ttl"))
    // ordinals: one row under ORDINALS_KEY; ttl is read from the top level, not from `result`
    ensures d == Ordinals ==> (r.Some? <==> "ordinals" in payload["result"].fields)
    ensures d == Ordinals && r.Some? ==>
      && r.value.entries == map[ORDINALS_KEY := payload["result"].fields["ordinals"]]
      && r.value.ttl == Ttl(Get(payload, "ttl"))
  {
    var result := Get(payload, "result");
    match d
    case MasterData =>
      if result.Obj? then
        Some(Extracted(Ttl(Get(result.fields, "ttl")), result.fields - {"ttl"}))
      else None
    case ResourceBundle =>
      var bundles := Get(result.fields, "resourcebundles");
      if bundles.Obj? then Some(Extracted(Ttl(Get(result.fields, "ttl")), bundles.fields)) else None
    case Ordinals =>
      if "ordinals" in result.fields then
        Some(Extracted(Ttl(Get(payload, "ttl")), map[ORDINALS_KEY := result.fields["ordinals"]]))
      else None
  }

  /** The table after a save of `payload`: a per-key upsert, so rows for keys the payload does not
      carry are left as they were. */
  function SavedTable(d: Dataset, table: map<string, Value>, payload: map<string, Value>): (r: map<string, Value>)
    requires Saveable(d, payload)
    ensures r.Keys == table.Keys + (if Extract(d, payload).Some? then Extract(d, payload).value.entries.Keys else {})
    ensures forall k :: (k in table && (Extract(d, payload).None? || k !in Extract(d, payload).value.entries)) ==>
      r[k] == table[k]
    ensures Extract(d, payload).Some? ==>
      forall k :: k in Extract(d, payload).value.entries ==> k in r && r[k] == Extract(d, payload).value.entries[k]
  {
    match Extract(d, payload)
    case None => table
    case Some(e) => table + e.entries
  }

  /** The key-value store after a save of `payload` at time `now`. */
  function SavedExpirations(d: Dataset, kv: map<string, int>, payload: map<string, Value>, now: int): map<string, int>
    requires Saveable(d, payload)
  {
    match Extract(d, payload)
    case None => kv
    case Some(e) => WithExpiration(kv, ExpirationKey(d), e.ttl, now)
  }

  /** The read at the end of `getMasterData`: the stored JSON when a row exists, else NO_DATA_FOUND. */
  function ReadMasterData(table: map<string, Value>, kind: string): (r: Response<Value>)
    ensures r.Success? <==> kind in table
    ensures r.Success? ==> r.result == table[kind]
    ensures r.Failure? ==> r.code == NoDataFound
  {
    if kind in table then Success(table[kind]) else Failure(NoDataFound, "", "SERVICE_ERROR")
  }

  /** The read at the end of `getResourceBundle`: a one-entry map from the language to its bundle. */
  function ReadResourceBundle(table: map<string, Value>, language: string): (r: Response<Value>)
    ensures r.Success? <==> language in table
    ensures r.Success? ==> r.result == Obj(map[language := table[language]])
    ensures r.Failure? ==> r.code == NoDataFound
  {
    if language in table then Success(Obj(map[language := table[language]]))
    else Failure(NoDataFound, "", "SERVICE_ERROR")
  }

  /** The read at the end of `getOrdinals`: the stored ordinals object, if it decodes to one. */
  function ReadOrdinals(table: map<string, Value>): (r: Response<Value>)
    ensures r.Success? <==> ORDINALS_KEY in table && table[ORDINALS_KEY].Obj?
    ensures r.Success? ==> r.result == table[ORDINALS_KEY]
    ensures r.Failure? ==> r.code == NoDataFound
  {
    if ORDINALS_KEY in table && table[ORDINALS_KEY].Obj? then Success(table[ORDINALS_KEY])
    else Failure(NoDataFound, "", "SERVICE_ERROR")
  }

  /** The read for dataset `d`; `key` is the master-data type or the language (unused for ordinals). */
  function Read(d: Dataset, table: map<string, Value>, key: string): Response<Value>
  {
    match d
    case MasterData => ReadMasterData(table, key)
    case ResourceBundle => ReadResourceBundle(table, key)
    case Ordinals => ReadOrdinals(table)
  }

  /** A save changes nothing a read of another key sees. */
  lemma {:induction false} SaveKeepsOtherReads(d: Dataset, table: map<string, Value>, payload: map<string, Value>, key: string)
    requires Saveable(d, payload)
    requires d != Ordinals
    requires Extract(d, payload).None? || key !in Extract(d, payload).value.entries
    ensures Read(d, SavedTable(d, table, payload), key) == Read(d, table, key)
  {
    var saved := SavedTable(d, table, payload);
    if key in table {
      assert saved[key] == table[key];
    } else if Extract(d, payload).Some? {
      assert key !in saved;
    }
  }

  /** After a save that carries a ttl, reads up to and including the new expiry time only serve,
      and the first read after it refreshes again. */
  lemma {:induction false} FreshUntilExpiry(d: Dataset, kv: map<string, int>, payload: map<string, Value>, now: int, later: int)
    requires Saveable(d, payload)
    requires Extract(d, payload).Some? && Extract(d, payload).value.ttl.Some?
    requires Extract(d, payload).value.ttl.value * MILLISECONDS_IN_AN_HOUR + now != 0
    ensures var e := LongAt(SavedExpirations(d, kv, payload, now), ExpirationKey(d));
      && e == Extract(d, payload).value.ttl.value * MILLISECONDS_IN_AN_HOUR + now
      && (Gate(e, later) == ServeOnly <==> later <= e)
      && (Gate(e, later) == Refresh <==> later > e)
  {
  }

  /** Writing one more row after a merge is merging the extended map. */
  lemma UpsertStep(base: map<string, Value>, done: map<string, Value>, key: string, v: Value)
    ensures (base + done)[key := v] == base + done[key := v]
  {
  }

  class ConfigStore {
    /** The key-value store of expiry times. */
    var keyValues: map<string, int>
    /** The master-data, resource-bundle and ordinals tables, keyed by type, language and ORDINALS_KEY. */
    var masterData: map<string, Value>
    var resourceBundles: map<string, Value>
    var ordinals: map<string, Value>

    constructor(keyValues: map<string, int>, masterData: map<string, Value>,
                resourceBundles: map<string, Value>, ordinals: map<string, Value>)
      ensures this.keyValues == keyValues && this.masterData == masterData
      ensures this.resourceBundles == resourceBundles && this.ordinals == ordinals
    {
      this.keyValues := keyValues;
      this.masterData := masterData;
      this.resourceBundles := resourceBundles;
      this.ordinals := ordinals;
    }

    function Table(d: Dataset): map<string, Value>
      reads this
    {
      match d
      case MasterData => masterData
      case ResourceBundle => resourceBundles
      case Ordinals => ordinals
    }

    function StoredExpiration(d: Dataset): int
      reads this
    {
      LongAt(keyValues, ExpirationKey(d))
    }

    /** Every table other than `d`'s is as it was. */
    twostate predicate OthersUnchanged(d: Dataset)
      reads this
    {
      forall other :: other != d ==> Table(other) == old(Table(other))
    }

    /** `saveDataExpirationTime`. */
    method SaveDataExpirationTime(ttl: Option<int>, key: string, now: int)
      modifies this`keyValues
      ensures keyValues == WithExpiration(old(keyValues), key, ttl, now)
    {
      if ttl.Some? {
        var ttlInMilliSeconds := ttl.value * MILLISECONDS_IN_AN_HOUR;
        var expirationTime := ttlInMilliSeconds + now;
        keyValues := keyValues[key := expirationTime];
      }
    }

    /** The row write of `eachX.update()` / `eachX.save()`. */
    method PutRow(d: Dataset, key: string, v: Value)
      modifies this`masterData, this`resourceBundles, this`ordinals
      ensures Table(d) == old(Table(d))[key := v]
      ensures OthersUnchanged(d)
    {
      match d
      case MasterData => masterData := masterData[key := v];
      case ResourceBundle => resourceBundles := resourceBundles[key := v];
      case Ordinals => ordinals := ordinals[key := v];
    }

    /** The loop over the payload's keys: update the row if one exists, insert it otherwise. */
    method Upsert(d: Dataset, entries: map<string, Value>)
      modifies this`masterData, this`resourceBundles, this`ordinals
      ensures Table(d) == old(Table(d)) + entries
      ensures OthersUnchanged(d)
    {
      var pending := entries.Keys;
      ghost var done: map<string, Value> := map[];
      while pending != {}
        invariant pending <= entries.Keys
        invariant done == map k | k in entries && k !in pending :: entries[k]
        invariant Table(d) == old(Table(d)) + done
        invariant OthersUnchanged(d)
        decreases pending
      {
        var key :| key in pending;
        UpsertStep(old(Table(d)), done, key, entries[key]);
        if key in Table(d) {
          PutRow(d, key, entries[key]);    // update of the existing row
        } else {
          PutRow(d, key, entries[key]);    // insert of a new row
        }
        pending := pending - {key};
        done := done[key := entries[key]];
      }
      assert done == entries;
    }

    /** `saveMasterData` / `saveResourceBundle` / `saveOrdinals`. */
    method Save(d: Dataset, payload: map<string, Value>, now: int)
      requires Saveable(d, payload)
      modifies this
      ensures keyValues == SavedExpirations(d, old(keyValues), payload, now)
      ensures Table(d) == SavedTable(d, old(Table(d)), payload)
      ensures OthersUnchanged(d)
    {
      match Extract(d, payload)
      case None =>
      case Some(e) =>
        SaveDataExpirationTime(e.ttl, ExpirationKey(d), now);
        Upsert(d, e.entries);
    }

    /** `refreshMasterData` / `refreshResourceBundle` / `refreshOrdinals`, run to completion:
        `fetched` is the decoded body of a successful API call, `None` when its status is false. */
    method Refresh(d: Dataset, fetched: Option<map<string, Value>>, now: int)
      requires fetched.Some? ==> Saveable(d, fetched.value)
      modifies this
      ensures fetched.None? ==> keyValues == old(keyValues) && Table(d) == old(Table(d))
      ensures fetched.Some? ==> keyValues == SavedExpirations(d, old(keyValues), fetched.value, now)
      ensures fetched.Some? ==> Table(d) == SavedTable(d, old(Table(d)), fetched.value)
      ensures OthersUnchanged(d)
    {
      if fetched.Some? {
        Save(d, fetched.value, now);
      }
    }

    /** The synchronous half of `initializeMasterData` / `initializeResourceBundle` /
        `initializeOrdinalsData`: save the bundled file when it is non-empty (`bundled` is its decoded
        content, `None` for a missing or empty file). The refresh it then starts is run by `Get`. */
    method Seed(d: Dataset, bundled: Option<map<string, Value>>, now: int)
      requires bundled.Some? ==> Saveable(d, bundled.value)
      modifies this
      ensures bundled.None? ==> keyValues == old(keyValues) && Table(d) == old(Table(d))
      ensures bundled.Some? ==> keyValues == SavedExpirations(d, old(keyValues), bundled.value, now)
      ensures bundled.Some? ==> Table(d) == SavedTable(d, old(Table(d)), bundled.value)
      ensures OthersUnchanged(d)
    {
      if bundled.Some? {
        Save(d, bundled.value, now);
      }
    }

    /** `getMasterData(type)`, `getResourceBundle(language)` and `getOrdinals()` for dataset `d`.
        The refresh that the gate starts on a background thread is modelled as completing after the
        read, so the read serves what was persisted before it (the bundled seed, on first use). */
    method Get(d: Dataset, key: string, now: int, bundled: Option<map<string, Value>>,
               fetched: Option<map<string, Value>>) returns (resp: Response<Value>, refreshed: bool)
      requires bundled.Some? ==> Saveable(d, bundled.value)
      requires fetched.Some? ==> Saveable(d, fetched.value)
      modifies this
      ensures refreshed <==> Gate(old(StoredExpiration(d)), now) != ServeOnly
      ensures old(StoredExpiration(d)) != 0 ==> resp == Read(d, old(Table(d)), key)
      ensures old(StoredExpiration(d)) == 0 && bundled.None? ==> resp == Read(d, old(Table(d)), key)
      ensures old(StoredExpiration(d)) == 0 && bundled.Some? ==>
        resp == Read(d, SavedTable(d, old(Table(d)), bundled.value), key)
      ensures !refreshed ==> keyValues == old(keyValues) && Table(d) == old(Table(d))
      ensures refreshed && old(StoredExpiration(d)) != 0 && fetched.None? ==>
        keyValues == old(keyValues) && Table(d) == old(Table(d))
      ensures refreshed && old(StoredExpiration(d)) != 0 && fetched.Some? ==>
        && keyValues == SavedExpirations(d, old(keyValues), fetched.value, now)
        && Table(d) == SavedTable(d, old(Table(d)), fetched.value)
      ensures OthersUnchanged(d)
    {
      var stored := StoredExpiration(d);
      var action := Gate(stored, now);
      if action == SeedThenRefresh {
        Seed(d, bundled, now);
      }
      resp := Read(d, Table(d), key);
      refreshed := action != ServeOnly;
      if refreshed {
        Refresh(d, fetched, now);
      }
    }
  }
}
