/** Snapshots in their stored form, as lists sorted by key: the loops that capture, validate and
    restore them, proved against the map view of `Snapshots`. */
module Persisted {
  import opened Text
  import opened Core
  import opened Registry
  import opened Service
  import opened Snapshots
  import opened Keyed

  datatype Record = Record(model: Model, pending: seq<Item<Update>>, regs: seq<Item<Registration>>, nonces: seq<Item<Time>>,
                           rates: seq<Item<Window>>)

  function Image(r: Record): Snapshot
  {
    Snapshot(r.model, ToMap(r.pending), ToMap(r.regs), ToMap(r.nonces), ToMap(r.rates))
  }

  /** No list repeats a key. */
  predicate Tidy(r: Record)
  {
    Distinct(r.pending) && Distinct(r.regs) && Distinct(r.nonces) && Distinct(r.rates)
  }

  // ----- capture

  method CaptureRecord(s: State, now: Time) returns (r: Record)
    ensures Tidy(r) && Image(r) == Capture(s, now)
    ensures Sorted(r.pending) && Sorted(r.regs) && Sorted(r.nonces) && Sorted(r.rates)
  {
    var pending := WriteTable(s.pending, (u: Update) => true);
    var nonces := WriteTable(s.nonces, (seen: Time) => !(seen < now - REPLAY_WINDOW));
    var rates := WriteTable(s.rates, (w: Window) => !(w.startedAt == ZERO_TIME || now - w.startedAt >= MINUTE));
    var regs := WriteTable(s.regs, (e: Registration) => now < e.expiresAt);
    r := Record(s.model, pending, regs, nonces, rates);
    KeptIsLive(s, now);
  }

  lemma KeptIsLive(s: State, now: Time)
    ensures Kept(s.pending, (u: Update) => true) == s.pending
    ensures Kept(s.nonces, (seen: Time) => !(seen < now - REPLAY_WINDOW)) == LiveNonces(s.nonces, now)
    ensures Kept(s.rates, (w: Window) => !(w.startedAt == ZERO_TIME || now - w.startedAt >= MINUTE)) == LiveRates(s.rates, now)
    ensures Kept(s.regs, (e: Registration) => now < e.expiresAt) == LiveLeases(s.regs, now)
  {
  }

  // ----- validation

  predicate PendingItemOk(env: Env, node: string, u: Update)
  {
    !env.blank(node) && !env.blank(u.updateID) && UpdateOk(u)
  }

  /** All vectors have one length, which is `expected` unless that is zero. */
  predicate OneLength(items: seq<Item<Update>>, expected: nat)
  {
    && (forall i, j :: 0 <= i < |items| && 0 <= j < |items| ==> |items[i].value.values| == |items[j].value.values|)
    && (expected > 0 ==> forall i :: 0 <= i < |items| ==> |items[i].value.values| == expected)
  }

  predicate PendingListOk(env: Env, items: seq<Item<Update>>, expected: nat)
  {
    && Distinct(items) && OneLength(items, expected)
    && forall i :: 0 <= i < |items| ==> PendingItemOk(env, items[i].key, items[i].value)
  }

  /** The loop over pending updates: a set of seen nodes and a running vector length. */
  method ValidatePending(env: Env, items: seq<Item<Update>>, expected: nat) returns (ok: bool)
    ensures ok <==> PendingListOk(env, items, expected)
  {
    var seen: set<string> := {};
    var length := expected;
    for n := 0 to |items|
      invariant forall k :: k in seen <==> exists i :: 0 <= i < n && items[i].key == k
      invariant forall i, j :: 0 <= i < j < n ==> items[i].key != items[j].key
      invariant forall i :: 0 <= i < n ==> PendingItemOk(env, items[i].key, items[i].value)
      invariant forall i :: 0 <= i < n ==> |items[i].value.values| == length
      invariant length == expected || (expected == 0 && n > 0)
    {
      var item := items[n];
      if item.key in seen {
        return false;
      }
      if !PendingItemOk(env, item.key, item.value) {
        return false;
      }
      if length == 0 {
        length := |item.value.values|;
      }
      if |item.value.values| != length {
        assert n > 0 ==> |items[0].value.values| == length;
        return false;
      }
      seen := seen + {item.key};
    }
    ok := true;
  }

  /** The pending vector length the model prescribes; zero when it has no payload. */
  function ModelLength(env: Env, m: Model): nat
  {
    if m.payload != [] && env.decode(m.payload).Some? then |env.decode(m.payload).value| else 0
  }

  /** Both ends of an item. */
  lemma ItemInMap(items: seq<Item<Update>>, i: nat)
    requires Distinct(items) && i < |items|
    ensures items[i].key in ToMap(items) && ToMap(items)[items[i].key] == items[i].value
  {
    ToMapAt(items, i);
  }

  lemma EntryInList(items: seq<Item<Update>>, k: string) returns (i: nat)
    requires Distinct(items) && k in ToMap(items)
    ensures i < |items| && items[i].key == k && items[i].value == ToMap(items)[k]
  {
    ToMapKeys(items, k);
    i :| 0 <= i < |items| && items[i].key == k;
    ToMapAt(items, i);
  }

  lemma OneLengthAgrees(env: Env, m: Model, items: seq<Item<Update>>)
    requires CodecSound(env) && Distinct(items)
    ensures OneLength(items, ModelLength(env, m)) <==> LengthsAgree(env, m, ToMap(items))
  {
    var pending := ToMap(items);
    if OneLength(items, ModelLength(env, m)) {
      forall a, b | a in pending && b in pending ensures |pending[a].values| == |pending[b].values| {
        var i := EntryInList(items, a);
        var j := EntryInList(items, b);
      }
      forall a | a in pending && m.payload != [] && env.decode(m.payload).Some?
        ensures |pending[a].values| == |env.decode(m.payload).value|
      {
        var i := EntryInList(items, a);
      }
    }
    if LengthsAgree(env, m, pending) {
      forall i, j | 0 <= i < |items| && 0 <= j < |items| ensures |items[i].value.values| == |items[j].value.values| {
        ItemInMap(items, i);
        ItemInMap(items, j);
      }
      forall i | 0 <= i < |items| && ModelLength(env, m) > 0 ensures |items[i].value.values| == ModelLength(env, m) {
        ItemInMap(items, i);
      }
    }
  }

  lemma PendingListIsValid(env: Env, m: Model, items: seq<Item<Update>>)
    requires CodecSound(env)
    ensures PendingListOk(env, items, ModelLength(env, m)) <==>
            Distinct(items) && PendingOk(env, ToMap(items)) && LengthsAgree(env, m, ToMap(items))
  {
    if Distinct(items) {
      OneLengthAgrees(env, m, items);
      ItemsAreEntries(items, (k, u) => PendingItemOk(env, k, u));
    }
  }

  predicate BindingOk(env: Env, n: string, e: Registration)
  {
    && !env.blank(n) && !env.blank(e.role) && !env.blank(e.fingerprint) && !env.blank(e.registrationID)
    && e.expiresAt != ZERO_TIME
  }

  predicate NonceOk(env: Env, key: string, seen: Time)
  {
    !env.blank(key) && seen != ZERO_TIME
  }

  predicate WindowOk(env: Env, n: string, w: Window)
  {
    !env.blank(n) && w.startedAt != ZERO_TIME && 0 < w.count <= env.maxPerMinute
  }

  /** The loops over the other three tables. */
  method ValidateTables(env: Env, r: Record) returns (ok: bool)
    ensures ok <==> && Distinct(r.regs) && Distinct(r.nonces) && Distinct(r.rates)
                    && BindingsOk(env, ToMap(r.regs)) && NoncesOk(env, ToMap(r.nonces)) && RatesOk(env, ToMap(r.rates))
  {
    var bindings, _ := ReadTable(r.regs, (n, e) => BindingOk(env, n, e));
    var nonces, _ := ReadTable(r.nonces, (k, seen) => NonceOk(env, k, seen));
    var rates, _ := ReadTable(r.rates, (n, w) => WindowOk(env, n, w));
    ok := bindings && nonces && rates;
    if Distinct(r.regs) && Distinct(r.nonces) && Distinct(r.rates) {
      ItemsAreEntries(r.regs, (n, e) => BindingOk(env, n, e));
      ItemsAreEntries(r.nonces, (k, seen) => NonceOk(env, k, seen));
      ItemsAreEntries(r.rates, (n, w) => WindowOk(env, n, w));
    }
  }

  /** Snapshot validation accepts exactly the tidy lists whose map view is valid. */
  method ValidateRecord(env: Env, r: Record) returns (ok: bool)
    requires CodecSound(env)
    ensures ok <==> Tidy(r) && Valid(env, Image(r))
  {
    ok := false;
    PendingListIsValid(env, r.model, r.pending);
    if Distinct(r.pending) {
      ToMapSize(r.pending);
    }
    if ModelOk(env, r.model) && |r.pending| < env.minUpdates {
      var pendingOk := ValidatePending(env, r.pending, ModelLength(env, r.model));
      var tablesOk := ValidateTables(env, r);
      ok := pendingOk && tablesOk;
    }
  }

  // ----- restoring

  predicate LeaseItemOk(env: Env, n: string, e: Registration)
  {
    LeaseOk(env, n, Normalize(e))
  }

  /** The registry reads its entries back: all must be sound, lapsed ones are left out. */
  method RestoreLeases(env: Env, items: seq<Item<Registration>>, now: Time) returns (ok: bool, regs: Leases)
    requires Distinct(items)
    ensures ok <==> LeasesOk(env, Normalized(ToMap(items)))
    ensures ok ==> regs == LiveLeases(Normalized(ToMap(items)), now)
  {
    var all;
    ok, all := ReadTable(items, (n, e) => LeaseItemOk(env, n, e));
    ItemsAreEntries(items, (n, e) => LeaseItemOk(env, n, e));
    NormalizedOk(env, ToMap(items));
    regs := if ok then LiveLeases(Normalized(all), now) else map[];
  }

  lemma NormalizedOk(env: Env, m: Leases)
    ensures LeasesOk(env, Normalized(m)) <==> forall n :: n in m ==> LeaseItemOk(env, n, m[n])
  {
    if LeasesOk(env, Normalized(m)) {
      forall n | n in m ensures LeaseItemOk(env, n, m[n]) {
        assert n in Normalized(m);
      }
    }
  }

  /** Validate, then rebuild the tables, leaving out what is no longer live. */
  method RestoreRecord(env: Env, r: Record, now: Time) returns (s: Option<State>)
    requires CodecSound(env)
    ensures s == if Tidy(r) && Restorable(env, Image(r)) then Some(Restore(Image(r), now)) else None
  {
    var valid := ValidateRecord(env, r);
    if !valid {
      return None;
    }
    var ok, regs := RestoreLeases(env, r.regs, now);
    if !ok {
      return None;
    }
    s := Some(State(regs, r.model, ToMap(r.pending), LiveRates(ToMap(r.rates), now), LiveNonces(ToMap(r.nonces), now)));
  }
}
