/** The retry ledger of Code.js: per message, `RETRY_<id>` holds `{count, timestamp}`;
    the gateway reads, increments and clears it, and sweeps out entries older than
    seven days. */
module RetryLedger {
  import opened Wrappers
  import opened Text
  import opened Store

  const RetryPrefix: string := "RETRY_"
  /** `RETRY.MAX_ATTEMPTS`. */
  const MaxAttempts: int := 3
  /** Seven days in milliseconds. */
  const RetryMaxAgeMs: int := 7 * 24 * 60 * 60 * 1000

  function RetryKey(id: string): (k: string)
    ensures StartsWith(k, RetryPrefix)
  {
    RetryPrefix + id
  }

  lemma RetryKeyInjective(a: string, b: string)
    requires RetryKey(a) == RetryKey(b)
    ensures a == b
  {
    assert a == RetryKey(a)[6..] && b == RetryKey(b)[6..];
  }

  /** `getRetryCount(id)`: the stored count, with a missing, empty or malformed entry,
      and a count of zero or none, all read as 0. */
  function GetRetryCount(entries: map<string, StoredValue>, id: string): (c: int)
    ensures RetryKey(id) !in entries ==> c == 0
    ensures RetryKey(id) in entries && !entries[RetryKey(id)].Record? ==> c == 0
    ensures (RetryKey(id) in entries && entries[RetryKey(id)].Record? && entries[RetryKey(id)].count.Some?)
      ==> c == entries[RetryKey(id)].count.value
  {
    var key := RetryKey(id);
    if key !in entries then 0
    else match entries[key]
      case Record(count, _, _) => if count.Some? then count.value else 0
      case _ => 0
  }

  /** The store after `incrementRetryCount(id)` at time `now`. */
  function AfterIncrement(entries: map<string, StoredValue>, id: string, now: int): map<string, StoredValue> {
    entries[RetryKey(id) := Record(Some(GetRetryCount(entries, id) + 1), Some(now), None)]
  }

  /** `incrementRetryCount(id)`: stores the count plus one with the current time and
      returns the new count. */
  method IncrementRetryCount(props: Properties, id: string, now: int) returns (newCount: int)
    modifies props
    ensures newCount == GetRetryCount(old(props.entries), id) + 1
    ensures props.entries == AfterIncrement(old(props.entries), id, now)
  {
    var current := GetRetryCount(props.entries, id);
    newCount := current + 1;
    props.SetProperty(RetryKey(id), Record(Some(newCount), Some(now), None));
  }

  /** `clearRetryCount(id)`. */
  method ClearRetryCount(props: Properties, id: string)
    modifies props
    ensures props.entries == old(props.entries) - {RetryKey(id)}
  {
    props.DeleteProperty(RetryKey(id));
  }

  /** Incrementing raises this message's count by one and leaves every other
      message's count alone. */
  lemma IncrementCounts(entries: map<string, StoredValue>, id: string, other: string, now: int)
    ensures GetRetryCount(AfterIncrement(entries, id, now), id) == GetRetryCount(entries, id) + 1
    ensures other != id ==> GetRetryCount(AfterIncrement(entries, id, now), other) == GetRetryCount(entries, other)
  {
    if other != id && RetryKey(other) == RetryKey(id) {
      RetryKeyInjective(other, id);
    }
  }

  /** Three increments of a message with no entry return 1, 2 and 3. */
  lemma ThreeIncrements(entries: map<string, StoredValue>, id: string, t1: int, t2: int, t3: int)
    requires RetryKey(id) !in entries
    ensures var e1 := AfterIncrement(entries, id, t1);
      var e2 := AfterIncrement(e1, id, t2);
      GetRetryCount(entries, id) + 1 == 1
      && GetRetryCount(e1, id) + 1 == 2
      && GetRetryCount(e2, id) + 1 == 3
  {
    IncrementCounts(entries, id, id, t1);
    IncrementCounts(AfterIncrement(entries, id, t1), id, id, t2);
  }

  /** Clearing resets this message's count and leaves the rest of the store as it
      was. */
  lemma ClearResets(entries: map<string, StoredValue>, id: string)
    ensures GetRetryCount(entries - {RetryKey(id)}, id) == 0
    ensures forall k :: k in entries && k != RetryKey(id) ==> k in entries - {RetryKey(id)} && (entries - {RetryKey(id)})[k] == entries[k]
  {
  }

  // ---------------------------------------------------------------------------
  // cleanupOldRetries

  /** Whether the sweep deletes a `RETRY_` value: one that does not parse (the empty
      string included), and a record whose timestamp is set, non-zero and more than
      seven days before `now`. */
  predicate Stale(v: StoredValue, now: int) {
    match v
    case Record(_, timestamp, _) =>
      timestamp.Some? && timestamp.value != 0 && timestamp.value < now - RetryMaxAgeMs
    case _ => true
  }

  predicate Swept(key: string, v: StoredValue, now: int) {
    StartsWith(key, RetryPrefix) && Stale(v, now)
  }

  /** The store after `cleanupOldRetries()` at time `now`. */
  function Sweep(entries: map<string, StoredValue>, now: int): map<string, StoredValue> {
    map k | k in entries && !Swept(k, entries[k], now) :: entries[k]
  }

  /** `cleanupOldRetries()`: visits every key of a snapshot of the store and deletes
      the stale `RETRY_` entries. */
  method CleanupOldRetries(props: Properties, now: int)
    modifies props
    ensures props.entries == Sweep(old(props.entries), now)
  {
    var snapshot := props.entries;
    var pending := snapshot.Keys;
    while pending != {}
      invariant pending <= snapshot.Keys
      invariant props.entries ==
        map k | k in snapshot && !(k !in pending && Swept(k, snapshot[k], now)) :: snapshot[k]
      decreases |pending|
    {
      var key :| key in pending;
      if StartsWith(key, RetryPrefix) && Stale(snapshot[key], now) {
        props.DeleteProperty(key);
      }
      pending := pending - {key};
    }
  }

  /** The sweep deletes only stale `RETRY_` entries and changes no value. */
  lemma SweepDeletesOnlyStale(entries: map<string, StoredValue>, now: int, k: string)
    requires k in entries
    ensures k in Sweep(entries, now) <==> !(StartsWith(k, RetryPrefix) && Stale(entries[k], now))
    ensures k in Sweep(entries, now) ==> Sweep(entries, now)[k] == entries[k]
    ensures !StartsWith(k, RetryPrefix) ==> k in Sweep(entries, now)
  {
  }

  /** After a sweep a message's count is either what it was, or 0. */
  lemma SweepCount(entries: map<string, StoredValue>, now: int, id: string)
    ensures GetRetryCount(Sweep(entries, now), id) in {GetRetryCount(entries, id), 0}
  {
  }

  /** A count written by an increment less than seven days ago survives the sweep. */
  lemma SweepKeepsRecentIncrement(entries: map<string, StoredValue>, id: string, t: int, now: int)
    requires t != 0 && now - RetryMaxAgeMs <= t
    ensures GetRetryCount(Sweep(AfterIncrement(entries, id, t), now), id) == GetRetryCount(entries, id) + 1
  {
    var e := AfterIncrement(entries, id, t);
    assert !Stale(e[RetryKey(id)], now);
    assert RetryKey(id) in Sweep(e, now);
  }
}
