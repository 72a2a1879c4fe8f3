/**
 * The in-memory memo of session loads: `get_cached_session` wrapped in an
 * LRU cache of at most 50 entries keyed by `(year, race_round)`. A miss calls
 * the provider (the remote session load) once; a successful load is stored,
 * evicting the least recently used entry when the cache is full; a failed
 * load is not stored. A hit returns the stored session and makes its key
 * the most recently used.
 */
module SessionCache {
  import opened Wrappers
  import opened SessionData

  /** The `maxsize` of the memo. */
  const Capacity: nat := 50

  /**
   * The abstract state of the memo: stored sessions, their keys ordered from
   * least to most recently used, and how many provider loads were made.
   */
  datatype CacheState = CacheState(entries: map<SessionKey, Session>, order: seq<SessionKey>, providerCalls: nat)

  predicate Distinct(s: seq<SessionKey>) {
    forall i, j :: 0 <= i < j < |s| ==> s[i] != s[j]
  }

  /** The memo's invariant: the recency order lists each stored key once, and at most Capacity keys are stored. */
  ghost predicate WellFormed(st: CacheState) {
    && Distinct(st.order)
    && (forall k :: k in st.entries <==> k in st.order)
    && |st.entries| == |st.order|
    && |st.order| <= Capacity
  }

  /** `s` with `key` removed, every other key kept in its order. */
  function Without(s: seq<SessionKey>, key: SessionKey): (r: seq<SessionKey>)
    ensures forall x :: x in r <==> x in s && x != key
    ensures Distinct(s) ==> Distinct(r)
    ensures Distinct(s) && key in s ==> |r| == |s| - 1
    ensures key !in s ==> r == s
  {
    if |s| == 0 then []
    else
      var rest := Without(s[1..], key);
      assert Distinct(s) ==> Distinct(s[1..]) && s[0] !in rest;
      if s[0] == key then rest else [s[0]] + rest
  }

  /** Mark `key` as the most recently used. */
  function Touch(order: seq<SessionKey>, key: SessionKey): (r: seq<SessionKey>)
    ensures |r| > 0 && r[|r| - 1] == key
    ensures forall x :: x in r <==> x in order || x == key
  {
    Without(order, key) + [key]
  }

  /** Store a freshly loaded session, first evicting the least recently used key when the memo is full. */
  function Admit(st: CacheState, key: SessionKey, s: Session): (r: CacheState)
    requires WellFormed(st)
    ensures key in r.entries && r.entries[key] == s
    ensures r.providerCalls == st.providerCalls
  {
    if |st.entries| >= Capacity then
      CacheState((st.entries - {st.order[0]})[key := s], st.order[1..] + [key], st.providerCalls)
    else
      CacheState(st.entries[key := s], st.order + [key], st.providerCalls)
  }

  /**
   * One call of the memoised loader: the memo afterwards and what the call
   * returns. `provider` stands for the remote load at the time of the call.
   */
  function Lookup(st: CacheState, key: SessionKey, provider: SessionKey -> Result<Session>): (r: (CacheState, Result<Session>))
    requires WellFormed(st)
    ensures r.0.providerCalls == st.providerCalls + (if key in st.entries then 0 else 1)
    ensures r.1.Err? ==> key !in st.entries && r.0.entries == st.entries
  {
    if key in st.entries then
      (st.(order := Touch(st.order, key)), Ok(st.entries[key]))
    else
      var loaded := provider(key);
      var counted := st.(providerCalls := st.providerCalls + 1);
      match loaded
      case Err(_) => (counted, loaded)
      case Ok(s) => (Admit(counted, key, s), loaded)
  }

  /** Removing the i-th key of a duplicate-free order keeps the others in order. */
  lemma {:induction false} WithoutAt(s: seq<SessionKey>, i: nat)
    requires Distinct(s) && i < |s|
    ensures Without(s, s[i]) == s[..i] + s[i + 1..]
  {
    if i == 0 {
      assert s[0] !in s[1..];
      assert s[1..] == s[..0] + s[1..];
    } else {
      assert Distinct(s[1..]);
      WithoutAt(s[1..], i - 1);
      assert s[1..][i - 1] == s[i];
      assert s[..i] == [s[0]] + s[1..][..i - 1];
      assert s[i + 1..] == s[1..][i..];
    }
  }

  /**
   * A hit keeps the memo well formed, stores nothing new, and makes the key
   * the most recent; with WithoutAt, every other key keeps its relative order.
   */
  lemma TouchKeepsMemo(st: CacheState, key: SessionKey)
    requires WellFormed(st) && key in st.entries
    ensures WellFormed(st.(order := Touch(st.order, key)))
    ensures Touch(st.order, key)[|st.order| - 1] == key
  {
  }

  /**
   * Storing a new session keeps the memo well formed and makes the key the
   * most recent. Below capacity every key is kept; at capacity exactly the
   * least recently used key is evicted and all others are kept.
   */
  lemma AdmitKeepsMemo(st: CacheState, key: SessionKey, s: Session)
    requires WellFormed(st) && key !in st.entries
    ensures WellFormed(Admit(st, key, s))
    ensures Admit(st, key, s).entries[key] == s
    ensures Admit(st, key, s).order[|Admit(st, key, s).order| - 1] == key
    ensures Admit(st, key, s).providerCalls == st.providerCalls
    ensures Admit(st, key, s).order == (if |st.entries| < Capacity then st.order else st.order[1..]) + [key]
    ensures |st.entries| < Capacity ==> |Admit(st, key, s).entries| == |st.entries| + 1
    ensures |st.entries| == Capacity ==> |Admit(st, key, s).entries| == Capacity && st.order[0] !in Admit(st, key, s).entries
    ensures forall k :: k in st.entries && (|st.entries| < Capacity || k != st.order[0]) ==>
      k in Admit(st, key, s).entries && Admit(st, key, s).entries[k] == st.entries[k]
  {
  }

  /** Every call leaves the memo well formed: in particular it never holds more than Capacity sessions. */
  lemma LookupKeepsMemo(st: CacheState, key: SessionKey, provider: SessionKey -> Result<Session>)
    requires WellFormed(st)
    ensures WellFormed(Lookup(st, key, provider).0)
    ensures |Lookup(st, key, provider).0.entries| <= Capacity
  {
    if key in st.entries {
      TouchKeepsMemo(st, key);
    } else if provider(key).Ok? {
      AdmitKeepsMemo(st.(providerCalls := st.providerCalls + 1), key, provider(key).value);
    }
  }

  /**
   * A call for a stored key returns the stored session without loading, and
   * a call for any other key loads exactly once and returns what the load
   * returned, storing it only when it succeeded.
   */
  lemma LookupLoadsOnlyOnMiss(st: CacheState, key: SessionKey, provider: SessionKey -> Result<Session>)
    requires WellFormed(st)
    ensures key in st.entries ==>
      && Lookup(st, key, provider).1 == Ok(st.entries[key])
      && Lookup(st, key, provider).0.providerCalls == st.providerCalls
      && Lookup(st, key, provider).0.entries == st.entries
    ensures key !in st.entries ==>
      && Lookup(st, key, provider).1 == provider(key)
      && Lookup(st, key, provider).0.providerCalls == st.providerCalls + 1
      && (provider(key).Err? ==> Lookup(st, key, provider).0.entries == st.entries)
      && (provider(key).Ok? ==> key in Lookup(st, key, provider).0.entries)
  {
  }

  /**
   * Memoisation: once a call for a key has returned a session, the next call
   * for the same key returns that same session and makes no provider load,
   * whatever the provider would return now.
   */
  lemma RepeatLookupIsServedFromMemo(st: CacheState, key: SessionKey,
                                     first: SessionKey -> Result<Session>, second: SessionKey -> Result<Session>)
    requires WellFormed(st)
    requires Lookup(st, key, first).1.Ok?
    ensures WellFormed(Lookup(st, key, first).0)
    ensures Lookup(Lookup(st, key, first).0, key, second).1 == Lookup(st, key, first).1
    ensures Lookup(Lookup(st, key, first).0, key, second).0.providerCalls == Lookup(st, key, first).0.providerCalls
  {
  }

  /** The memo object: a map from key to session plus the recency order of its keys. */
  class SessionMemo {
    var entries: map<SessionKey, Session>
    var order: seq<SessionKey>
    var providerCalls: nat

    function State(): CacheState
      reads this
    {
      CacheState(entries, order, providerCalls)
    }

    ghost predicate Valid()
      reads this
    {
      WellFormed(State())
    }

    constructor ()
      ensures Valid()
      ensures State() == CacheState(map[], [], 0)
    {
      entries := map[];
      order := [];
      providerCalls := 0;
    }

    /** The memoised load of the race session for `key`. */
    method Get(key: SessionKey, provider: SessionKey -> Result<Session>) returns (r: Result<Session>)
      requires Valid()
      modifies this
      ensures Valid()
      ensures (State(), r) == Lookup(old(State()), key, provider)
    {
      LookupKeepsMemo(State(), key, provider);
      if key in entries {
        order := Touch(order, key);
        r := Ok(entries[key]);
      } else {
        providerCalls := providerCalls + 1;
        r := provider(key);
        if r.Ok? {
          if |entries| >= Capacity {
            entries := entries - {order[0]};
            order := order[1..];
          }
          entries := entries[key := r.value];
          order := order + [key];
        }
      }
    }
  }
}
