/**
 The bounded cache in front of the danmaku service: entries expire, and the one used least
 recently gives way when there are too many. Entries stand in the order in which an
 insertion-ordered map iterates over them.
 */
module DanmakuCache {
  import opened Util

  type Key = string

  datatype Entry<V> = Entry(key: Key, value: V, expiresAt: int)

  datatype Op<V> = Get(at: int, key: Key) | Set(at: int, key: Key, value: V, ttlMs: int)

  function IndexOf<V>(entries: seq<Entry<V>>, key: Key): (at: nat)
    ensures at <= |entries| && (at < |entries| ==> entries[at].key == key)
    ensures forall j :: 0 <= j < at ==> entries[j].key != key
  {
    IndexWhere(entries, (e: Entry<V>) => e.key == key)
  }

  predicate Has<V>(entries: seq<Entry<V>>, key: Key) {
    IndexOf(entries, key) < |entries|
  }

  function Without<V>(entries: seq<Entry<V>>, at: nat): seq<Entry<V>>
    requires at < |entries|
  {
    entries[..at] + entries[at + 1..]
  }

  function Newest<V>(entries: seq<Entry<V>>, maxEntries: nat): seq<Entry<V>> {
    if |entries| > maxEntries then entries[|entries| - maxEntries..] else entries
  }

  /** What a lookup returns. */
  function Answer<V>(entries: seq<Entry<V>>, key: Key, now: int): Option<V> {
    var at := IndexOf(entries, key);
    if at < |entries| && entries[at].expiresAt > now then Some(entries[at].value) else None
  }

  /** What an operation makes of the entries. */
  function Step<V>(maxEntries: nat, entries: seq<Entry<V>>, op: Op<V>): seq<Entry<V>> {
    var at := IndexOf(entries, op.key);
    match op
    case Get(now, key) =>
      if at == |entries| then entries
      else if entries[at].expiresAt <= now then Without(entries, at)
      else Without(entries, at) + [entries[at]]
    case Set(now, key, value, ttlMs) =>
      var entry := Entry(key, value, now + ttlMs);
      Newest(if at < |entries| then entries[at := entry] else entries + [entry], maxEntries)
  }

  /** The entries after a run of operations on an empty cache. */
  function Run<V>(maxEntries: nat, ops: seq<Op<V>>): seq<Entry<V>>
    decreases |ops|
  {
    if ops == [] then [] else Step(maxEntries, Run(maxEntries, ops[..|ops| - 1]), ops[|ops| - 1])
  }

  // ---------------------------------------------------------------- the reference

  /** When the latest operation happened. */
  function LastTime<V>(start: int, ops: seq<Op<V>>): int {
    if ops == [] then start else ops[|ops| - 1].at
  }

  predicate Chronological<V>(start: int, ops: seq<Op<V>>)
    decreases |ops|
  {
    ops == [] || (Chronological(start, ops[..|ops| - 1]) && LastTime(start, ops[..|ops| - 1]) <= ops[|ops| - 1].at)
  }

  /** What was set last for every key, whatever the cache made of it. */
  function LatestSets<V>(ops: seq<Op<V>>): map<Key, Entry<V>>
    decreases |ops|
  {
    if ops == [] then map[]
    else
      var before, op := LatestSets(ops[..|ops| - 1]), ops[|ops| - 1];
      if op.Set? then before[op.key := Entry(op.key, op.value, op.at + op.ttlMs)] else before
  }

  /** A plain map with expiry: what an unbounded cache would answer. */
  function Plain<V>(latest: map<Key, Entry<V>>, key: Key, now: int): Option<V> {
    if key in latest && latest[key].expiresAt > now then Some(latest[key].value) else None
  }

  /** An operation uses its key when it is a lookup that was answered, or stores a key that was not there. */
  predicate Uses<V>(entries: seq<Entry<V>>, op: Op<V>) {
    if op.Get? then Answer(entries, op.key, op.at).Some? else !Has(entries, op.key)
  }

  /** The keys of a run in the order of their insertions and hits, read off operations and answers. */
  function Used<V>(maxEntries: nat, ops: seq<Op<V>>): seq<Key>
    decreases |ops|
  {
    if ops == [] then []
    else
      var before, op := ops[..|ops| - 1], ops[|ops| - 1];
      if Uses(Run(maxEntries, before), op) then Used(maxEntries, before) + [op.key] else Used(maxEntries, before)
  }

  /** The entries of a run beside what the run says of them. */
  datatype Cache<V> = Cache(
    maxEntries: nat, entries: seq<Entry<V>>, latest: map<Key, Entry<V>>, touched: seq<Key>, now: int)

  function Account<V>(maxEntries: nat, start: int, ops: seq<Op<V>>): Cache<V> {
    Cache(maxEntries, Run(maxEntries, ops), LatestSets(ops), Used(maxEntries, ops), LastTime(start, ops))
  }

  function Noted<V>(c: Cache<V>, op: Op<V>): Cache<V> {
    Cache(c.maxEntries, Step(c.maxEntries, c.entries, op),
          if op.Set? then c.latest[op.key := Entry(op.key, op.value, op.at + op.ttlMs)] else c.latest,
          if Uses(c.entries, op) then c.touched + [op.key] else c.touched, op.at)
  }

  /** The keys inserted or hit since a key's own last insertion or hit. */
  function SinceLast(touched: seq<Key>, key: Key): set<Key> {
    if touched == [] || touched[|touched| - 1] == key then {}
    else SinceLast(touched[..|touched| - 1], key) + {touched[|touched| - 1]}
  }

  predicate OneEach<V>(entries: seq<Entry<V>>) {
    forall i, j :: 0 <= i < j < |entries| ==> entries[i].key != entries[j].key
  }

  /** Later entries were all used after earlier ones. */
  predicate ByRecency<V>(entries: seq<Entry<V>>, touched: seq<Key>) {
    forall i, j :: 0 <= i < j < |entries| ==> entries[j].key in SinceLast(touched, entries[i].key)
  }

  ghost predicate Current<V>(entries: seq<Entry<V>>, latest: map<Key, Entry<V>>) {
    forall i :: 0 <= i < |entries| ==> entries[i].key in latest && latest[entries[i].key] == entries[i]
  }

  /** A key that was set and is gone has expired or gave way to enough others. */
  predicate GoneForAReason<V>(c: Cache<V>) {
    forall key :: key in c.latest ==>
      Has(c.entries, key) || c.latest[key].expiresAt <= c.now || |SinceLast(c.touched, key)| >= c.maxEntries
  }

  ghost predicate Inv<V>(c: Cache<V>) {
    && |c.entries| <= c.maxEntries
    && Sound(c.entries, c.touched, c.latest) && GoneForAReason(c)
  }

  lemma HasIffSome<V>(entries: seq<Entry<V>>, key: Key)
    ensures Has(entries, key) <==> exists i :: 0 <= i < |entries| && entries[i].key == key
  {
    if Has(entries, key) {
      assert entries[IndexOf(entries, key)].key == key;
    }
  }

  lemma Touch(touched: seq<Key>, used: Key, key: Key)
    ensures SinceLast(touched + [used], key) == if used == key then {} else SinceLast(touched, key) + {used}
  {
    assert (touched + [used])[..|touched|] == touched;
  }

  /** An eviction happens only when enough other keys were used since. */
  lemma EvictedHasRivals<V>(entries: seq<Entry<V>>, touched: seq<Key>, i: nat, maxEntries: nat)
    requires OneEach(entries) && ByRecency(entries, touched) && i + maxEntries < |entries|
    ensures |SinceLast(touched, entries[i].key)| >= maxEntries
  {
    var rivals := seq(maxEntries, k requires 0 <= k < maxEntries => entries[i + 1 + k].key);
    assert Distinct(rivals);
    forall x | x in rivals
      ensures x in SinceLast(touched, entries[i].key)
    {
      var k :| 0 <= k < maxEntries && rivals[k] == x;
      assert entries[i + 1 + k].key in SinceLast(touched, entries[i].key);
    }
    DistinctFits(rivals, SinceLast(touched, entries[i].key));
  }

  lemma NewestIsSound<V>(entries: seq<Entry<V>>, maxEntries: nat, touched: seq<Key>, latest: map<Key, Entry<V>>)
    requires Sound(entries, touched, latest)
    ensures Sound(Newest(entries, maxEntries), touched, latest)
  {
  }

  /** Dropping the oldest keeps everything but the size. */
  lemma NewestKeeps<V>(c: Cache<V>)
    requires Sound(c.entries, c.touched, c.latest) && GoneForAReason(c)
    ensures Inv(c.(entries := Newest(c.entries, c.maxEntries)))
  {
    var t := c.(entries := Newest(c.entries, c.maxEntries));
    NewestIsSound(c.entries, c.maxEntries, c.touched, c.latest);
    forall key | key in t.latest
      ensures Has(t.entries, key) || t.latest[key].expiresAt <= t.now || |SinceLast(t.touched, key)| >= t.maxEntries
    {
      if Has(c.entries, key) && |c.entries| > c.maxEntries {
        var at := IndexOf(c.entries, key);
        var dropped := |c.entries| - c.maxEntries;
        if at < dropped {
          EvictedHasRivals(c.entries, c.touched, at, c.maxEntries);
        } else {
          assert t.entries[at - dropped].key == key;
          HasIffSome(t.entries, key);
        }
      }
    }
  }

  lemma RivalsGrow(touched: seq<Key>, used: Key, key: Key)
    requires used != key
    ensures |SinceLast(touched, key)| <= |SinceLast(touched + [used], key)|
  {
    Touch(touched, used, key);
    if used !in SinceLast(touched, key) {
      assert |SinceLast(touched, key) + {used}| == |SinceLast(touched, key)| + 1;
    } else {
      assert SinceLast(touched, key) + {used} == SinceLast(touched, key);
    }
  }

  lemma WithoutHas<V>(entries: seq<Entry<V>>, at: nat, key: Key)
    requires at < |entries| && OneEach(entries)
    ensures OneEach(Without(entries, at))
    ensures Has(Without(entries, at), key) <==> Has(entries, key) && key != entries[at].key
  {
    var left := Without(entries, at);
    HasIffSome(left, key);
    HasIffSome(entries, key);
    forall i | 0 <= i < |entries| && i != at
      ensures 0 <= (if i < at then i else i - 1) < |left| && left[if i < at then i else i - 1] == entries[i]
    {
    }
  }

  lemma AppendHas<V>(entries: seq<Entry<V>>, e: Entry<V>, key: Key)
    ensures Has(entries + [e], key) <==> Has(entries, key) || key == e.key
  {
    HasIffSome(entries + [e], key);
    HasIffSome(entries, key);
    if Has(entries, key) {
      assert (entries + [e])[IndexOf(entries, key)].key == key;
    }
    assert (entries + [e])[|entries|] == e;
  }

  ghost predicate Sound<V>(entries: seq<Entry<V>>, touched: seq<Key>, latest: map<Key, Entry<V>>) {
    OneEach(entries) && ByRecency(entries, touched) && Current(entries, latest)
  }

  lemma WithoutIsSound<V>(entries: seq<Entry<V>>, at: nat, touched: seq<Key>, latest: map<Key, Entry<V>>)
    requires at < |entries| && Sound(entries, touched, latest)
    ensures Sound(Without(entries, at), touched, latest)
  {
  }

  /** Using a key puts it behind everything else. */
  lemma AppendIsSound<V>(entries: seq<Entry<V>>, touched: seq<Key>, latest: map<Key, Entry<V>>, e: Entry<V>)
    requires Sound(entries, touched, latest) && !Has(entries, e.key)
    ensures Sound(entries + [e], touched + [e.key], latest[e.key := e])
  {
    HasIffSome(entries, e.key);
    var all := entries + [e];
    forall i, j | 0 <= i < j < |all|
      ensures all[j].key in SinceLast(touched + [e.key], all[i].key)
    {
      Touch(touched, e.key, all[i].key);
    }
  }

  lemma OverwriteIsSound<V>(entries: seq<Entry<V>>, at: nat, touched: seq<Key>, latest: map<Key, Entry<V>>, e: Entry<V>)
    requires at < |entries| && Sound(entries, touched, latest) && entries[at].key == e.key
    ensures Sound(entries[at := e], touched, latest[e.key := e])
  {
  }

  /** Time passing and keys being used leave everyone who was gone gone for a reason. */
  lemma StillGone<V>(c: Cache<V>, t: Cache<V>)
    requires GoneForAReason(c) && t.maxEntries == c.maxEntries && c.now <= t.now
    requires t.touched == c.touched || (t.touched != [] && t.touched[..|t.touched| - 1] == c.touched)
    requires forall key :: key in t.latest && t.latest[key].expiresAt > t.now ==>
      Has(t.entries, key) || (!Has(c.entries, key) && key in c.latest && c.latest[key] == t.latest[key])
    requires t.touched != c.touched ==> Has(t.entries, t.touched[|t.touched| - 1])
    ensures GoneForAReason(t)
  {
    forall key | key in t.latest
      ensures Has(t.entries, key) || t.latest[key].expiresAt <= t.now || |SinceLast(t.touched, key)| >= t.maxEntries
    {
      if t.touched != c.touched && t.touched[|t.touched| - 1] != key {
        assert t.touched == c.touched + [t.touched[|t.touched| - 1]];
        RivalsGrow(c.touched, t.touched[|t.touched| - 1], key);
      }
    }
  }

  lemma HitKeeps<V>(c: Cache<V>, now: int, key: Key)
    requires Inv(c) && c.now <= now && Answer(c.entries, key, now).Some?
    ensures Inv(Noted(c, Get(now, key)))
  {
    var at := IndexOf(c.entries, key);
    var e := c.entries[at];
    var left := Without(c.entries, at);
    var t := Noted(c, Get(now, key));
    forall k: Key
      ensures Has(t.entries, k) <==> Has(c.entries, k)
    {
      WithoutHas(c.entries, at, k);
      AppendHas(left, e, k);
    }
    WithoutHas(c.entries, at, key);
    WithoutIsSound(c.entries, at, c.touched, c.latest);
    AppendIsSound(left, c.touched, c.latest, e);
    assert c.latest[key := e] == c.latest;
    StillGone(c, t);
  }

  lemma ExpiryKeeps<V>(c: Cache<V>, now: int, key: Key)
    requires Inv(c) && c.now <= now && Has(c.entries, key) && Answer(c.entries, key, now).None?
    ensures Inv(Noted(c, Get(now, key)))
  {
    var at := IndexOf(c.entries, key);
    var t := Noted(c, Get(now, key));
    forall k: Key
      ensures Has(t.entries, k) <==> Has(c.entries, k) && k != key
    {
      WithoutHas(c.entries, at, k);
    }
    WithoutIsSound(c.entries, at, c.touched, c.latest);
    StillGone(c, t);
  }

  lemma OverwriteHas<V>(entries: seq<Entry<V>>, at: nat, e: Entry<V>, key: Key)
    requires at < |entries| && entries[at].key == e.key
    ensures Has(entries[at := e], key) <==> Has(entries, key)
  {
    HasIffSome(entries[at := e], key);
    HasIffSome(entries, key);
    assert forall i :: 0 <= i < |entries| ==> entries[at := e][i].key == entries[i].key;
  }

  lemma SetPresent<V>(c: Cache<V>, now: int, key: Key, value: V, ttlMs: int)
    requires |c.entries| <= c.maxEntries && Has(c.entries, key)
    ensures var e := Entry(key, value, now + ttlMs);
            Noted(c, Set(now, key, value, ttlMs))
            == c.(entries := c.entries[IndexOf(c.entries, key) := e], latest := c.latest[key := e], now := now)
  {
  }

  lemma OverwriteKeeps<V>(c: Cache<V>, now: int, key: Key, value: V, ttlMs: int)
    requires Inv(c) && c.now <= now && Has(c.entries, key)
    ensures Inv(Noted(c, Set(now, key, value, ttlMs)))
  {
    var t := Noted(c, Set(now, key, value, ttlMs));
    var at, e := IndexOf(c.entries, key), Entry(key, value, now + ttlMs);
    SetPresent(c, now, key, value, ttlMs);
    forall k: Key
      ensures Has(t.entries, k) <==> Has(c.entries, k)
    {
      OverwriteHas(c.entries, at, e, k);
    }
    OverwriteIsSound(c.entries, at, c.touched, c.latest, e);
    StillGone(c, t);
  }

  function Grown<V>(c: Cache<V>, e: Entry<V>, now: int): Cache<V> {
    c.(entries := c.entries + [e], latest := c.latest[e.key := e], touched := c.touched + [e.key], now := now)
  }

  lemma GrownIsGone<V>(c: Cache<V>, e: Entry<V>, now: int)
    requires GoneForAReason(c) && c.now <= now && !Has(c.entries, e.key)
    ensures GoneForAReason(Grown(c, e, now))
  {
    var grown := Grown(c, e, now);
    forall k: Key
      ensures Has(grown.entries, k) <==> Has(c.entries, k) || k == e.key
    {
      AppendHas(c.entries, e, k);
    }
    assert grown.touched[..|grown.touched| - 1] == c.touched;
    StillGone(c, grown);
  }

  lemma InsertGrows<V>(c: Cache<V>, now: int, key: Key, value: V, ttlMs: int)
    requires !Has(c.entries, key)
    ensures var grown := Grown(c, Entry(key, value, now + ttlMs), now);
            Noted(c, Set(now, key, value, ttlMs)) == grown.(entries := Newest(grown.entries, grown.maxEntries))
  {
  }

  lemma InsertKeeps<V>(c: Cache<V>, now: int, key: Key, value: V, ttlMs: int)
    requires Inv(c) && c.now <= now && !Has(c.entries, key)
    ensures Inv(Noted(c, Set(now, key, value, ttlMs)))
  {
    var e := Entry(key, value, now + ttlMs);
    AppendIsSound(c.entries, c.touched, c.latest, e);
    GrownIsGone(c, e, now);
    NewestKeeps(Grown(c, e, now));
    InsertGrows(c, now, key, value, ttlMs);
  }

  lemma StepKeeps<V>(c: Cache<V>, op: Op<V>)
    requires Inv(c) && c.now <= op.at
    ensures Inv(Noted(c, op)) && Noted(c, op).now == op.at && Noted(c, op).maxEntries == c.maxEntries
  {
    match op
    case Get(now, key) =>
      if Answer(c.entries, key, now).Some? {
        HitKeeps(c, now, key);
      } else if Has(c.entries, key) {
        ExpiryKeeps(c, now, key);
      } else {
        StillGone(c, Noted(c, op));
      }
    case Set(now, key, value, ttlMs) =>
      if Has(c.entries, key) {
        OverwriteKeeps(c, now, key, value, ttlMs);
      } else {
        InsertKeeps(c, now, key, value, ttlMs);
      }
  }

  lemma {:induction false} RunKeeps<V>(maxEntries: nat, start: int, ops: seq<Op<V>>)
    requires Chronological(start, ops)
    ensures Inv(Account(maxEntries, start, ops))
    decreases |ops|
  {
    if ops != [] {
      var before, op := ops[..|ops| - 1], ops[|ops| - 1];
      RunKeeps(maxEntries, start, before);
      StepKeeps(Account(maxEntries, start, before), op);
      assert Account(maxEntries, start, ops) == Noted(Account(maxEntries, start, before), op);
    }
  }

  lemma RunSnoc<V>(maxEntries: nat, start: int, ops: seq<Op<V>>, op: Op<V>)
    ensures Run(maxEntries, ops + [op]) == Step(maxEntries, Run(maxEntries, ops), op)
    ensures Chronological(start, ops + [op]) <==> Chronological(start, ops) && LastTime(start, ops) <= op.at
  {
    assert (ops + [op])[..|ops|] == ops;
  }

  /** One more store: the entry is put where its key is, or at the end, and the newest ones stay. */
  lemma SetIs<V>(maxEntries: nat, entries: seq<Entry<V>>, key: Key, value: V, ttlMs: int, now: int)
    ensures var at, entry := IndexOf(entries, key), Entry(key, value, now + ttlMs);
            Step(maxEntries, entries, Set(now, key, value, ttlMs))
            == Newest(if at < |entries| then entries[at := entry] else entries + [entry], maxEntries)
  {
  }

  // ---------------------------------------------------------------- what a caller sees

  /** After any run the cache is within its limit,
    and every hit is what was set last for the key and has not expired. */
  lemma HitsAreCurrent<V>(maxEntries: nat, start: int, ops: seq<Op<V>>, now: int, key: Key)
    requires Chronological(start, ops)
    ensures var entries := Run(maxEntries, ops);
            && |entries| <= maxEntries
            && (Answer(entries, key, now).Some? ==> Answer(entries, key, now) == Plain(LatestSets(ops), key, now))
  {
    RunKeeps(maxEntries, start, ops);
  }

  /**
   The cache answers exactly as the plain map for every key that fewer than `maxEntries` other
   keys were inserted or hit after: expiry and crowding are the only reasons for a miss.
   */
  lemma RecentKeysStay<V>(maxEntries: nat, start: int, ops: seq<Op<V>>, now: int, key: Key)
    requires Chronological(start, ops) && LastTime(start, ops) <= now
    requires |SinceLast(Used(maxEntries, ops), key)| < maxEntries
    ensures Answer(Run(maxEntries, ops), key, now) == Plain(LatestSets(ops), key, now)
  {
    RunKeeps(maxEntries, start, ops);
    var c := Account(maxEntries, start, ops);
    if key in c.latest && c.latest[key].expiresAt > now {
      assert Has(c.entries, key);
    }
  }

  /** A hit puts its entry at the end, unchanged, and leaves the others in their order. */
  lemma HitMovesToEnd<V>(maxEntries: nat, entries: seq<Entry<V>>, key: Key, now: int)
    requires Answer(entries, key, now).Some?
    ensures exists at ::
              && 0 <= at < |entries| && entries[at].key == key && Answer(entries, key, now) == Some(entries[at].value)
              && Step(maxEntries, entries, Get(now, key)) == entries[..at] + entries[at + 1..] + [entries[at]]
  {
    var at := IndexOf(entries, key);
    assert entries[at].key == key;
  }

  /** A miss changes nothing but to drop the key's expired entry. */
  lemma MissDropsExpired<V>(maxEntries: nat, entries: seq<Entry<V>>, key: Key, now: int)
    requires OneEach(entries) && Answer(entries, key, now).None?
    ensures var t := Step(maxEntries, entries, Get(now, key));
            if Has(entries, key)
            then exists at ::
                   0 <= at < |entries| && entries[at].key == key && entries[at].expiresAt <= now
                   && t == entries[..at] + entries[at + 1..]
            else t == entries
  {
    var at := IndexOf(entries, key);
    if at < |entries| {
      assert entries[at].key == key;
    }
  }

  /** In a full cache of more than one entry, a key just hit survives the next new key. */
  lemma HitSurvivesNextInsertion<V>(
    maxEntries: nat, entries: seq<Entry<V>>, key: Key, now: int, other: Key, b: V, bTtl: int, later: int)
    requires OneEach(entries) && |entries| == maxEntries > 1 && Answer(entries, key, now).Some? && !Has(entries, other)
    ensures var t := Step(maxEntries, Step(maxEntries, entries, Get(now, key)), Set(later, other, b, bTtl));
            Has(t, key) && Has(t, other) && |t| == maxEntries
  {
    var at := IndexOf(entries, key);
    var e, f := entries[at], Entry(other, b, later + bTtl);
    var hit := Without(entries, at) + [e];
    WithoutHas(entries, at, other);
    AppendHas(Without(entries, at), e, other);
    var t := (hit + [f])[1..];
    assert t[|hit| - 2] == e && t[|hit| - 1] == f;
    HasIffSome(t, key);
    HasIffSome(t, other);
    assert Step(maxEntries, hit, Set(later, other, b, bTtl)) == t;
  }

  /**
   Setting a key again does not make it recent: in a full cache, the next new key evicts the
   one just set exactly when it was the oldest, as if it had not been touched.
   */
  lemma OverwriteDoesNotRefresh<V>(
    maxEntries: nat, entries: seq<Entry<V>>, key: Key, a: V, aTtl: int, other: Key, b: V, bTtl: int, now: int,
      later: int)
    requires OneEach(entries) && |entries| == maxEntries && Has(entries, key) && !Has(entries, other)
    ensures var t := Step(maxEntries, Step(maxEntries, entries, Set(now, key, a, aTtl)), Set(later, other, b, bTtl));
            !Has(t, key) <==> IndexOf(entries, key) == 0
  {
    var at, e, f := IndexOf(entries, key), Entry(key, a, now + aTtl), Entry(other, b, later + bTtl);
    var once := Step(maxEntries, entries, Set(now, key, a, aTtl));
    assert once == entries[at := e];
    OverwriteHas(entries, at, e, other);
    assert Step(maxEntries, once, Set(later, other, b, bTtl)) == (once + [f])[1..];
    OldestIsLost(entries, at, e, f);
    HasIffSome(entries, other);
  }

  lemma OldestIsLost<V>(entries: seq<Entry<V>>, at: nat, e: Entry<V>, f: Entry<V>)
    requires OneEach(entries) && at < |entries| && entries[at].key == e.key && f.key != e.key
    ensures !Has((entries[at := e] + [f])[1..], e.key) <==> at == 0
  {
    var left := (entries[at := e] + [f])[1..];
    HasIffSome(left, e.key);
    if at > 0 {
      assert left[at - 1] == e;
    } else {
      forall i | 0 <= i < |left|
        ensures left[i].key != e.key
      {
        assert left[i] == (entries[at := e] + [f])[i + 1];
      }
    }
  }

  // ---------------------------------------------------------------- the object

  class BoundedCache<V> {
    const ttlMs: int
    const maxEntries: nat
    const start: int
    var entries: seq<Entry<V>>
    /** Everything that was asked of the cache. */
    ghost var ops: seq<Op<V>>

    ghost predicate Valid()
      reads this
    {
      Chronological(start, ops) && entries == Run(maxEntries, ops)
    }

    constructor (ttlMs: int, maxEntries: nat, start: int)
      ensures Valid() && ops == [] && this.ttlMs == ttlMs && this.maxEntries == maxEntries && this.start == start
    {
      this.ttlMs, this.maxEntries, this.start, entries, ops := ttlMs, maxEntries, start, [], [];
    }

    /** A hit is answered and moves to the end; an expired entry is dropped. */
    method Lookup(key: Key, now: int) returns (value: Option<V>)
      requires Valid() && LastTime(start, ops) <= now
      modifies this
      ensures Valid() && ops == old(ops) + [Get(now, key)] && value == Answer(old(entries), key, now)
      ensures value.Some? ==> value == Plain(LatestSets(old(ops)), key, now)
    {
      RunKeeps(maxEntries, start, ops);
      ghost var before := ops;
      ops := ops + [Get(now, key)];
      RunSnoc(maxEntries, start, before, ops[|before|]);
      var at := IndexOf(entries, key);
      if at == |entries| {
        return None;
      }
      var entry := entries[at];
      entries := Without(entries, at);
      if entry.expiresAt <= now {
        return None;
      }
      entries := entries + [entry];
      return Some(entry.value);
    }

    method Store(key: Key, value: V, ttlMsOverride: Option<int>, now: int)
      requires Valid() && LastTime(start, ops) <= now
      modifies this
      ensures Valid() && ops == old(ops) + [Set(now, key, value, ttlMsOverride.GetOr(ttlMs))]
    {
      var ttl := ttlMsOverride.GetOr(ttlMs);
      RunSnoc(maxEntries, start, ops, Set(now, key, value, ttl));
      SetIs(maxEntries, entries, key, value, ttl, now);
      ops := ops + [Set(now, key, value, ttl)];
      Put(Entry(key, value, now + ttl));
      EvictOldest();
    }

    /** An entry replaces the one of its key where it is, or goes to the end. */
    method Put(entry: Entry<V>)
      modifies this`entries
      ensures var at := IndexOf(old(entries), entry.key);
              entries == if at < |old(entries)| then old(entries)[at := entry] else old(entries) + [entry]
    {
      var at := IndexOf(entries, entry.key);
      entries := if at < |entries| then entries[at := entry] else entries + [entry];
    }

    method EvictOldest()
      modifies this`entries
      ensures entries == Newest(old(entries), maxEntries)
    {
      ghost var all := entries;
      var evicted := 0;
      while |entries| > maxEntries
        invariant evicted <= |all| && entries == all[evicted..]
        invariant evicted == 0 || |entries| >= maxEntries
      {
        evicted := evicted + 1;
        entries := entries[1..];
      }
    }
  }
}
