/**
 The bounded memory of completed requests. It keeps the responses of recent
 requests within a byte limit, and the fingerprints of a few more.
 */
module RequestCache {
  import opened Wrappers

  type ClientId = string
  type RequestId = string

  /** What a fingerprint identifies: the method and the canonical parameters. */
  datatype Fingerprint = Fingerprint(operation: string, params: string)

  datatype Key = Key(clientId: ClientId, requestId: RequestId)

  datatype Response = Response(requestId: RequestId, ok: bool, body: string)

  datatype Entry = Entry(fingerprint: Fingerprint, response: Response, bytes: nat)

  datatype Answer = Hit(response: Response) | Conflict | ReplayUnavailable | Miss

  /** The maps of the server; `order` is the insertion order of completed keys. */
  datatype Memory = Memory(cache: map<Key, Entry>, tombstones: map<Key, Fingerprint>, order: seq<Key>, bytes: int)

  /** Deleting a key from an insertion-ordered map. */
  function Without(keys: seq<Key>, key: Key): seq<Key> {
    if keys == [] then []
    else if keys[0] == key then Without(keys[1..], key)
    else [keys[0]] + Without(keys[1..], key)
  }

  lemma {:induction false} WithoutMembers(keys: seq<Key>, key: Key, k: Key)
    ensures k in Without(keys, key) <==> k in keys && k != key
  {
    if keys != [] {
      assert keys == [keys[0]] + keys[1..];
      WithoutMembers(keys[1..], key, k);
    }
  }

  lemma WithoutKeepsOthers(keys: seq<Key>, key: Key)
    ensures forall k :: k in Without(keys, key) <==> k in keys && k != key
  {
    forall k {
      WithoutMembers(keys, key, k);
    }
  }

  lemma {:induction false} WithoutLength(keys: seq<Key>, key: Key)
    requires Distinct(keys)
    ensures |Without(keys, key)| == |keys| - (if key in keys then 1 else 0)
  {
    if keys != [] {
      assert keys == [keys[0]] + keys[1..];
      WithoutLength(keys[1..], key);
    }
  }

  lemma {:induction false} WithoutStaysDistinct(keys: seq<Key>, key: Key)
    requires Distinct(keys)
    ensures Distinct(Without(keys, key))
  {
    if keys != [] {
      WithoutStaysDistinct(keys[1..], key);
      WithoutMembers(keys[1..], key, keys[0]);
    }
  }

  /** The bytes of the cached responses among some keys. */
  function Total(keys: seq<Key>, cache: map<Key, Entry>): nat {
    if keys == [] then 0 else BytesOf(keys[0], cache) + Total(keys[1..], cache)
  }

  function BytesOf(key: Key, cache: map<Key, Entry>): nat {
    if key in cache then cache[key].bytes else 0
  }

  predicate SameOn(keys: seq<Key>, a: map<Key, Entry>, b: map<Key, Entry>) {
    forall k :: k in keys ==> (k in a <==> k in b) && (k in a ==> a[k] == b[k])
  }

  lemma {:induction false} TotalIgnoresOthers(keys: seq<Key>, a: map<Key, Entry>, b: map<Key, Entry>)
    requires SameOn(keys, a, b)
    ensures Total(keys, a) == Total(keys, b)
  {
    if keys != [] {
      assert keys[0] in keys;
      TotalIgnoresOthers(keys[1..], a, b);
    }
  }

  lemma {:induction false} TotalWithout(keys: seq<Key>, cache: map<Key, Entry>, key: Key)
    requires Distinct(keys)
    ensures Total(Without(keys, key), cache) + (if key in keys then BytesOf(key, cache) else 0) == Total(keys, cache)
  {
    if keys != [] {
      assert keys == [keys[0]] + keys[1..];
      TotalWithout(keys[1..], cache, key);
    }
  }

  lemma {:induction false} TotalOfTwo(a: seq<Key>, b: seq<Key>, cache: map<Key, Entry>)
    ensures Total(a + b, cache) == Total(a, cache) + Total(b, cache)
  {
    if a == [] {
      assert a + b == b;
    } else {
      TotalOfTwo(a[1..], b, cache);
      assert (a + b)[1..] == a[1..] + b;
    }
  }

  lemma {:induction false} NothingCachedNothingCounted(keys: seq<Key>, cache: map<Key, Entry>)
    requires forall k :: k in keys ==> k !in cache
    ensures Total(keys, cache) == 0
  {
    if keys != [] {
      assert keys[0] in keys;
      NothingCachedNothingCounted(keys[1..], cache);
    }
  }

  lemma SuffixTotal(keys: seq<Key>, cache: map<Key, Entry>, i: nat)
    requires i <= |keys|
    ensures Total(keys[i..], cache) + Total(keys[..i], cache) == Total(keys, cache)
  {
    TotalOfTwo(keys[..i], keys[i..], cache);
    assert keys[..i] + keys[i..] == keys;
  }

  ghost predicate Partitioned(m: Memory) {
    forall k :: (k in m.order <==> k in m.cache || k in m.tombstones) && !(k in m.cache && k in m.tombstones)
  }

  ghost predicate Consistent(m: Memory) {
    && Distinct(m.order)
    && Partitioned(m)
    && m.bytes == Total(m.order, m.cache)
  }

  // Eviction by bytes.

  /** The position of the oldest key that still has a response, or the end. */
  function OldestCached(keys: seq<Key>, cache: map<Key, Entry>): (i: nat)
    ensures i <= |keys| && (i < |keys| ==> keys[i] in cache)
    ensures forall k :: 0 <= k < i ==> keys[k] !in cache
  {
    if keys == [] || keys[0] in cache then 0 else OldestCached(keys[1..], cache) + 1
  }

  function EvictResponse(m: Memory, key: Key): Memory
    requires key in m.cache
  {
    Memory(m.cache - {key}, m.tombstones[key := m.cache[key].fingerprint], m.order, m.bytes - m.cache[key].bytes)
  }

  lemma EvictResponseIsConsistent(m: Memory, key: Key)
    requires Consistent(m) && key in m.cache
    ensures Consistent(EvictResponse(m, key))
  {
    TotalWithout(m.order, m.cache, key);
    TotalWithout(m.order, m.cache - {key}, key);
    WithoutKeepsOthers(m.order, key);
    TotalIgnoresOthers(Without(m.order, key), m.cache, m.cache - {key});
  }

  function EvictToFit(m: Memory, byteLimit: nat): Memory
    decreases m.cache.Keys
  {
    var oldest := OldestCached(m.order, m.cache);
    if m.bytes <= byteLimit || oldest == |m.order| then m
    else
      assert m.order[oldest] in m.cache.Keys && m.order[oldest] !in EvictResponse(m, m.order[oldest]).cache.Keys;
      EvictToFit(EvictResponse(m, m.order[oldest]), byteLimit)
  }

  lemma SomeResponseIsCached(m: Memory)
    requires m.bytes == Total(m.order, m.cache) > 0
    ensures OldestCached(m.order, m.cache) < |m.order|
  {
    if OldestCached(m.order, m.cache) == |m.order| {
      NothingCachedNothingCounted(m.order, m.cache);
    }
  }

  lemma {:induction false} EvictToFitFits(m: Memory, byteLimit: nat)
    requires Consistent(m)
    ensures var after := EvictToFit(m, byteLimit);
            && Consistent(after)
            && after.order == m.order
            && after.bytes <= byteLimit
            && Fades(m, after)
    decreases m.cache.Keys
  {
    if m.bytes > byteLimit {
      SomeResponseIsCached(m);
      var key := m.order[OldestCached(m.order, m.cache)];
      EvictResponseIsConsistent(m, key);
      assert key in m.cache.Keys && key !in EvictResponse(m, key).cache.Keys;
      EvictToFitFits(EvictResponse(m, key), byteLimit);
    }
  }

  /** Responses can turn into tombstones with their fingerprint; nothing else changes. */
  ghost predicate Fades(m: Memory, m': Memory) {
    forall k ::
      && (k in m'.cache ==> k in m.cache && m'.cache[k] == m.cache[k])
      && (k in m'.tombstones ==>
            if k in m.cache then m'.tombstones[k] == m.cache[k].fingerprint
            else k in m.tombstones && m'.tombstones[k] == m.tombstones[k])
  }

  lemma KeyIsNotLater(keys: seq<Key>, at: nat, i: nat)
    requires Distinct(keys) && at < i <= |keys|
    ensures keys[at] !in keys[i..]
  {
    assert forall j :: i <= j < |keys| ==> keys[j] != keys[at];
  }

  lemma SuffixAfterEviction(m: Memory, oldest: nat, i: nat)
    requires Consistent(m) && oldest < |m.order| && i < |m.order| && m.order[oldest] in m.cache
    requires forall k :: 0 <= k < oldest ==> m.order[k] !in m.cache
    ensures i <= oldest ==> Total(m.order[i..], m.cache) == m.bytes
    ensures i > oldest ==> Total(m.order[i..], m.cache - {m.order[oldest]}) == Total(m.order[i..], m.cache)
  {
    if i <= oldest {
      SuffixTotal(m.order, m.cache, i);
      NothingCachedNothingCounted(m.order[..i], m.cache);
    } else {
      KeyIsNotLater(m.order, oldest, i);
      TotalIgnoresOthers(m.order[i..], m.cache, m.cache - {m.order[oldest]});
    }
  }

  /** Exactly the responses survive that fit together with everything newer. */
  lemma {:induction false} EvictToFitKeepsTheNewest(m: Memory, byteLimit: nat, i: nat)
    requires Consistent(m) && i < |m.order|
    ensures m.order[i] in EvictToFit(m, byteLimit).cache <==>
            m.order[i] in m.cache && Total(m.order[i..], m.cache) <= byteLimit
    decreases m.cache.Keys
  {
    if m.bytes <= byteLimit {
      SuffixTotal(m.order, m.cache, i);
    } else {
      SomeResponseIsCached(m);
      var oldest := OldestCached(m.order, m.cache);
      var key := m.order[oldest];
      EvictResponseIsConsistent(m, key);
      assert key in m.cache.Keys && key !in EvictResponse(m, key).cache.Keys;
      EvictToFitKeepsTheNewest(EvictResponse(m, key), byteLimit, i);
      SuffixAfterEviction(m, oldest, i);
    }
  }

  // Suffixes, counted from the end.

  predicate AgreeFromEnd(recent: seq<Key>, keys: seq<Key>, i: nat) {
    i < |recent| && i < |keys| && recent[|recent| - 1 - i] == keys[|keys| - 1 - i]
  }

  ghost predicate IsSuffix(recent: seq<Key>, keys: seq<Key>) {
    && |recent| <= |keys|
    && (forall i: nat {:trigger AgreeFromEnd(recent, keys, i)} :: i < |recent| ==> AgreeFromEnd(recent, keys, i))
  }

  lemma SuffixSplits(recent: seq<Key>, keys: seq<Key>)
    requires IsSuffix(recent, keys)
    ensures keys == keys[..|keys| - |recent|] + recent
  {
    forall k | 0 <= k < |recent|
      ensures keys[|keys| - |recent| + k] == recent[k]
    {
      assert AgreeFromEnd(recent, keys, |recent| - 1 - k);
    }
  }

  lemma SuffixOfMore(earlier: seq<Key>, keys: seq<Key>, suffix: seq<Key>)
    requires IsSuffix(suffix, keys)
    ensures IsSuffix(suffix, earlier + keys)
  {
    forall i: nat {:trigger AgreeFromEnd(suffix, earlier + keys, i)} | i < |suffix|
      ensures AgreeFromEnd(suffix, earlier + keys, i)
    {
      assert AgreeFromEnd(suffix, keys, i);
    }
  }

  // Eviction by count.

  function ForgetOldest(m: Memory): Memory
    requires m.order != []
  {
    Memory(m.cache - {m.order[0]}, m.tombstones - {m.order[0]}, m.order[1..], m.bytes - BytesOf(m.order[0], m.cache))
  }

  lemma ForgetOldestIsConsistent(m: Memory)
    requires Consistent(m) && m.order != []
    ensures Consistent(ForgetOldest(m))
  {
    var rest := m.order[1..];
    assert m.order == [m.order[0]] + rest;
    TotalIgnoresOthers(rest, m.cache, m.cache - {m.order[0]});
  }

  function ForgetToCount(m: Memory, sizeLimit: nat): Memory
    decreases |m.order|
  {
    if |m.order| <= sizeLimit then m else ForgetToCount(ForgetOldest(m), sizeLimit)
  }

  ghost predicate Restricts(m: Memory, m': Memory) {
    forall k ::
      && (k in m'.cache <==> k in m.cache && k in m'.order)
      && (k in m'.cache ==> m'.cache[k] == m.cache[k])
      && (k in m'.tombstones ==> k in m.tombstones && m'.tombstones[k] == m.tombstones[k])
  }

  lemma ForgetOldestRestricts(m: Memory, m': Memory)
    requires Consistent(m) && m.order != [] && Restricts(ForgetOldest(m), m')
    requires IsSuffix(m'.order, m.order[1..])
    ensures Restricts(m, m')
  {
    SuffixSplits(m'.order, m.order[1..]);
  }

  lemma {:induction false} ForgetToCountKeepsTheNewest(m: Memory, sizeLimit: nat)
    ensures IsRecent(m.order, sizeLimit, ForgetToCount(m, sizeLimit).order)
    decreases |m.order|
  {
    if |m.order| > sizeLimit {
      ForgetToCountKeepsTheNewest(ForgetOldest(m), sizeLimit);
      SuffixOfMore([m.order[0]], m.order[1..], ForgetToCount(m, sizeLimit).order);
      assert m.order == [m.order[0]] + m.order[1..];
    }
  }

  lemma {:induction false} ForgetToCountRestricts(m: Memory, sizeLimit: nat)
    requires Consistent(m)
    ensures var after := ForgetToCount(m, sizeLimit);
            && Consistent(after)
            && after.bytes <= m.bytes
            && Restricts(m, after)
    decreases |m.order|
  {
    if |m.order| > sizeLimit {
      ForgetOldestIsConsistent(m);
      ForgetToCountRestricts(ForgetOldest(m), sizeLimit);
      ForgetToCountKeepsTheNewest(ForgetOldest(m), sizeLimit);
      ForgetOldestRestricts(m, ForgetToCount(m, sizeLimit));
    }
  }

  // Remembering one completion.

  function Remember(m: Memory, key: Key, entry: Entry, byteLimit: nat): Memory {
    var order := Without(m.order, key) + [key];
    var bytes := m.bytes - BytesOf(key, m.cache);
    if entry.bytes <= byteLimit then
      Memory(m.cache[key := entry], m.tombstones - {key}, order, bytes + entry.bytes)
    else
      Memory(m.cache - {key}, m.tombstones[key := entry.fingerprint], order, bytes)
  }

  lemma RememberIsPartitioned(m: Memory, key: Key, entry: Entry, byteLimit: nat)
    requires Partitioned(m)
    ensures Partitioned(Remember(m, key, entry, byteLimit))
  {
    WithoutKeepsOthers(m.order, key);
  }

  lemma RememberCounts(m: Memory, key: Key, entry: Entry, byteLimit: nat)
    requires Distinct(m.order) && m.bytes == Total(m.order, m.cache)
    requires key in m.cache ==> key in m.order
    ensures var after := Remember(m, key, entry, byteLimit); after.bytes == Total(after.order, after.cache)
  {
    var after := Remember(m, key, entry, byteLimit);
    var others := Without(m.order, key);
    WithoutKeepsOthers(m.order, key);
    TotalWithout(m.order, m.cache, key);
    TotalOfTwo(others, [key], after.cache);
    TotalIgnoresOthers(others, m.cache, after.cache);
    assert Total([key], after.cache) == BytesOf(key, after.cache);
  }

  lemma MovedKeyStaysDistinct(keys: seq<Key>, key: Key)
    requires Distinct(keys)
    ensures Distinct(Without(keys, key) + [key])
  {
    WithoutStaysDistinct(keys, key);
    WithoutMembers(keys, key, key);
    AppendStaysDistinct(Without(keys, key), key);
  }

  lemma {:induction false} AppendStaysDistinct(keys: seq<Key>, key: Key)
    requires Distinct(keys) && key !in keys
    ensures Distinct(keys + [key])
  {
    if keys != [] {
      assert keys == [keys[0]] + keys[1..];
      AppendStaysDistinct(keys[1..], key);
      assert (keys + [key])[1..] == keys[1..] + [key];
    }
  }

  lemma RememberIsConsistent(m: Memory, key: Key, entry: Entry, byteLimit: nat)
    requires Consistent(m)
    ensures Consistent(Remember(m, key, entry, byteLimit))
  {
    MovedKeyStaysDistinct(m.order, key);
    RememberIsPartitioned(m, key, entry, byteLimit);
    RememberCounts(m, key, entry, byteLimit);
  }

  /** What becomes of the key at position `i` of the written order. */
  ghost predicate Survives(written: Memory, byteLimit: nat, after: Memory, i: nat)
    requires i < |written.order|
  {
    var k := written.order[i];
    && (k in after.cache <==> k in written.cache && Total(written.order[i..], written.cache) <= byteLimit)
    && (k in after.cache ==> after.cache[k] == written.cache[k])
    && (k in after.tombstones ==>
          if k in written.cache then after.tombstones[k] == written.cache[k].fingerprint
          else k in written.tombstones && after.tombstones[k] == written.tombstones[k])
  }

  /** The newest keys stay, as many as the count allows. Of those, exactly the
      responses stay that fit together with everything newer. */
  ghost predicate Completed(m: Memory, key: Key, entry: Entry, sizeLimit: nat, byteLimit: nat, after: Memory) {
    var written := Remember(m, key, entry, byteLimit);
    && Consistent(after)
    && after.bytes <= byteLimit
    && IsRecent(written.order, sizeLimit, after.order)
    && (forall i: nat {:trigger Survives(written, byteLimit, after, i)} ::
          |written.order| - |after.order| <= i < |written.order| ==> Survives(written, byteLimit, after, i))
  }

  ghost predicate IsRecent(keys: seq<Key>, sizeLimit: nat, recent: seq<Key>) {
    |recent| == (if |keys| < sizeLimit then |keys| else sizeLimit) && IsSuffix(recent, keys)
  }

  // The unbounded table the cache stands for.

  function Remembered(memo: map<Key, Entry>, key: Key, fingerprint: Fingerprint): Answer {
    if key !in memo then Miss
    else if memo[key].fingerprint == fingerprint then Hit(memo[key].response)
    else Conflict
  }

  /** The cache is a part of the unbounded table `memo`. */
  ghost predicate PartOf(m: Memory, memo: map<Key, Entry>, byteLimit: nat) {
    && (forall k :: k in m.cache ==> k in memo && memo[k] == m.cache[k] && m.cache[k].bytes <= byteLimit)
    && (forall k :: k in m.tombstones ==> k in memo && memo[k].fingerprint == m.tombstones[k])
  }

  /** Position `i` has forgotten a response that would fit, position `j` still has one. */
  predicate ForgottenAndKept(m: Memory, memo: map<Key, Entry>, byteLimit: nat, i: nat, j: nat)
    requires i < |m.order| && j < |m.order|
  {
    && m.order[i] in m.tombstones && m.order[i] in memo && memo[m.order[i]].bytes <= byteLimit
    && m.order[j] in m.cache
  }

  /** A response that would fit is never forgotten while an older one is kept. */
  ghost predicate FittingTombstonesAreOlder(m: Memory, memo: map<Key, Entry>, byteLimit: nat) {
    forall i: nat, j: nat {:trigger ForgottenAndKept(m, memo, byteLimit, i, j)} ::
      i < |m.order| && j < |m.order| && ForgottenAndKept(m, memo, byteLimit, i, j) ==> i < j
  }

  ghost predicate Refines(m: Memory, memo: map<Key, Entry>, history: seq<Key>, sizeLimit: nat, byteLimit: nat) {
    && Consistent(m)
    && m.bytes <= byteLimit
    && PartOf(m, memo, byteLimit)
    && FittingTombstonesAreOlder(m, memo, byteLimit)
    && IsRecent(history, sizeLimit, m.order)
    && Distinct(history)
    && (forall k :: k in history <==> k in memo)
  }

  lemma {:induction false} WithoutOfTwo(a: seq<Key>, b: seq<Key>, key: Key)
    ensures Without(a + b, key) == Without(a, key) + Without(b, key)
  {
    if a == [] {
      assert a + b == b;
    } else {
      WithoutOfTwo(a[1..], b, key);
      assert (a + b)[1..] == a[1..] + b;
    }
  }

  /** Writing, evicting by bytes and forgetting by count together complete a request. */
  lemma StagesComplete(m: Memory, key: Key, entry: Entry, sizeLimit: nat, byteLimit: nat, fitted: Memory, after: Memory)
    requires Consistent(m)
    requires fitted == EvictToFit(Remember(m, key, entry, byteLimit), byteLimit)
             && after == ForgetToCount(fitted, sizeLimit)
    ensures Completed(m, key, entry, sizeLimit, byteLimit, after)
  {
    var written := Remember(m, key, entry, byteLimit);
    RememberIsConsistent(m, key, entry, byteLimit);
    EvictToFitFits(written, byteLimit);
    ForgetToCountRestricts(fitted, sizeLimit);
    ForgetToCountKeepsTheNewest(fitted, sizeLimit);
    forall i: nat {:trigger Survives(written, byteLimit, after, i)} |
        |written.order| - |after.order| <= i < |written.order|
      ensures Survives(written, byteLimit, after, i)
    {
      EvictToFitKeepsTheNewest(written, byteLimit, i);
      SurvivesBothStages(written, fitted, after, byteLimit, i);
    }
  }

  lemma SurvivesBothStages(written: Memory, fitted: Memory, after: Memory, byteLimit: nat, i: nat)
    requires Fades(written, fitted) && Restricts(fitted, after) && fitted.order == written.order
             && IsSuffix(after.order, written.order)
    requires |written.order| - |after.order| <= i < |written.order|
    requires written.order[i] in fitted.cache <==>
               written.order[i] in written.cache && Total(written.order[i..], written.cache) <= byteLimit
    ensures Survives(written, byteLimit, after, i)
  {
    assert AgreeFromEnd(after.order, written.order, |written.order| - 1 - i);
  }

  lemma RecentAfterCompletion(order: seq<Key>, history: seq<Key>, sizeLimit: nat, key: Key, order': seq<Key>)
    requires IsRecent(history, sizeLimit, order) && 0 < sizeLimit && Distinct(order)
    requires IsRecent(Without(order, key) + [key], sizeLimit, order')
    ensures IsRecent(Without(history, key) + [key], sizeLimit, order')
  {
    var earlier := history[..|history| - |order|];
    SuffixSplits(order, history);
    WithoutOfTwo(earlier, order, key);
    WithoutLength(order, key);
    if earlier == [] {
      assert Without(earlier, key) == [];
    }
    assert Without(history, key) + [key] == Without(earlier, key) + (Without(order, key) + [key]);
    SuffixOfMore(Without(earlier, key), Without(order, key) + [key], order');
  }

  lemma {:induction false} WithoutKeepsOrder(keys: seq<Key>, key: Key, i: nat, j: nat) returns (i': nat, j': nat)
    requires i < j < |Without(keys, key)|
    ensures i' < j' < |keys| && (keys[i'], keys[j']) == (Without(keys, key)[i], Without(keys, key)[j])
  {
    var rest := keys[1..];
    if keys[0] == key {
      i', j' := WithoutKeepsOrder(rest, key, i, j);
      i', j' := i' + 1, j' + 1;
    } else if i == 0 {
      var k := Without(rest, key)[j - 1];
      WithoutMembers(rest, key, k);
      var at :| 0 <= at < |rest| && rest[at] == k;
      i', j' := 0, at + 1;
    } else {
      i', j' := WithoutKeepsOrder(rest, key, i - 1, j - 1);
      i', j' := i' + 1, j' + 1;
    }
  }

  lemma OlderAtAfterRemembering(m: Memory, memo: map<Key, Entry>, byteLimit: nat, key: Key, entry: Entry, i: nat,
                                j: nat)
    requires FittingTombstonesAreOlder(m, memo, byteLimit) && Partitioned(m)
    requires var written := Remember(m, key, entry, byteLimit);
             && Partitioned(written) && Distinct(written.order)
             && i < |written.order| && j < |written.order|
                && ForgottenAndKept(written, memo[key := entry], byteLimit, i, j)
    ensures i < j
  {
    var others := Without(m.order, key);
    assert i == j ==> i < j;
    if j < i {
      assert i < |others|;
      WithoutMembers(m.order, key, others[i]);
      WithoutMembers(m.order, key, others[j]);
      var j', i' := WithoutKeepsOrder(m.order, key, j, i);
      assert ForgottenAndKept(m, memo, byteLimit, i', j');
    }
  }

  lemma OlderAfterRemembering(m: Memory, memo: map<Key, Entry>, byteLimit: nat, key: Key, entry: Entry,
                              written: Memory, memo': map<Key, Entry>)
    requires FittingTombstonesAreOlder(m, memo, byteLimit) && Partitioned(m)
    requires written == Remember(m, key, entry, byteLimit) && memo' == memo[key := entry] && Partitioned(written)
             && Distinct(written.order)
    ensures FittingTombstonesAreOlder(written, memo', byteLimit)
  {
    forall i: nat, j: nat | i < |written.order| && j < |written.order|
        && ForgottenAndKept(written, memo', byteLimit, i, j)
      ensures i < j
    {
      OlderAtAfterRemembering(m, memo, byteLimit, key, entry, i, j);
    }
  }

  lemma SuffixIsSmaller(keys: seq<Key>, cache: map<Key, Entry>, j: nat, i: nat)
    requires j <= i <= |keys|
    ensures Total(keys[i..], cache) <= Total(keys[j..], cache)
  {
    assert keys[j..] == keys[j..i] + keys[i..];
    TotalOfTwo(keys[j..i], keys[i..], cache);
  }

  lemma PositionBeforeForgetting(written: Memory, after: Memory, k: Key) returns (i: nat)
    requires IsSuffix(after.order, written.order) && k in after.order
    ensures |written.order| - |after.order| <= i < |written.order| && written.order[i] == k
  {
    var p :| 0 <= p < |after.order| && after.order[p] == k;
    i := |written.order| - |after.order| + p;
    assert AgreeFromEnd(after.order, written.order, |after.order| - 1 - p);
  }

  lemma KeyAfterCompletion(written: Memory, byteLimit: nat, after: Memory, k: Key)
    requires Partitioned(after) && k in after.order
    requires IsSuffix(after.order, written.order)
    requires forall i: nat {:trigger Survives(written, byteLimit, after, i)} ::
               |written.order| - |after.order| <= i < |written.order| ==> Survives(written, byteLimit, after, i)
    ensures k in after.cache ==> k in written.cache && after.cache[k] == written.cache[k]
    ensures k in after.tombstones ==>
              if k in written.cache then after.tombstones[k] == written.cache[k].fingerprint
              else k in written.tombstones && after.tombstones[k] == written.tombstones[k]
  {
    var i := PositionBeforeForgetting(written, after, k);
    assert Survives(written, byteLimit, after, i);
  }

  lemma RestIsPartOf(written: Memory, byteLimit: nat, after: Memory, memo: map<Key, Entry>)
    requires PartOf(written, memo, byteLimit) && Partitioned(after)
    requires IsSuffix(after.order, written.order)
    requires forall i: nat {:trigger Survives(written, byteLimit, after, i)} ::
               |written.order| - |after.order| <= i < |written.order| ==> Survives(written, byteLimit, after, i)
    ensures PartOf(after, memo, byteLimit)
  {
    forall k | k in after.cache
      ensures k in memo && memo[k] == after.cache[k] && after.cache[k].bytes <= byteLimit
    {
      KeyAfterCompletion(written, byteLimit, after, k);
    }
    forall k | k in after.tombstones
      ensures k in memo && memo[k].fingerprint == after.tombstones[k]
    {
      KeyAfterCompletion(written, byteLimit, after, k);
    }
  }

  lemma CompletionIsPartOf(m: Memory, memo: map<Key, Entry>, sizeLimit: nat, byteLimit: nat, key: Key, entry: Entry,
                           after: Memory)
    requires PartOf(m, memo, byteLimit) && Completed(m, key, entry, sizeLimit, byteLimit, after)
    ensures PartOf(after, memo[key := entry], byteLimit)
  {
    RestIsPartOf(Remember(m, key, entry, byteLimit), byteLimit, after, memo[key := entry]);
  }

  lemma OlderAtAfterCompletion(written: Memory, byteLimit: nat, after: Memory, memo: map<Key, Entry>, i: nat, j: nat)
    requires i < |written.order| && j < |written.order| && Survives(written, byteLimit, after, i)
             && Survives(written, byteLimit, after, j)
    requires Partitioned(after) && FittingTombstonesAreOlder(written, memo, byteLimit)
    requires written.order[i] in after.tombstones && written.order[i] in memo
             && memo[written.order[i]].bytes <= byteLimit
    requires written.order[j] in after.cache
    ensures i < j
  {
    if written.order[i] in written.cache {
      if j <= i {
        SuffixIsSmaller(written.order, written.cache, j, i);
      }
    } else {
      assert ForgottenAndKept(written, memo, byteLimit, i, j);
    }
  }

  lemma OlderAfterCompletion(written: Memory, byteLimit: nat, after: Memory, memo: map<Key, Entry>)
    requires Partitioned(after) && FittingTombstonesAreOlder(written, memo, byteLimit)
    requires IsSuffix(after.order, written.order)
    requires forall i: nat {:trigger Survives(written, byteLimit, after, i)} ::
               |written.order| - |after.order| <= i < |written.order| ==> Survives(written, byteLimit, after, i)
    ensures FittingTombstonesAreOlder(after, memo, byteLimit)
  {
    var dropped := |written.order| - |after.order|;
    forall i: nat, j: nat | i < |after.order| && j < |after.order| && ForgottenAndKept(after, memo, byteLimit, i, j)
      ensures i < j
    {
      assert AgreeFromEnd(after.order, written.order, |after.order| - 1 - i)
          && AgreeFromEnd(after.order, written.order, |after.order| - 1 - j);
      assert Survives(written, byteLimit, after, dropped + i) && Survives(written, byteLimit, after, dropped + j);
      OlderAtAfterCompletion(written, byteLimit, after, memo, dropped + i, dropped + j);
    }
  }

  lemma CompletionKeepsTombstonesOlder(m: Memory, memo: map<Key, Entry>, sizeLimit: nat, byteLimit: nat, key: Key,
                                       entry: Entry, after: Memory)
    requires FittingTombstonesAreOlder(m, memo, byteLimit) && Consistent(m)
             && Completed(m, key, entry, sizeLimit, byteLimit, after)
    ensures FittingTombstonesAreOlder(after, memo[key := entry], byteLimit)
  {
    var written := Remember(m, key, entry, byteLimit);
    RememberIsConsistent(m, key, entry, byteLimit);
    OlderAfterRemembering(m, memo, byteLimit, key, entry, written, memo[key := entry]);
    OlderAfterCompletion(written, byteLimit, after, memo[key := entry]);
  }

  /** Every completion keeps the refinement. */
  lemma CompletionRefines(m: Memory, memo: map<Key, Entry>, history: seq<Key>, sizeLimit: nat, byteLimit: nat,
                          key: Key, entry: Entry, after: Memory)
    requires Refines(m, memo, history, sizeLimit, byteLimit) && 0 < sizeLimit
    requires Completed(m, key, entry, sizeLimit, byteLimit, after)
    ensures Refines(after, memo[key := entry], Without(history, key) + [key], sizeLimit, byteLimit)
  {
    CompletionKeepsTombstonesOlder(m, memo, sizeLimit, byteLimit, key, entry, after);
    CompletionIsPartOf(m, memo, sizeLimit, byteLimit, key, entry, after);
    RecentAfterCompletion(m.order, history, sizeLimit, key, after.order);
    MovedKeyStaysDistinct(history, key);
    HistoryIsTheMemo(history, memo, key, entry);
  }

  lemma StagesRefine(m: Memory, memo: map<Key, Entry>, history: seq<Key>, sizeLimit: nat, byteLimit: nat, key: Key,
                     entry: Entry, fitted: Memory, after: Memory)
    requires Refines(m, memo, history, sizeLimit, byteLimit) && 0 < sizeLimit
    requires fitted == EvictToFit(Remember(m, key, entry, byteLimit), byteLimit)
             && after == ForgetToCount(fitted, sizeLimit)
    ensures Completed(m, key, entry, sizeLimit, byteLimit, after)
    ensures Refines(after, memo[key := entry], Without(history, key) + [key], sizeLimit, byteLimit)
  {
    StagesComplete(m, key, entry, sizeLimit, byteLimit, fitted, after);
    CompletionRefines(m, memo, history, sizeLimit, byteLimit, key, entry, after);
  }

  lemma HistoryIsTheMemo(history: seq<Key>, memo: map<Key, Entry>, key: Key, entry: Entry)
    requires forall k :: k in history <==> k in memo
    ensures forall k :: k in Without(history, key) + [key] <==> k in memo[key := entry]
  {
    WithoutKeepsOthers(history, key);
  }

  lemma LastOf(keys: seq<Key>, key: Key, suffix: seq<Key>)
    requires 0 < |suffix| && IsSuffix(suffix, keys + [key])
    ensures key in suffix
  {
    assert AgreeFromEnd(suffix, keys + [key], 0);
  }

  lemma LastSuffix(keys: seq<Key>, key: Key, cache: map<Key, Entry>)
    ensures Total((keys + [key])[|keys|..], cache) == BytesOf(key, cache)
  {
    assert (keys + [key])[|keys|..] == [key];
    assert Total([key], cache) == BytesOf(key, cache);
  }

  /** The newest response survives exactly if it fits at all. */
  lemma NewestFittingResponseSurvives(m: Memory, key: Key, entry: Entry, sizeLimit: nat, byteLimit: nat, after: Memory)
    requires 0 < sizeLimit && Completed(m, key, entry, sizeLimit, byteLimit, after)
    ensures key in after.order && (key in after.cache <==> entry.bytes <= byteLimit)
  {
    var others := Without(m.order, key);
    LastOf(others, key, after.order);
    LastSuffix(others, key, Remember(m, key, entry, byteLimit).cache);
    assert Survives(Remember(m, key, entry, byteLimit), byteLimit, after, |others|);
  }

  // The server's maps.

  class CompletedRequests {
    const sizeLimit: nat
    const byteLimit: nat
    var cache: map<Key, Entry>
    var tombstones: map<Key, Fingerprint>
    var order: seq<Key>
    var bytes: int
    ghost var memo: map<Key, Entry>  // the last completion of every key
    ghost var history: seq<Key>  // all completed keys, the latest completion last

    function State(): Memory
      reads this
    {
      Memory(cache, tombstones, order, bytes)
    }

    ghost predicate Valid()
      reads this
    {
      0 < sizeLimit && Refines(State(), memo, history, sizeLimit, byteLimit)
    }

    constructor (sizeLimit: nat, byteLimit: nat)
      requires 0 < sizeLimit
      ensures Valid() && memo == map[] && history == []
      ensures this.sizeLimit == sizeLimit && this.byteLimit == byteLimit
    {
      this.sizeLimit, this.byteLimit := sizeLimit, byteLimit;
      cache, tombstones, order, bytes, memo, history := map[], map[], [], 0, map[], [];
    }

    /** What the server answers from memory, before it looks at requests in flight. */
    function Lookup(key: Key, fingerprint: Fingerprint): (answer: Answer)
      requires Valid()
      reads this
      ensures answer.Hit? || answer.Conflict? ==> answer == Remembered(memo, key, fingerprint)
      ensures answer.ReplayUnavailable? ==> Remembered(memo, key, fingerprint).Hit?
      ensures answer.Hit? <==> key in cache && cache[key].fingerprint == fingerprint
      ensures answer.Miss? <==> key !in order
      ensures IsRecent(history, sizeLimit, order)
    {
      if key in cache then
        if cache[key].fingerprint != fingerprint then Conflict else Hit(cache[key].response)
      else if key in tombstones then
        if tombstones[key] == fingerprint then ReplayUnavailable else Conflict
      else Miss
    }

    method FindOldestCached() returns (i: nat)
      ensures i == OldestCached(order, cache)
    {
      i := 0;
      while i < |order| && order[i] !in cache
        invariant i <= |order|
        invariant OldestCached(order, cache) == i + OldestCached(order[i..], cache)
      {
        i := i + 1;
      }
    }

    method EvictResponses()
      modifies this`cache, this`tombstones, this`bytes
      ensures State() == EvictToFit(old(State()), byteLimit)
    {
      while bytes > byteLimit
        invariant EvictToFit(State(), byteLimit) == EvictToFit(old(State()), byteLimit)
        decreases cache.Keys
      {
        var oldest := FindOldestCached();
        if oldest == |order| {
          break;
        }
        var key := order[oldest];
        var evicted := cache[key];
        cache := cache - {key};
        bytes := bytes - evicted.bytes;
        tombstones := tombstones[key := evicted.fingerprint];
      }
    }

    method ForgetKeys()
      modifies this`cache, this`tombstones, this`bytes, this`order
      ensures State() == ForgetToCount(old(State()), sizeLimit)
    {
      while |order| > sizeLimit
        invariant ForgetToCount(State(), sizeLimit) == ForgetToCount(old(State()), sizeLimit)
        decreases |order|
      {
        var oldest := order[0];
        order := order[1..];
        if oldest in cache {
          bytes := bytes - cache[oldest].bytes;
        }
        cache := cache - {oldest};
        tombstones := tombstones - {oldest};
      }
    }

    method Write(key: Key, entry: Entry)
      modifies this`cache, this`tombstones, this`bytes, this`order
      ensures State() == Remember(old(State()), key, entry, byteLimit)
    {
      if key in cache {
        bytes := bytes - cache[key].bytes;
      }
      cache := cache - {key};
      tombstones := tombstones - {key};
      order := Without(order, key) + [key];
      if entry.bytes <= byteLimit {
        cache := cache[key := entry];
        bytes := bytes + entry.bytes;
      } else {
        tombstones := tombstones[key := entry.fingerprint];
      }
    }

    /** Remembers a completed request. */
    method Complete(key: Key, entry: Entry)
      requires Valid()
      modifies this
      ensures Valid()
      ensures memo == old(memo)[key := entry] && history == Without(old(history), key) + [key]
      ensures Completed(old(State()), key, entry, sizeLimit, byteLimit, State())
    {
      ghost var before := State();
      Write(key, entry);
      EvictResponses();
      ghost var fitted := State();
      ForgetKeys();
      StagesRefine(before, memo, history, sizeLimit, byteLimit, key, entry, fitted, State());
      memo := memo[key := entry];
      history := Without(history, key) + [key];
    }
  }
}
