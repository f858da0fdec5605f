/**
 * Keys of the response cache under which purge snapshots are stored, the
 * pattern the invalidator recognises them by, and the flush that deletes
 * every key of that pattern.
 */
module CacheKeys {
  import opened PurgeUtils

  const KeyPrefix := "purged-"

  /**
   * The regular expression `^purged-.+-.+$`: the prefix, then at least one
   * character, a dash and at least one character, where `.` is any
   * character but a line terminator (and may itself be a dash).
   */
  predicate MatchesPurgeKeyPattern(key: string) {
    && |key| >= |KeyPrefix|
    && key[..|KeyPrefix|] == KeyPrefix
    && SingleLine(key[|KeyPrefix|..])
    && exists i | |KeyPrefix| + 1 <= i < |key| - 1 :: key[i] == '-'
  }

  /** The same pattern read as a grammar: prefix, a non-empty part, a dash, a non-empty part. */
  ghost predicate SplitsAsPurgeKey(key: string) {
    exists a, b :: key == KeyPrefix + a + "-" + b && |a| > 0 && |b| > 0 && SingleLine(a) && SingleLine(b)
  }

  /** A slice of a single-line string is single-line. */
  lemma SingleLineSlice(s: string, lo: nat, hi: nat)
    requires lo <= hi <= |s| && SingleLine(s)
    ensures SingleLine(s[lo..hi])
  {
    assert forall k :: 0 <= k < hi - lo ==> s[lo..hi][k] == s[lo + k];
  }

  lemma MatchesImpliesSplits(key: string)
    requires MatchesPurgeKeyPattern(key)
    ensures SplitsAsPurgeKey(key)
  {
    var n := |KeyPrefix|;
    var i :| n + 1 <= i < |key| - 1 && key[i] == '-';
    var rest := key[n..];
    var a, b := rest[..i - n], rest[i - n + 1..];
    assert rest == a + [rest[i - n]] + b;
    assert rest[i - n] == '-';
    assert key == key[..n] + rest;
    SingleLineSlice(rest, 0, i - n);
    SingleLineSlice(rest, i - n + 1, |rest|);
    assert key == KeyPrefix + a + "-" + b;
  }

  lemma SplitsImpliesMatches(a: string, b: string)
    requires |a| > 0 && |b| > 0 && SingleLine(a) && SingleLine(b)
    ensures MatchesPurgeKeyPattern(KeyPrefix + a + "-" + b)
  {
    var key := KeyPrefix + a + "-" + b;
    var n := |KeyPrefix|;
    var rest := a + "-" + b;
    assert key[..n] == KeyPrefix;
    assert key[n..] == rest;
    forall k | 0 <= k < |rest|
      ensures !IsLineTerminator(rest[k])
    {
      if k < |a| {
        assert rest[k] == a[k];
      } else if k > |a| {
        assert rest[k] == b[k - |a| - 1];
      }
    }
    assert key[n + |a|] == '-';
  }

  lemma MatchesIffSplits(key: string)
    ensures MatchesPurgeKeyPattern(key) <==> SplitsAsPurgeKey(key)
  {
    if MatchesPurgeKeyPattern(key) {
      MatchesImpliesSplits(key);
    }
    if SplitsAsPurgeKey(key) {
      var a, b :| key == KeyPrefix + a + "-" + b && |a| > 0 && |b| > 0 && SingleLine(a) && SingleLine(b);
      SplitsImpliesMatches(a, b);
    }
  }

  /** getCacheKey: `purged-<JSON roles>-<md5 hex of JSON docIds>`. */
  function GetCacheKey(u: Utils, roles: seq<string>, docIds: seq<string>): (key: string)
    ensures |key| > |KeyPrefix| && key[..|KeyPrefix|] == KeyPrefix
    ensures KeyPartsSingleLine(u) && NoRawSeparator(roles) ==> MatchesPurgeKeyPattern(key)
    ensures var roleJson := u.stringify(roles);
            var digest := u.md5Hex(u.stringify(docIds));
            && |key| == |KeyPrefix| + |roleJson| + 1 + |digest|
            && key[|KeyPrefix|..|KeyPrefix| + |roleJson|] == roleJson
            && key[|key| - |digest|..] == digest
  {
    var key := KeyPrefix + u.stringify(roles) + "-" + u.md5Hex(u.stringify(docIds));
    MatchesIffSplits(key);
    key
  }

  /**
   * With digests of one length, a key names one query: equal keys come from
   * the same serialized roles and the same digest of the serialized ids.
   */
  lemma CacheKeyNamesOneQuery(u: Utils, roles: seq<string>, docIds: seq<string>,
                              otherRoles: seq<string>, otherDocIds: seq<string>)
    requires DigestHasFixedLength(u)
    requires GetCacheKey(u, roles, docIds) == GetCacheKey(u, otherRoles, otherDocIds)
    ensures u.stringify(roles) == u.stringify(otherRoles)
    ensures u.md5Hex(u.stringify(docIds)) == u.md5Hex(u.stringify(otherDocIds))
  {
    var key := GetCacheKey(u, roles, docIds);
    assert |u.md5Hex(u.stringify(docIds))| == |u.md5Hex(u.stringify(otherDocIds))| == Md5HexLength;
    assert |u.stringify(roles)| == |key| - |KeyPrefix| - 1 - Md5HexLength == |u.stringify(otherRoles)|;
  }

  /** clearCache: delete exactly the keys that match the pattern; every other entry stays as it was. */
  function ClearCache<V>(cache: map<string, V>): (kept: map<string, V>)
    ensures forall k :: k in kept <==> k in cache && !MatchesPurgeKeyPattern(k)
    ensures forall k :: k in kept ==> kept[k] == cache[k]
  {
    var keysToDelete := set k | k in cache.Keys && MatchesPurgeKeyPattern(k);
    cache - keysToDelete
  }

  /** After a flush no snapshot key built by GetCacheKey from roles without U+2028/U+2029 is left, whatever ids built it. */
  lemma ClearCacheRemovesSnapshots<V>(u: Utils, cache: map<string, V>, roles: seq<string>, docIds: seq<string>)
    requires KeyPartsSingleLine(u)
    requires NoRawSeparator(roles)
    ensures GetCacheKey(u, roles, docIds) !in ClearCache(cache)
  {
  }

  /**
   * The other case: when the serialized roles hold a line terminator (a role
   * containing U+2028 or U+2029 keeps it raw), the key does not match the
   * pattern and its snapshot survives the flush with its value.
   */
  lemma RawSeparatorKeySurvivesFlush<V>(u: Utils, cache: map<string, V>, roles: seq<string>, docIds: seq<string>, at: nat)
    requires at < |u.stringify(roles)| && IsLineTerminator(u.stringify(roles)[at])
    requires GetCacheKey(u, roles, docIds) in cache
    ensures !MatchesPurgeKeyPattern(GetCacheKey(u, roles, docIds))
    ensures GetCacheKey(u, roles, docIds) in ClearCache(cache)
    ensures ClearCache(cache)[GetCacheKey(u, roles, docIds)] == cache[GetCacheKey(u, roles, docIds)]
  {
    var key := GetCacheKey(u, roles, docIds);
    var n := |KeyPrefix|;
    assert key[n..][at] == u.stringify(roles)[at];
  }

  /** Flushing twice is flushing once. */
  lemma ClearCacheIdempotent<V>(cache: map<string, V>)
    ensures ClearCache(ClearCache(cache)) == ClearCache(cache)
  {
  }
}
