/**
 The internal-proxy header and its replay cache (internal/auth/proxyauth.go): the swept cache decides
 as a history of every header ever accepted would. Times are in milliseconds.
 */
module ProxyAuth {
  import opened Options

  const PROXY_CLOCK_SKEW := 30_000
  const NONCE_CACHE_TTL := 60_000
  const SAME_REQUEST_WINDOW := 50
  const CACHE_SOFT_CAP := 2_048

  /** HMAC-SHA256 over a header and the request it is for, as a term. */
  datatype Mac = Mac(secret: string, tsText: string, nonce: string, verb: string, path: string)

  /** A header's three parts; ts is what its first part reads as, if it does. */
  datatype Header = Header(tsText: string, ts: Option<int>, nonce: string, mac: Mac)

  predicate InWindow(h: Header, now: int) {
    h.ts.Some? && now - PROXY_CLOCK_SKEW <= h.ts.value <= now + PROXY_CLOCK_SKEW
  }

  predicate SignedBy(secret: string, h: Header, verb: string, path: string) {
    h.mac == Mac(secret, h.tsText, h.nonce, verb, path)
  }

  /** Some accepted secret signed h for this request, at about now. */
  predicate Genuine(accept: seq<string>, h: Header, verb: string, path: string, now: int) {
    InWindow(h, now) && exists i :: 0 <= i < |accept| && accept[i] != "" && SignedBy(accept[i], h, verb, path)
  }

  /** SignProxyRequestV2With: the header for a request; none without a key. */
  function SignProxyRequestV2With(key: string, verb: string, path: string, nonce: string, tsText: string, ts: int): Option<Header> {
    if key == "" then None else Some(Header(tsText, Some(ts), nonce, Mac(key, tsText, nonce, verb, path)))
  }

  /** A header is good for the request it was signed for, where its key is accepted, near its time, and for no other. */
  lemma SignedIsGenuineIff(key: string, verb: string, path: string, nonce: string, tsText: string, ts: int,
                           accept: seq<string>, verb': string, path': string, now: int)
    requires key != ""
    ensures Genuine(accept, SignProxyRequestV2With(key, verb, path, nonce, tsText, ts).value, verb', path', now)
            <==> key in accept && verb == verb' && path == path' && now - 30_000 <= ts <= now + 30_000
  {
    var h := SignProxyRequestV2With(key, verb, path, nonce, tsText, ts).value;
    if key in accept && verb == verb' && path == path' {
      var i :| 0 <= i < |accept| && accept[i] == key;
      assert SignedBy(accept[i], h, verb, path);
    }
  }

  /** One time a header was let in. */
  datatype Entry = Entry(nonce: string, at: int)

  /** When a nonce was first let in, and the time its header carries. */
  datatype First = First(at: int, ts: int)

  class NonceCache {
    var sign: string
    var accept: seq<string>
    var cache: map<string, int>
    // Every nonce ever let in, every time one was, and the newest time asked about.
    ghost var history: map<string, First>
    ghost var entries: seq<Entry>
    ghost var latest: int

    /** The cache holds all of the history but what is too old to come again in time. */
    ghost predicate Valid()
      reads this
    {
      && (forall n :: n in cache ==> n in history && cache[n] == history[n].at)
      && (forall n :: n in history ==>
            && history[n].at <= latest && history[n].ts <= history[n].at + PROXY_CLOCK_SKEW
            && (n in cache || latest - history[n].at > NONCE_CACHE_TTL))
      && (forall i :: 0 <= i < |entries| ==>
            && entries[i].nonce in history
            && history[entries[i].nonce].at <= entries[i].at <= history[entries[i].nonce].at + SAME_REQUEST_WINDOW)
    }

    /** What a history of everything would say of the nonce. */
    ghost predicate Unused(nonce: string, now: int)
      reads this
    {
      nonce !in history || now - history[nonce].at <= 50
    }

    /** A nonce is drawn for one header: one let in before came with the same time. */
    ghost predicate OneHeader(h: Header)
      reads this
    {
      h.nonce in history ==> h.ts == Some(history[h.nonce].ts)
    }

    constructor (now: int)
      ensures Valid() && history == map[] && entries == [] && latest == now && accept == [] && sign == ""
    {
      sign, accept, cache := "", [], map[];
      history, entries, latest := map[], [], now;
    }

    method SetProxySecrets(sign: string, accept: seq<string>)
      requires Valid()
      modifies `sign, `accept
      ensures Valid() && this.sign == sign && this.accept == accept
    {
      this.sign, this.accept := sign, accept;
    }

    /** Drops what is past its life, once the cache is large. */
    method Sweep(now: int)
      requires Valid() && latest == now
      modifies `cache
      ensures Valid()
      ensures forall n :: n in cache <==> n in old(cache) && (|old(cache)| <= CACHE_SOFT_CAP || now - old(cache)[n] <= NONCE_CACHE_TTL)
    {
      if |cache| > CACHE_SOFT_CAP {
        var left := cache.Keys;
        while left != {}
          invariant left <= cache.Keys && Valid()
          invariant forall n :: n in cache <==> n in old(cache) && (n in left || now - old(cache)[n] <= NONCE_CACHE_TTL)
          invariant forall n :: n in cache ==> cache[n] == old(cache)[n]
          decreases left
        {
          var n :| n in left;
          left := left - {n};
          if now - cache[n] > NONCE_CACHE_TTL {
            cache := cache - {n};
          }
        }
      }
    }

    /** Lets a nonce in once, and again within a request's own time. */
    method RegisterNonce(h: Header, now: int) returns (ok: bool)
      requires Valid() && latest <= now && InWindow(h, now) && OneHeader(h)
      modifies `cache, `history, `entries, `latest
      ensures Valid() && latest == now
      ensures ok == old(Unused(h.nonce, now))
      ensures history == if h.nonce in old(history) then old(history) else old(history)[h.nonce := First(now, h.ts.value)]
      ensures entries == if ok then old(entries) + [Entry(h.nonce, now)] else old(entries)
    {
      latest := now;
      if h.nonce in cache {
        if now - cache[h.nonce] <= SAME_REQUEST_WINDOW {
          entries := entries + [Entry(h.nonce, now)];
          return true;
        }
        if now - cache[h.nonce] <= NONCE_CACHE_TTL {
          return false;
        }
      }
      cache := cache[h.nonce := now];
      history := history[h.nonce := First(now, h.ts.value)];
      entries := entries + [Entry(h.nonce, now)];
      Sweep(now);
      return true;
    }

    /** A header under one secret; a nonce is taken only when the MAC matches. */
    method ValidateV2(secret: string, h: Header, verb: string, path: string, now: int) returns (ok: bool)
      requires Valid() && latest <= now && OneHeader(h)
      modifies `cache, `history, `entries, `latest
      ensures Valid() && latest == now
      ensures ok == (InWindow(h, now) && SignedBy(secret, h, verb, path) && old(Unused(h.nonce, now)))
      ensures !SignedBy(secret, h, verb, path) ==> history == old(history) && entries == old(entries)
      ensures ok ==> h.nonce in history && entries == old(entries) + [Entry(h.nonce, now)]
      ensures !ok ==> history == old(history) && entries == old(entries)
      ensures ok ==> history == if h.nonce in old(history) then old(history) else old(history)[h.nonce := First(now, h.ts.value)]
    {
      latest := now;
      if h.ts == None {
        return false;
      }
      if h.ts.value < now - PROXY_CLOCK_SKEW || h.ts.value > now + PROXY_CLOCK_SKEW {
        return false;
      }
      if h.mac != Mac(secret, h.tsText, h.nonce, verb, path) {
        return false;
      }
      ok := RegisterNonce(h, now);
    }

    /**
     A request is a cluster call when an accepted secret signed its header for it, about now, and the
     header was never let in before, or no longer than 50 milliseconds ago: just what the history of
     all that was ever let in says, whatever the sweeps have dropped. Every time a header is let in is
     within 50 milliseconds of its first.
     */
    method IsInternalProxyRequest(header: Option<Header>, verb: string, path: string, now: int) returns (ok: bool)
      requires Valid() && latest <= now && (header.Some? ==> OneHeader(header.value))
      modifies `cache, `history, `entries, `latest
      ensures Valid()
      ensures ok == (header.Some? && Genuine(accept, header.value, verb, path, now) && old(Unused(header.value.nonce, now)))
      ensures entries == if ok then old(entries) + [Entry(header.value.nonce, now)] else old(entries)
      ensures history == if ok && header.value.nonce !in old(history)
                         then old(history)[header.value.nonce := First(now, header.value.ts.value)] else old(history)
    {
      if |accept| == 0 {
        return false;
      }
      if header == None {
        return false;
      }
      var h := header.value;
      for i := 0 to |accept|
        invariant Valid() && latest <= now && history == old(history) && entries == old(entries)
        invariant old(Unused(h.nonce, now)) && InWindow(h, now) ==>
                    forall j :: 0 <= j < i && accept[j] != "" ==> !SignedBy(accept[j], h, verb, path)
      {
        if accept[i] != "" {
          var good := ValidateV2(accept[i], h, verb, path, now);
          if good {
            return true;
          }
        }
      }
      return false;
    }
  }
}
