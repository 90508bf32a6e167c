/** What the secret's states keep along the log: each goes on from the one before, and a secret gone stays gone. */
module ProxyHistory {
  import opened Options
  import opened ProxyKeys
  import opened ProxyWorld

  predicate WellFormed(c: Config) {
    && (c.rotatedAt.Some? ==> c.replicated != "")
    && (c.agents || c.key.Some? ==> c.rotatedAt.Some?)
    && (c.key.Some? ==> c.key.value.generation > 0 && c.key.value.secret != "")
  }

  /** The record k stays, is replaced by a later generation, or moves on in its own. */
  predicate KeyLater(k: ProxyKey, next: ProxyKey) {
    || next == k || next.generation > k.generation
    || (next.generation == k.generation && next.secret == k.secret && next.NewerThan(k)
        && (next.Phase() != Done ==> next.previous == k.previous))
  }

  predicate Later(c: Config, next: Config) {
    && (c.replicated != "" ==> next.replicated == c.replicated)
    && (c.rotatedAt.Some? ==> next.rotatedAt == c.rotatedAt)
    && (c.agents ==> next.agents)
    && (c.key.Some? ==> next.key.Some? && KeyLater(c.key.value, next.key.value))
  }

  lemma WriteIsLater(c: Config, w: Write)
    requires WellFormed(c) && Allows(c, w)
    ensures WellFormed(Written(c, w)) && Later(c, Written(c, w))
  {
  }

  lemma {:induction false} AllWellFormed(hist: seq<Entry>, legacy: string, skew: nat, k: nat)
    requires HistInv(hist, legacy, skew) && k < |hist|
    ensures WellFormed(hist[k].config)
  {
    if k > 0 {
      AllWellFormed(hist, legacy, skew, k - 1);
      var write := WriteOf(hist, legacy, skew, k);
      WriteIsLater(hist[k - 1].config, write);
    }
  }

  lemma WriteOf(hist: seq<Entry>, legacy: string, skew: nat, k: nat) returns (write: Write)
    requires HistInv(hist, legacy, skew) && 0 < k < |hist|
    ensures Allows(hist[k - 1].config, write) && hist[k].config == Written(hist[k - 1].config, write)
    ensures ByClock(write, hist[k].at, skew) && FreshIn(hist[..k], legacy, write) && hist[k - 1].at <= hist[k].at
  {
    assert Follows(hist, legacy, skew, k);
    write :| Allows(hist[k - 1].config, write) && hist[k].config == Written(hist[k - 1].config, write)
             && ByClock(write, hist[k].at, skew) && FreshIn(hist[..k], legacy, write);
  }

  /** Every state is later than those before it: what was written first is never replaced by less. */
  lemma {:induction false} HistIsLater(hist: seq<Entry>, legacy: string, skew: nat, i: nat, k: nat)
    requires HistInv(hist, legacy, skew) && i <= k < |hist|
    ensures Later(hist[i].config, hist[k].config) && hist[i].at <= hist[k].at
    decreases k
  {
    if i < k {
      HistIsLater(hist, legacy, skew, i, k - 1);
      AllWellFormed(hist, legacy, skew, k - 1);
      var write := WriteOf(hist, legacy, skew, k);
      WriteIsLater(hist[k - 1].config, write);
    }
  }

  /** Every record written is newer than each before it, or is it still. */
  lemma RecordsAreNewer(hist: seq<Entry>, legacy: string, skew: nat, i: nat, k: nat)
    requires HistInv(hist, legacy, skew) && i <= k < |hist| && hist[i].config.key.Some?
    ensures hist[k].config.key.Some?
    ensures hist[k].config.key == hist[i].config.key || hist[k].config.key.value.NewerThan(hist[i].config.key.value)
  {
    HistIsLater(hist, legacy, skew, i, k);
  }

  // --- Gone is gone ---

  /** x is a secret from before the k-th state that it no longer accepts. */
  predicate GoneAt(hist: seq<Entry>, legacy: string, x: string, k: nat)
    requires k < |hist|
  {
    x !in Accepted(legacy, hist[k].config) && exists i :: 0 <= i < k && x in Accepted(legacy, hist[i].config)
  }

  /** A secret the managers no longer accept is never accepted again, at any clock. */
  lemma {:induction false} GoneForGood(hist: seq<Entry>, legacy: string, skew: nat, x: string, k: nat, j: nat)
    requires HistInv(hist, legacy, skew) && k <= j < |hist| && GoneAt(hist, legacy, x, k)
    ensures GoneAt(hist, legacy, x, j)
    decreases j
  {
    if k < j {
      GoneForGood(hist, legacy, skew, x, k, j - 1);
      AllWellFormed(hist, legacy, skew, j - 1);
      var write := WriteOf(hist, legacy, skew, j);
      var i :| 0 <= i < j - 1 && x in Accepted(legacy, hist[i].config);
      if write.Seed? || write.Start? {
        assert hist[..j][i] == hist[i];
        assert Unknown(legacy, hist[..j][i].config, write.secret);
        NewIsNotOld(hist[j - 1].config, legacy, write, x);
      }
    }
  }

  lemma NewIsNotOld(c: Config, legacy: string, write: Write, x: string)
    requires WellFormed(c) && Allows(c, write) && (write.Seed? || write.Start?) && write.secret != x
    requires x !in Accepted(legacy, c)
    ensures x !in Accepted(legacy, Written(c, write))
  {
  }
}
