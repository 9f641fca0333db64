/** Safety and progress of tombstone collection. */
module Collection {
  import opened Basics
  import opened Ordering
  import opened Manifest
  import opened Versions
  import opened Vault
  import opened VaultChain

  /** Every joined device that is not revoked has acked revision `revision`. */
  ghost predicate AckedByAll(v: VaultState, revision: int) {
    forall d :: d in v.acks && d !in v.revoked ==> v.acks[d] >= revision
  }

  /** The deletion is older than the retention window. */
  predicate Outlived(t: Tombstone, now: int, retention: int) {
    retention <= 0 || now - t.deletedAt >= retention
  }

  /** Exactly when a tombstone may go. */
  lemma ReclaimableIff(v: VaultState, t: Tombstone, now: int, retention: int)
    ensures Reclaimable(v.acks, ActiveDevices(v), t, now, retention) <==>
              && t.deletedRevision.Some? && t.deletedRevision.value > 0
              && AckedByAll(v, t.deletedRevision.value) && Outlived(t, now, retention)
  {
    if t.deletedRevision.Some? {
      var lagging := Lagging(v.acks, ActiveDevices(v), t.deletedRevision.value);
      assert forall d :: d in lagging <==> d in v.acks && d !in v.revoked && v.acks[d] < t.deletedRevision.value;
      if lagging == {} {
        assert AckedByAll(v, t.deletedRevision.value);
      } else {
        var d :| d in lagging;
        assert !AckedByAll(v, t.deletedRevision.value);
      }
    }
  }

  lemma {:induction false} Partition(acks: map<string, nat>, active: set<string>, ts: seq<Tombstone>, now: int, retention: int)
    ensures multiset(Keep(acks, active, ts, now, retention)) + multiset(Reclaim(acks, active, ts, now, retention)) == multiset(ts)
  {
    hide *;
    if ts == [] {
      NothingToPart(acks, active, now, retention);
    } else {
      var init, last := ts[..|ts| - 1], ts[|ts| - 1];
      Partition(acks, active, init, now, retention);
      LastParted(acks, active, ts, now, retention);
      assert ts == init + [last];
    }
  }

  lemma NothingToPart(acks: map<string, nat>, active: set<string>, now: int, retention: int)
    ensures Keep(acks, active, [], now, retention) == [] && Reclaim(acks, active, [], now, retention) == []
  {
  }

  lemma LastParted(acks: map<string, nat>, active: set<string>, ts: seq<Tombstone>, now: int, retention: int)
    requires ts != []
    ensures var init, last := ts[..|ts| - 1], ts[|ts| - 1];
            var goes := Reclaimable(acks, active, last, now, retention);
            && Keep(acks, active, ts, now, retention) == Keep(acks, active, init, now, retention) + (if goes then [] else [last])
            && Reclaim(acks, active, ts, now, retention) == Reclaim(acks, active, init, now, retention) + (if goes then [last] else [])
  {
    hide Reclaimable;
  }

  /** What a collection may do to a vault. */
  ghost predicate SafeSweep(v: VaultState, s: Sweep, now: nat, retention: int) {
    && (forall t :: t in s.reclaimed ==>
          && t.deletedRevision.Some? && t.deletedRevision.value > 0
          && AckedByAll(v, t.deletedRevision.value) && Outlived(t, now, retention))
    && (s.reclaimed == [] ==> s.vault == v)
    && (s.reclaimed != [] ==>
          && v.head in v.manifests && s.vault.head == v.head + 1 && s.vault.head in s.vault.manifests
          && s.vault.manifests[s.vault.head].files == v.manifests[v.head].files
          && multiset(s.vault.manifests[s.vault.head].tombstones) + multiset(s.reclaimed) == multiset(v.manifests[v.head].tombstones)
          && s.vault.acks == v.acks && s.vault.revoked == v.revoked && s.vault.versions == v.versions)
  }

  /** Main result: a reclaimed tombstone was acked by every active device and outlived the window; kept and
      reclaimed partition the head's tombstones; files are untouched. */
  lemma CollectionSafe(env: Env, v: VaultState, now: nat, retention: int, actor: string, runId: string)
    requires EnvOk(env) && AllCanonical(env, v)
    ensures SafeSweep(v, CollectTombstones(env, v, now, retention, actor, runId), now, retention)
  {
    hide CollectTombstones, AllCanonical, EnvOk, CollectedHead, Canonical, Keep, Reclaim, Reclaimable, ActiveDevices, AckedByAll, Outlived;
    if Collects(v, now, retention) {
      CollectionShape(env, v, now, retention, actor, runId);
      var ts := v.manifests[v.head].tombstones;
      Partition(v.acks, ActiveDevices(v), ts, now, retention);
      forall t | t in Reclaim(v.acks, ActiveDevices(v), ts, now, retention)
        ensures t.deletedRevision.Some? && t.deletedRevision.value > 0
        ensures AckedByAll(v, t.deletedRevision.value) && Outlived(t, now, retention)
      {
        ReclaimableIff(v, t, now, retention);
      }
    } else {
      CollectionIdle(env, v, now, retention, actor, runId);
    }
  }

  lemma {:induction false} NothingReclaimed(acks: map<string, nat>, active: set<string>, ts: seq<Tombstone>, now: int, retention: int)
    requires forall t :: t in ts ==> !Reclaimable(acks, active, t, now, retention)
    ensures Reclaim(acks, active, ts, now, retention) == []
  {
    if ts != [] {
      assert ts == ts[..|ts| - 1] + [ts[|ts| - 1]];
      NothingReclaimed(acks, active, ts[..|ts| - 1], now, retention);
    }
  }

  /** Main result: collecting twice at the same time and acks reclaims nothing more. */
  lemma CollectingTwice(env: Env, v: VaultState, now: nat, retention: int, actor: string, runId: string, again: string)
    requires EnvOk(env) && AllCanonical(env, v)
    ensures var w := CollectTombstones(env, v, now, retention, actor, runId).vault;
            CollectTombstones(env, w, now, retention, actor, again).reclaimed == []
            && CollectTombstones(env, w, now, retention, actor, again).vault == w
  {
    var w := CollectTombstones(env, v, now, retention, actor, runId).vault;
    hide CollectTombstones, AllCanonical, EnvOk, CollectedHead, Canonical, Keep, Reclaim, Reclaimable;
    if Collects(v, now, retention) {
      CollectionShape(env, v, now, retention, actor, runId);
      NothingReclaimed(w.acks, ActiveDevices(w), w.manifests[w.head].tombstones, now, retention);
    } else {
      CollectionIdle(env, v, now, retention, actor, runId);
    }
    CollectionIdle(env, w, now, retention, actor, again);
  }

  /** `w` is `v` after more acks or revocations: nobody new holds tombstones back. */
  ghost predicate FurtherAlong(v: VaultState, w: VaultState) {
    && v.head == w.head && v.manifests == w.manifests
    && forall d :: d in w.acks && d !in w.revoked ==> d in v.acks && d !in v.revoked && v.acks[d] <= w.acks[d]
  }

  lemma ReclaimedAre(env: Env, v: VaultState, now: nat, retention: int, actor: string, runId: string, t: Tombstone)
    requires EnvOk(env) && AllCanonical(env, v)
    ensures t in CollectTombstones(env, v, now, retention, actor, runId).reclaimed <==>
              v.head in v.manifests && t in v.manifests[v.head].tombstones && Reclaimable(v.acks, ActiveDevices(v), t, now, retention)
  {
    hide CollectTombstones, AllCanonical, EnvOk, CollectedHead, Canonical, Keep, Reclaim, Reclaimable, ActiveDevices, Advanced;
    if Collects(v, now, retention) {
      CollectionShape(env, v, now, retention, actor, runId);
    } else {
      CollectionIdle(env, v, now, retention, actor, runId);
    }
  }

  /** Main result: more acks, more revocations, a later time or a shorter window reclaim a superset. */
  lemma CollectionMonotone(env: Env, v: VaultState, w: VaultState, now: nat, later: nat, retention: int, shorter: int,
                           actor: string, runId: string, t: Tombstone)
    requires EnvOk(env) && AllCanonical(env, v) && FurtherAlong(v, w) && now <= later && shorter <= retention
    requires t in CollectTombstones(env, v, now, retention, actor, runId).reclaimed
    ensures t in CollectTombstones(env, w, later, shorter, actor, runId).reclaimed
  {
    hide CollectTombstones, EnvOk, Canonical, Reclaimable, ActiveDevices;
    ReclaimedAre(env, v, now, retention, actor, runId, t);
    ReclaimedAre(env, w, later, shorter, actor, runId, t);
    ReclaimableIff(v, t, now, retention);
    ReclaimableIff(w, t, later, shorter);
  }

  /** The acks at which a blocked tombstone stops being held back: the devices it names have caught up, the others kept up. */
  ghost predicate CaughtUp(acks: map<string, nat>, later: map<string, nat>, active: set<string>, b: Blocked, revision: int) {
    forall d :: d in active ==> d in later && (if d in b.devices then later[d] >= revision else d in acks && later[d] >= acks[d])
  }

  /** The reported wait leaves out how far in the future a deletion is dated. */
  function Ahead(t: Tombstone, now: int, retention: int): int {
    if now < t.deletedAt && retention > 0 then t.deletedAt - now else 0
  }

  /** Nothing is reported for a tombstone that could go; once the named devices have caught up it can go exactly when the
      reported time is over, or, for a deletion dated in the future, that much later. */
  lemma BlockedUntil(acks: map<string, nat>, active: set<string>, t: Tombstone, now: int, retention: int,
                     later: map<string, nat>, at: int)
    requires t.deletedRevision.Some? && t.deletedRevision.value > 0
    ensures var b := BlockedBy(acks, active, t, now, retention);
            && (Reclaimable(acks, active, t, now, retention) <==> b.remaining == 0 && b.devices == {})
            && (CaughtUp(acks, later, active, b, t.deletedRevision.value) && at >= now ==>
                  (Reclaimable(later, active, t, at, retention) <==> at >= now + b.remaining + Ahead(t, now, retention)))
  {
    var b := BlockedBy(acks, active, t, now, retention);
    var revision := t.deletedRevision.value;
    if CaughtUp(acks, later, active, b, revision) {
      forall d | d in active
        ensures d !in Lagging(later, active, revision)
      {
        assert d in Lagging(acks, active, revision) <==> d in b.devices;
      }
      assert Lagging(later, active, revision) == {};
    }
  }
}
