/** `_DeviceCache` in its own form: an object whose methods update its fields. Each method
    runs under the object's lock, so one call is one step; its contract ties the new state
    to the specification in CacheModel. Wall-clock display fields, IIN flags and the device
    clock observation are not part of this model. */
module DeviceCaches {
  import opened Wrappers
  import opened CacheModel
  import opened StoreLaws

  class DeviceCache {
    var order: seq<Key>
    var values: map<Key, Entry>
    var versions: map<Key, nat>
    var versionSeq: nat
    var dirty: set<Key>
    var staleAnnounced: bool
    var staleGeneration: nat
    var g110: G110
    /** The scalar fields of the link state machine, grouped in one record. */
    var link: Link

    ghost function StoreView(): Store
      reads this
    {
      Store(order, values, versions, versionSeq, dirty)
    }

    ghost function View(): Cache
      reads this
    {
      Cache(StoreView(), link, Announce(staleAnnounced, staleGeneration), g110)
    }

    constructor (smart: bool)
      ensures View() == NewCache(smart)
      ensures ValidStore(StoreView())
    {
      order, values, versions, versionSeq, dirty := [], map[], map[], 0, {};
      staleAnnounced, staleGeneration := false, 0;
      g110 := G110(false, false, 0, 0.0);
      link := NewLink(smart);
    }

    method Set(key: Key, entry: Entry, now: Time)
      modifies this
      ensures View() == Measure(old(View()), key, entry, now)
    {
      if key.group == OBJECT_GROUP_STRING {
        g110 := g110.(arrived := true, waiting := false);
      }
      StoreValue(key, entry);
      link := link.(lastUpdateAt := now, evidenceSeq := link.evidenceSeq + 1, lastEvidenceAt := now);
      link := link.(sessionEvidence := true, lastContact := now);
      if link.mode == Recovering && now >= link.recoveryAnchorAt {
        link := link.(mode := Online, pendingRecovery := true, deferralStartedAt := 0.0);
        var _ := MarkAllDirty();
      }
    }

    /** The value, dirty and version part of `set`. */
    method StoreValue(key: Key, entry: Entry)
      modifies this`order, this`values, this`dirty, this`versionSeq, this`versions
      ensures StoreView() == StoreSet(old(StoreView()), key, entry)
    {
      var known := key in values;
      var changed := !known || values[key].sample != entry.sample;
      if !known {
        order := order + [key];
      }
      values := values[key := entry];
      if changed {
        dirty := dirty + {key};
        versionSeq := versionSeq + 1;
        versions := versions[key := versionSeq];
      }
    }

    /** Also the body of `_mark_all_dirty_unsafe`. */
    method MarkAllDirty() returns (count: nat)
      modifies this`dirty, this`versionSeq, this`versions
      ensures StoreView() == CacheModel.MarkAllDirty(old(StoreView()))
      ensures count == |order|
    {
      count := 0;
      for i := 0 to |order|
        invariant StoreView() == TouchAll(old(StoreView()), order[..i])
        invariant count == i
      {
        dirty := dirty + {order[i]};
        versionSeq := versionSeq + 1;
        versions := versions[order[i] := versionSeq];
        count := count + 1;
        assert order[..i + 1][..i] == order[..i];
      }
      assert order[..|order|] == order;
    }

    method PeekIfDirty(key: Key) returns (taken: Option<Taken>)
      ensures taken == CacheModel.PeekIfDirty(StoreView(), key)
    {
      if key !in dirty || key !in values {
        return None;
      }
      return Some(Taken(key, if key in versions then versions[key] else 0, values[key]));
    }

    method CommitPublished(items: seq<Taken>) returns (cleared: nat)
      modifies this`dirty
      ensures StoreView() == CacheModel.CommitPublished(old(StoreView()), items)
      ensures cleared == |old(dirty)| - |dirty|
    {
      cleared := 0;
      ghost var s := old(StoreView());
      for i := 0 to |items|
        invariant dirty == set k | k in s.dirty && !Acknowledged(s, items[..i], k)
        invariant cleared == |s.dirty| - |dirty|
      {
        var key := items[i].key;
        if key in dirty {
          if (if key in versions then versions[key] else 0) == items[i].version {
            dirty := dirty - {key};
            cleared := cleared + 1;
          }
        }
        AcknowledgedPrefix(s, items, i);
      }
      assert items[..|items|] == items;
    }

    method BeginStaleAnnounce() returns (announced: bool, generation: nat)
      ensures announced == staleAnnounced && generation == staleGeneration
    {
      return staleAnnounced, staleGeneration;
    }

    method ConfirmStaleAnnounced(generation: nat) returns (took: bool)
      modifies this`staleAnnounced
      ensures View().announce == ConfirmStale(old(View().announce), generation)
      ensures took <==> staleAnnounced != old(staleAnnounced)
    {
      if generation != staleGeneration || staleAnnounced {
        return false;
      }
      staleAnnounced := true;
      return true;
    }

    method ResetStaleAnnounce()
      modifies this`staleAnnounced, this`staleGeneration
      ensures View().announce == ResetStale(old(View().announce))
    {
      staleAnnounced := false;
      staleGeneration := staleGeneration + 1;
    }

    method RequestStrings()
      modifies this`g110
      ensures g110 == CacheModel.RequestStrings(old(g110))
    {
      g110 := g110.(waiting := true, arrived := false);
      g110 := g110.(attempts := 0, nextAt := 0.0);
    }

    /** `g110_gerekli`: true means the caller sends one round of string requests now. */
    method StringsNeeded(ceiling: nat, now: Time) returns (due: bool)
      modifies this`g110
      ensures due <==> StringsDue(old(g110), ceiling, now)
      ensures g110 == if due then CountStringRequest(old(g110), now) else old(g110)
    {
      if !g110.waiting || g110.arrived {
        return false;
      }
      if now < g110.nextAt || g110.attempts >= ceiling {
        return false;
      }
      g110 := g110.(attempts := g110.attempts + 1);
      g110 := g110.(nextAt := now + StringDelay(g110.attempts));
      return true;
    }

    method SetConnected(ok: bool, now: Time)
      modifies this`link, this`g110
      ensures View() == CacheModel.SetConnected(old(View()), ok, now)
    {
      if ok && !link.connected {
        link := link.(linkOpenedAt := now, recoveryFailedSeq := None);
        if link.idleSince != 0.0 {
          link := link.(wakeupPending := if now > link.idleSince then now - link.idleSince else 0.0, idleSince := 0.0);
        }
        link := link.(sessionEvidence := false);
      } else if !ok {
        if link.smart && link.sessionEvidence {
          link := link.(idleSince := now);
        }
        link := link.(linkOpenedAt := 0.0);
        g110 := G110(false, false, 0, 0.0);
      }
      link := link.(connected := ok);
      if !ok {
        link := link.(mode := if link.idleSince != 0.0 then SmartIdle else Lost);
        link := link.(recoveryStartedAt := 0.0, recoveryAnchorAt := 0.0, pendingRecovery := false);
        link := link.(lastEvidenceAt := 0.0);
      }
    }

    method NoteEvidence(now: Time)
      modifies this`link
      ensures View() == CacheModel.NoteEvidence(old(View()), now)
    {
      link := link.(lastEvidenceAt := now, evidenceSeq := link.evidenceSeq + 1);
      link := link.(sessionEvidence := true, lastContact := now);
    }

    method BeginRecovery(now: Time)
      modifies this`link
      ensures link == CacheModel.BeginRecovery(old(link), now)
    {
      if link.mode == Recovering {
        return;
      }
      link := link.(mode := Recovering, recoveryStartedAt := now, recoveryAnchorAt := now);
      link := link.(pendingRecovery := false, recoveryFailedSeq := None);
    }

    method FailRecovery()
      modifies this`link
      ensures link == CacheModel.FailRecovery(old(link))
    {
      if link.mode == Recovering {
        link := link.(mode := Lost, recoveryStartedAt := 0.0, recoveryAnchorAt := 0.0);
        link := link.(pendingRecovery := false, recoveryFailedSeq := Some(link.evidenceSeq));
      }
    }

    method CommLostDeferrable(grace: Time, now: Time) returns (defer: bool)
      modifies this`link
      ensures (link, defer) == DeferCommLost(old(link), grace, now)
    {
      if link.deferralStartedAt == 0.0 {
        link := link.(deferralStartedAt := now);
        return true;
      }
      return now - link.deferralStartedAt <= if grace > 0.0 then grace else 0.0;
    }

    method EnterSmartIdle(anchor: bool, now: Time) returns (entered: bool)
      modifies this`link
      ensures link == CacheModel.EnterSmartIdle(old(link), anchor, now)
      ensures entered <==> old(link).idleSince == 0.0
    {
      if link.idleSince != 0.0 {
        return false;
      }
      link := link.(idleSince := now, mode := SmartIdle);
      if link.lastContact == 0.0 && anchor {
        link := link.(lastContact := now);
      }
      return true;
    }

    method ExitSmartIdle()
      modifies this`link
      ensures link == CacheModel.ExitSmartIdle(old(link))
    {
      link := link.(idleSince := 0.0);
    }

    method SmartIdleToLost() returns (moved: bool)
      modifies this`link
      ensures link == CacheModel.SmartIdleToLost(old(link))
      ensures moved <==> old(link).idleSince != 0.0
    {
      if link.idleSince == 0.0 {
        return false;
      }
      link := link.(idleSince := 0.0, sessionEvidence := false);
      link := link.(mode := Lost);
      return true;
    }

    method ConsumeSmartWakeup() returns (duration: Time)
      modifies this`link
      ensures duration == old(link).wakeupPending
      ensures link == old(link).(wakeupPending := -1.0)
    {
      duration := link.wakeupPending;
      link := link.(wakeupPending := -1.0);
    }

    method ConsumeRecoveryPublish() returns (pending: bool)
      modifies this`link
      ensures pending == old(link).pendingRecovery
      ensures link == old(link).(pendingRecovery := false)
    {
      pending := link.pendingRecovery;
      link := link.(pendingRecovery := false);
    }
  }
}
