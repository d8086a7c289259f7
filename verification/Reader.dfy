/** `_oku` as the reader runs it: a sequence of cache calls and early returns. Its contract
    is PollModel.PollOnce; the properties are proved about that function. */
module Readers {
  import opened Wrappers
  import opened CacheModel
  import opened PollModel
  import opened DeviceCaches

  class Reader {
    const cache: DeviceCache
    var auto: Auto
    // What the current poll has asked of the device so far.
    var stringRounds: nat
    var integrityPolls: nat

    constructor (cache: DeviceCache, auto: Auto)
      ensures this.cache == cache && this.auto == auto
    {
      this.cache, this.auto := cache, auto;
      stringRounds, integrityPolls := 0, 0;
    }

    ghost function View(): Master
      reads this, cache
    {
      Master(cache.View(), auto)
    }

    /** `_auto_politikayi_coz`; true means the master was dropped. */
    method ClassifyMode(env: Env, connected: bool, now: Time) returns (dropped: bool)
      requires connected == cache.link.connected
      modifies this`auto, this`integrityPolls, cache`link
      ensures var k := Classify(old(auto), old(cache.link), env, now);
              && auto == k.auto && cache.link == k.link && dropped == k.dropped
              && integrityPolls == old(integrityPolls) + k.integrityPolls
    {
      if !auto.configured {
        return false;
      }
      if env.seen != Unknown {
        if env.seen == auto.known {
          return false;
        }
        auto := auto.(known := env.seen, fallback := false);
        if env.seen == SmartMode {
          return !cache.link.smart;
        }
        cache.ExitSmartIdle();
        dropped := StartScans(env);
        return;
      }
      dropped := AwaitMode(env, connected, now);
    }

    /** The device has not said yet which mode it is in. */
    method AwaitMode(env: Env, connected: bool, now: Time) returns (dropped: bool)
      requires connected == cache.link.connected && auto.configured && env.seen == Unknown
      modifies this`auto, this`integrityPolls, cache`link
      ensures var k := Classify(old(auto), old(cache.link), env, now);
              && auto == k.auto && cache.link == k.link && dropped == k.dropped
              && integrityPolls == old(integrityPolls) + k.integrityPolls
    {
      if !connected {
        auto := auto.(connectedSince := 0.0, classified := false);
        return false;
      }
      if auto.connectedSince == 0.0 {
        auto := auto.(connectedSince := now);
        if !env.initiating && !auto.classified {
          auto := auto.(classified := true);
          integrityPolls := integrityPolls + 1;
        }
        return false;
      }
      if now - auto.connectedSince < AUTO_DECISION_SEC {
        return false;
      }
      if auto.fallback {
        return false;
      }
      auto := auto.(fallback := true);
      dropped := StartScans(env);
    }

    /** `enable_periodic_scans`; when it cannot, the caller drops the master. */
    method StartScans(env: Env) returns (dropped: bool)
      modifies cache`link
      ensures var k := EnableScans(auto, old(cache.link), env); cache.link == k.link && dropped == k.dropped
    {
      if !cache.link.smart || !env.scansStart {
        return true;
      }
      cache.link := cache.link.(smart := false);
      return false;
    }

    /** `_smart_idle_denetle` */
    method CheckIdle(env: Env, connected: bool, now: Time) returns (asleep: bool)
      modifies cache`link
      ensures (cache.link, asleep) == CheckSmartIdle(old(cache.link), env, connected, now)
    {
      var _ := cache.ConsumeSmartWakeup();
      if cache.link.idleSince == 0.0 {
        if env.initiating || connected {
          return false;
        }
        if env.silenceLimit != 0.0 && SilenceAge(cache.link, env, now) > env.silenceLimit {
          return false;
        }
        var _ := cache.EnterSmartIdle(env.createdAt != 0.0, now);
      }
      if env.silenceLimit != 0.0 {
        if SilenceAge(cache.link, env, now) > env.silenceLimit {
          var _ := cache.SmartIdleToLost();
          return false;
        }
      }
      return true;
    }

    /** The stale edge, the grace timeout and the way out of `lost`. */
    method JudgeLink(stale: bool, now: Time) returns (entered: nat, relinked: bool)
      modifies this`integrityPolls, cache`link
      ensures var j := Judge(old(cache.link), stale, now);
              && cache.link == j.link && entered == j.entered && relinked == j.relinked
              && integrityPolls == old(integrityPolls) + j.integrityPolls
    {
      var smart := cache.link.smart;
      entered, relinked := 0, false;
      if cache.link.connected && stale && cache.link.mode == Online && !smart {
        cache.BeginRecovery(now);
        entered := 1;
        integrityPolls := integrityPolls + 1;
      }
      if cache.link.mode == Recovering {
        if RecoveryAge(cache.link, now) > RECOVERY_GRACE_SEC {
          cache.FailRecovery();
        }
      }
      if cache.link.mode == Lost && cache.link.connected && !stale && RelinkAllowed(cache.link) {
        cache.BeginRecovery(now);
        entered := entered + 1;
        relinked := true;
        if !smart {
          integrityPolls := integrityPolls + 1;
        }
      }
    }

    /** `_degisenleri_yayinla` */
    method Changes(keys: seq<Key>) returns (tokens: seq<Taken>)
      ensures tokens == TakeDirty(cache.StoreView(), keys)
    {
      tokens := [];
      for i := 0 to |keys|
        invariant tokens == TakeDirty(cache.StoreView(), keys[..i])
      {
        var taken := cache.PeekIfDirty(keys[i]);
        if taken.Some? {
          tokens := tokens + [taken.value];
        }
        assert keys[..i + 1][..i] == keys[..i];
      }
      assert keys[..|keys|] == keys;
    }

    /** The readings of a poll that got past the idle check. */
    method Say(env: Env, now: Time) returns (out: Emission)
      modifies cache
      ensures var said := Speak(old(cache.View()), env, now); cache.View() == said.cache && out == said.out
    {
      if cache.link.mode != Online {
        if cache.link.smart && cache.link.mode == Recovering {
          var defer := cache.CommLostDeferrable(RECOVERY_GRACE_SEC, now);
          if defer {
            return Deferred;
          }
        }
        var announced, generation := cache.BeginStaleAnnounce();
        return if announced then Repeated else CommLost(generation);
      }
      var recovered := cache.ConsumeRecoveryPublish();
      if recovered {
        cache.ResetStaleAnnounce();
        var _ := cache.MarkAllDirty();
      }
      var tokens := Changes(env.keys);
      return Values(tokens);
    }

    /** From the stale edge to the readings: what a sleeping device does not reach. */
    method ReadAwake(stale: bool, env: Env, now: Time) returns (out: Emission, resets: bool, probes: bool)
      modifies this`integrityPolls, cache
      ensures var w := WakePoll(old(cache.View()), stale, env, now);
              && cache.View() == w.cache && out == w.out && resets == w.resets && probes == w.probes
              && integrityPolls == old(integrityPolls) + w.integrityPolls
    {
      hide Speak, Judge;
      resets := cache.link.connected && !stale;
      var _, relinked := JudgeLink(stale, now);
      if relinked {
        resets := true;
      }
      probes := cache.link.mode == Lost && !cache.link.smart;
      if cache.link.mode == Online {
        resets := true;
      }
      out := Say(env, now);
    }

    /** The string requests of this poll, at most one round. */
    method AskStrings(connected: bool, smart: bool, now: Time)
      modifies this`stringRounds, cache`g110
      ensures var due := connected && StringsDue(old(cache.g110), if smart then 1 else G110_MAX_ATTEMPTS, now);
              && cache.g110 == (if due then CountStringRequest(old(cache.g110), now) else old(cache.g110))
              && stringRounds == if due then 1 else 0
    {
      stringRounds := 0;
      if connected {
        var due := cache.StringsNeeded(if smart then 1 else G110_MAX_ATTEMPTS, now);
        if due {
          stringRounds := 1;
        }
      }
    }

    /** `_oku` */
    method ReadDevice(env: Env, now: Time) returns (out: Emission, resets: bool, asksForData: bool, probes: bool)
      modifies this, cache
      ensures var poll := PollOnce(old(View()), env, now);
              && View() == poll.after && out == poll.out
              && stringRounds == poll.stringRounds && integrityPolls == poll.integrityPolls
              && resets == poll.resets && asksForData == poll.asksForData && probes == poll.probes
    {
      hide Classify, CheckSmartIdle, WakePoll, TakeDirty, StringsDue, CountStringRequest, DataStale;
      stringRounds, integrityPolls := 0, 0;
      resets, asksForData, probes := false, false, false;
      var connected := cache.link.connected;
      var dropped := ClassifyMode(env, connected, now);
      if dropped {
        out := Dropped;
        return;
      }
      var smart := cache.link.smart;
      AskStrings(connected, smart, now);
      var stale := cache.link.lastEvidenceAt == 0.0 || now - cache.link.lastEvidenceAt > env.threshold;
      asksForData := connected && !stale && DataStale(cache.link, env, now) && !smart;
      if smart {
        var asleep := CheckIdle(env, connected, now);
        if asleep {
          var tokens := Changes(env.keys);
          out := Values(tokens);
          return;
        }
      }
      out, resets, probes := ReadAwake(stale, env, now);
    }
  }
}
