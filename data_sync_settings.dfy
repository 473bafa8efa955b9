/**
 * The data sync screen (app/data-sync-settings.tsx): five switches and the
 * manual sync, whose progress an interval timer advances by ten per tick until
 * a tick finds it at 100 and stops the timer. Each timer callback is one call
 * of `Tick`; the 200 ms period is not modelled.
 */
module DataSyncSettings {
  import opened Switches

  datatype SyncSetting = AutoSync | OfflineMode | WifiOnly | BackgroundSync | DataCompression

  predicate Complete(m: map<SyncSetting, bool>) {
    forall k: SyncSetting :: k in m
  }

  const InitialSettings: map<SyncSetting, bool> := map[
    AutoSync := true, OfflineMode := false, WifiOnly := true,
    BackgroundSync := true, DataCompression := true
  ]

  const InitialLastSync := "2024-01-15 08:30 AM"

  /**
   * `syncProgress`, `isSyncing`, `lastSync`, and whether the interval timer
   * is still registered.
   */
  datatype SyncStatus = SyncStatus(progress: int, syncing: bool, timer: bool, lastSync: string)

  /** Progress is a multiple of ten between 0 and 100, and the timer runs exactly while syncing. */
  predicate Consistent(s: SyncStatus) {
    0 <= s.progress <= 100 && s.progress % 10 == 0 && s.syncing == s.timer
  }

  /** `handleManualSync`: resets the progress and registers the timer. */
  function Start(s: SyncStatus): (r: SyncStatus)
    requires !s.syncing
    ensures Consistent(r) && r.progress == 0 && r.syncing
    ensures r.lastSync == s.lastSync
  {
    SyncStatus(0, true, true, s.lastSync)
  }

  /** One timer callback; `now` is the clock text the callback reads when it finishes. */
  function Advance(s: SyncStatus, now: string): (r: SyncStatus)
    requires s.timer
    ensures s.progress < 100 ==> r == s.(progress := s.progress + 10)
    ensures s.progress >= 100 ==> r == SyncStatus(100, false, false, now)
  {
    if s.progress >= 100 then SyncStatus(100, false, false, now)
    else s.(progress := s.progress + 10)
  }

  /** A tick keeps the status consistent. */
  lemma AdvanceKeepsConsistent(s: SyncStatus, now: string)
    requires Consistent(s) && s.timer
    ensures Consistent(Advance(s, now))
  {
  }

  /** The status after `n` timer callbacks; callbacks stop once the timer is cleared. */
  function Ticks(s: SyncStatus, n: nat, now: string): (r: SyncStatus)
    ensures Consistent(s) ==> Consistent(r) && r.progress >= s.progress
    ensures !s.timer ==> r == s
    decreases n
  {
    if n == 0 || !s.timer then s
    else if Consistent(s) then
      AdvanceKeepsConsistent(s, now);
      Ticks(Advance(s, now), n - 1, now)
    else Ticks(Advance(s, now), n - 1, now)
  }

  /** How many callbacks run before the timer is cleared, from a consistent running status. */
  function TicksLeft(s: SyncStatus): (n: nat)
    requires Consistent(s) && s.timer
    ensures n == (100 - s.progress) / 10 + 1
    decreases 100 - s.progress
  {
    if s.progress >= 100 then 1 else 1 + TicksLeft(s.(progress := s.progress + 10))
  }

  /** Until the last callback the sync keeps running, ten points further per callback. */
  lemma {:induction false} TicksBeforeEnd(s: SyncStatus, n: nat, now: string)
    requires Consistent(s) && s.timer && n < TicksLeft(s)
    ensures Ticks(s, n, now) == s.(progress := s.progress + 10 * n)
    decreases n
  {
    if n > 0 {
      AdvanceKeepsConsistent(s, now);
      var t := Advance(s, now);
      assert t == s.(progress := s.progress + 10);
      TicksBeforeEnd(t, n - 1, now);
    }
  }

  /** The last callback finishes the sync at 100 and records the time. */
  lemma TicksToEnd(s: SyncStatus, now: string)
    requires Consistent(s) && s.timer
    ensures Ticks(s, TicksLeft(s), now) == SyncStatus(100, false, false, now)
  {
    var n := TicksLeft(s) - 1;
    TicksBeforeEnd(s, n, now);
    var t := Ticks(s, n, now);
    assert t.progress == 100;
    forall m: nat | m <= n
      ensures Ticks(s, m, now).timer
    {
      TicksBeforeEnd(s, m, now);
    }
    TicksThenOne(s, n, now);
  }

  lemma {:induction false} TicksThenOne(s: SyncStatus, n: nat, now: string)
    requires forall m: nat :: m <= n ==> Ticks(s, m, now).timer
    ensures Ticks(s, n + 1, now) == Advance(Ticks(s, n, now), now)
    decreases n
  {
    assert Ticks(s, 0, now).timer;
    if n > 0 {
      forall m: nat | m <= n - 1
        ensures Ticks(Advance(s, now), m, now).timer
      {
        assert Ticks(s, m + 1, now).timer;
      }
      TicksThenOne(Advance(s, now), n - 1, now);
    }
  }

  /** A manual sync runs for exactly eleven callbacks: ten steps of ten and one that stops. */
  lemma ManualSyncTakesElevenTicks(s: SyncStatus, now: string)
    requires !s.syncing
    ensures TicksLeft(Start(s)) == 11
    ensures forall n :: 0 <= n < 11 ==> Ticks(Start(s), n, now).progress == 10 * n &&
                                         Ticks(Start(s), n, now).syncing
    ensures Ticks(Start(s), 11, now) == SyncStatus(100, false, false, now)
  {
    forall n | 0 <= n < 11
      ensures Ticks(Start(s), n, now).progress == 10 * n && Ticks(Start(s), n, now).syncing
    {
      TicksBeforeEnd(Start(s), n, now);
    }
    TicksToEnd(Start(s), now);
  }

  /** The screen's state, updated in place. */
  class SyncScreen {
    var settings: map<SyncSetting, bool>
    var syncProgress: int
    var isSyncing: bool
    var lastSync: string
    var intervalActive: bool

    function Status(): SyncStatus
      reads this
    {
      SyncStatus(syncProgress, isSyncing, intervalActive, lastSync)
    }

    ghost predicate Valid()
      reads this
    {
      Complete(settings) && Consistent(Status())
    }

    constructor ()
      ensures Valid()
      ensures settings == InitialSettings
      ensures Status() == SyncStatus(0, false, false, InitialLastSync)
    {
      settings := InitialSettings;
      syncProgress := 0;
      isSyncing := false;
      lastSync := InitialLastSync;
      intervalActive := false;
      forall k: SyncSetting ensures k in InitialSettings {
        match k
        case AutoSync =>
        case OfflineMode =>
        case WifiOnly =>
        case BackgroundSync =>
        case DataCompression =>
      }
    }

    /** `toggleSetting`: flips one switch, and nothing about the sync changes. */
    method ToggleSetting(key: SyncSetting)
      requires Valid()
      modifies this
      ensures Valid()
      ensures settings == Toggle(old(settings), key)
      ensures Status() == old(Status())
    {
      settings := settings[key := !settings[key]];
    }

    /** The "Sync Now" button, which is disabled while a sync runs. */
    method HandleManualSync()
      requires Valid() && !isSyncing
      modifies this
      ensures Valid()
      ensures Status() == Start(old(Status()))
      ensures settings == old(settings)
    {
      isSyncing := true;
      syncProgress := 0;
      intervalActive := true;
    }

    /** One callback of the registered interval timer. */
    method Tick(now: string)
      requires Valid() && intervalActive
      modifies this
      ensures Valid()
      ensures Status() == Advance(old(Status()), now)
      ensures settings == old(settings)
    {
      if syncProgress >= 100 {
        intervalActive := false;
        isSyncing := false;
        lastSync := now;
        syncProgress := 100;
      } else {
        syncProgress := syncProgress + 10;
      }
    }

    /** Lets the timer fire until it clears itself, and counts the callbacks. */
    method RunToCompletion(now: string) returns (ticks: nat)
      requires Valid() && intervalActive
      modifies this
      ensures Valid()
      ensures ticks == old(TicksLeft(Status()))
      ensures Status() == SyncStatus(100, false, false, now)
      ensures settings == old(settings)
    {
      ghost var start := Status();
      ticks := 0;
      TicksToEnd(start, now);
      while intervalActive
        invariant Valid() && settings == old(settings)
        invariant ticks <= TicksLeft(start)
        invariant intervalActive ==> ticks < TicksLeft(start) &&
                                     Status() == start.(progress := start.progress + 10 * ticks)
        invariant !intervalActive ==> ticks == TicksLeft(start) && Status() == SyncStatus(100, false, false, now)
        decreases 100 - syncProgress + (if intervalActive then 1 else 0)
      {
        Tick(now);
        ticks := ticks + 1;
      }
    }
  }
}
