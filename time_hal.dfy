/** NTP time synchronisation: a sync status moved by start, stop and the SNTP
    notification, and getters that answer only once synchronised. SNTP,
    environment and clock calls are recorded as ghost effects or passed in. */
module TimeHal {
  import opened Esp

  datatype SyncStatus = NotSynced | Syncing | Synced

  /** `ntp_servers`, in table order. */
  const NtpServers: seq<string> := ["pool.ntp.org", "time.nist.gov", "time.google.com"]

  datatype Effect =
    | Notify(status: SyncStatus)
    | SetEnv(name: string, value: string)
    | Tzset
    | SntpSetOperatingModePoll
    | SntpSetServerName(index: nat, name: string)
    | SntpSetNotificationCb
    | SntpInit
    | SntpStop

  /** The server registrations of the first n table entries, index i naming entry i. */
  function ServerNames(n: nat): (es: seq<Effect>)
    requires n <= |NtpServers|
    ensures |es| == n
    ensures forall i :: 0 <= i < n ==> es[i] == SntpSetServerName(i, NtpServers[i])
  {
    if n == 0 then [] else ServerNames(n - 1) + [SntpSetServerName(n - 1, NtpServers[n - 1])]
  }

  /** All three servers are registered, at indices 0, 1 and 2, in table order. */
  lemma AllServersInOrder()
    ensures ServerNames(|NtpServers|) ==
      [SntpSetServerName(0, "pool.ntp.org"), SntpSetServerName(1, "time.nist.gov"),
       SntpSetServerName(2, "time.google.com")]
  {
  }

  /** What moves the status: `time_hal_start_sync`, the SNTP notification
      (`time_sync_notification_cb`) and `time_hal_stop_sync`. */
  datatype SyncOp = Start | TimeArrived | Stop

  /** The status after one operation. */
  function Transition(s: SyncStatus, op: SyncOp): (t: SyncStatus)
    ensures t == NotSynced <==> op == Stop
    ensures t == Synced <==> op == TimeArrived
  {
    match op
    case Start => Syncing
    case TimeArrived => Synced
    case Stop => NotSynced
  }

  /** The notification callback is registered only by start and SNTP is halted
      by stop, so the time can arrive only while synchronisation is under way. */
  predicate Enabled(s: SyncStatus, op: SyncOp)
  {
    op == TimeArrived ==> s != NotSynced
  }

  /** The status after a run of operations from the initial NotSynced. */
  function Run(ops: seq<SyncOp>): SyncStatus
  {
    if ops == [] then NotSynced else Transition(Run(ops[..|ops| - 1]), ops[|ops| - 1])
  }

  /** Every operation of the run is possible in the status it meets. */
  predicate Feasible(ops: seq<SyncOp>)
  {
    ops == [] || (Feasible(ops[..|ops| - 1]) && Enabled(Run(ops[..|ops| - 1]), ops[|ops| - 1]))
  }

  /** In every possible run, Synced is reached only through Syncing: some
      earlier prefix of the run ends in Syncing. */
  lemma {:induction false} SyncedOnlyAfterSyncing(ops: seq<SyncOp>)
    requires Feasible(ops)
    ensures Run(ops) == Synced ==> exists j :: 0 <= j < |ops| && Run(ops[..j]) == Syncing
  {
    if ops != [] && Run(ops) == Synced {
      var p := ops[..|ops| - 1];
      assert ops[..|p|] == p;
      if Run(p) == Synced {
        SyncedOnlyAfterSyncing(p);
        var j :| 0 <= j < |p| && Run(p[..j]) == Syncing;
        assert ops[..j] == p[..j];
      }
    }
  }

  class TimeSync {
    /** `s_sync_status`, `s_sync_callback` */
    var status: SyncStatus
    var callback: Option<nat>
    /** Whether the SNTP service is running, so that its notification can arrive. */
    ghost var sntpRunning: bool
    /** The operations that moved the status so far, oldest first. */
    ghost var history: seq<SyncOp>
    ghost var effects: seq<Effect>

    /** The status is that of a possible run, and SNTP runs exactly while the
        status is not NotSynced. */
    ghost predicate Valid()
      reads this
    {
      Feasible(history) && status == Run(history) && (sntpRunning <==> status != NotSynced)
    }

    constructor ()
      ensures Valid() && history == []
      ensures status == NotSynced && !sntpRunning && callback == None && effects == []
    {
      status := NotSynced;
      callback := None;
      sntpRunning := false;
      history := [];
      effects := [];
    }

    /** `time_hal_init`: the timezone becomes UTC. */
    method Init() returns (r: EspErr)
      modifies this`effects
      ensures r == EspOk && effects == old(effects) + [SetEnv("TZ", "UTC0"), Tzset]
    {
      effects := effects + [SetEnv("TZ", "UTC0"), Tzset];
      r := EspOk;
    }

    /** `time_hal_start_sync`: stores the callback, moves to Syncing and says so
        before SNTP is configured, then registers each server in table order. */
    method StartSync(cb: Option<nat>) returns (r: EspErr)
      requires Valid()
      modifies this
      ensures Valid() && history == old(history) + [Start] && sntpRunning
      ensures r == EspOk && status == Syncing && callback == cb
      ensures effects == old(effects) + (if cb.Some? then [Notify(Syncing)] else []) +
        [SntpSetOperatingModePoll] + ServerNames(|NtpServers|) + [SntpSetNotificationCb, SntpInit]
    {
      callback := cb;
      status := Syncing;
      if callback.Some? {
        effects := effects + [Notify(status)];
      }
      effects := effects + [SntpSetOperatingModePoll];
      ghost var before := effects;
      var i := 0;
      while i < |NtpServers|
        modifies this`effects
        invariant 0 <= i <= |NtpServers|
        invariant effects == before + ServerNames(i)
      {
        effects := effects + [SntpSetServerName(i, NtpServers[i])];
        i := i + 1;
      }
      effects := effects + [SntpSetNotificationCb, SntpInit];
      sntpRunning := true;
      history := history + [Start];
      assert history[..|history| - 1] == old(history);
      r := EspOk;
    }

    /** `time_sync_notification_cb`: the time has arrived. SNTP calls it only
        while running, which start established and stop has not undone. */
    method OnTimeSynced()
      requires Valid() && sntpRunning
      modifies this`status, this`history, this`effects
      ensures Valid() && history == old(history) + [TimeArrived]
      ensures status == Synced && (old(status) == Syncing || old(status) == Synced)
      ensures effects == old(effects) + (if callback.Some? then [Notify(Synced)] else [])
    {
      status := Synced;
      history := history + [TimeArrived];
      assert history[..|history| - 1] == old(history);
      if callback.Some? {
        effects := effects + [Notify(status)];
      }
    }

    /** `time_hal_stop_sync`: always succeeds and always leaves NotSynced. */
    method StopSync() returns (r: EspErr)
      requires Valid()
      modifies this`status, this`sntpRunning, this`history, this`effects
      ensures Valid() && history == old(history) + [Stop] && !sntpRunning
      ensures r == EspOk && status == NotSynced
      ensures effects == old(effects) + [SntpStop] + (if callback.Some? then [Notify(NotSynced)] else [])
    {
      effects := effects + [SntpStop];
      sntpRunning := false;
      status := NotSynced;
      history := history + [Stop];
      assert history[..|history| - 1] == old(history);
      if callback.Some? {
        effects := effects + [Notify(status)];
      }
      r := EspOk;
    }

    /** `time_hal_get_sync_status` */
    function GetSyncStatus(): (s: SyncStatus)
      reads this
      ensures s == status
      ensures s == Synced <==> GetTimestamp(1) == 1
    {
      status
    }

    /** `time_hal_get_time_string`: NULL arguments first, then the status. */
    function GetTimeString(hasBuffer: bool, format: Option<string>): (r: EspErr)
      reads this
      ensures !hasBuffer || format == None ==> r == EspErrInvalidArg
      ensures hasBuffer && format != None ==> (r == EspOk <==> status == Synced)
      ensures hasBuffer && format != None && r != EspOk ==> r == EspErrInvalidState
    {
      if !hasBuffer || format == None then EspErrInvalidArg
      else if status != Synced then EspErrInvalidState
      else EspOk
    }

    /** `time_hal_get_time_struct`: a NULL argument first, then the status. */
    function GetTimeStruct(hasBuffer: bool): (r: EspErr)
      reads this
      ensures !hasBuffer ==> r == EspErrInvalidArg
      ensures hasBuffer ==> (r == EspOk <==> status == Synced)
      ensures hasBuffer && r != EspOk ==> r == EspErrInvalidState
    {
      if !hasBuffer then EspErrInvalidArg
      else if status != Synced then EspErrInvalidState
      else EspOk
    }

    /** `time_hal_get_timestamp`: the clock reading `now` once synchronised, 0 before. */
    function GetTimestamp(now: int): (t: int)
      reads this
      ensures status != Synced ==> t == 0
      ensures status == Synced ==> t == now
    {
      if status != Synced then 0 else now
    }

    /** `time_hal_set_timezone`: NULL is refused, anything else is installed. */
    method SetTimezone(timezone: Option<string>) returns (r: EspErr)
      modifies this`effects
      ensures timezone == None ==> r == EspErrInvalidArg && effects == old(effects)
      ensures timezone != None ==> r == EspOk && effects == old(effects) + [SetEnv("TZ", timezone.value), Tzset]
    {
      if timezone == None {
        return EspErrInvalidArg;
      }
      effects := effects + [SetEnv("TZ", timezone.value), Tzset];
      r := EspOk;
    }
  }

  /** The status moves NotSynced -> Syncing -> Synced through start and the
      notification, and stop returns it to NotSynced from any state; the time
      getters answer only after the notification. */
  method SyncLifecycle(cb: Option<nat>, now: int) returns (t: TimeSync)
    ensures t.Valid()
    ensures t.status == NotSynced && !t.sntpRunning
  {
    t := new TimeSync();
    assert t.GetTimeStruct(true) == EspErrInvalidState && t.GetTimestamp(now) == 0;
    var r := t.StartSync(cb);
    assert t.status == Syncing && t.GetTimeString(true, Some("%H:%M")) == EspErrInvalidState;
    t.OnTimeSynced();
    assert t.GetTimeStruct(true) == EspOk && t.GetTimestamp(now) == now;
    r := t.StopSync();
  }
}
