/** The application around the MySensor service: start-up, the connection
    callbacks that drive the connection LED and restart advertising through a
    single deferred work item, and the sampler thread that formats each DHT11
    reading and notifies it. Driver and host results are parameters. */
module App {
  import opened CTypes
  import opened PayloadFormat
  import opened MySensor

  /** The scan response: the complete list of 128-bit service UUIDs. */
  const ScanResponseUuids: seq<Uuid> := [Uuid128Encode(0x12345678, 0x9abc, 0xdef0, 0x1234, 0x56789abcdef0)]

  /** The scan response advertises exactly the MySensor service. */
  lemma ScanResponseNamesService()
    ensures ScanResponseUuids == [ServiceUuid]
  {
  }

  /** How `main` ends: with a status when start-up fails, or never (it stays
      in the heartbeat loop). */
  datatype BootOutcome = Exited(code: int) | Running

  /** The application's state. The LED driver, the Bluetooth host and the
      work queue are represented by what this code asks of them:
      - `ledsReady`, `btEnableCalled`, `btEnabled`, `callbacksRegistered`,
        `workReady`: how far `main` got;
      - `conLed`: CON_STATUS_LED;
      - `advPending`: the single `adv_work` item is queued;
      - `advStarted`: some advertise-start call has reported success; it is
        never cleared, so it does not say advertising is still on;
      - `advRequests`: calls of `advertising_start`;
      - `advStartCalls`: calls of `bt_le_adv_start`. */
  class Peripheral {
    var ledsReady: bool
    var btEnableCalled: bool
    var btEnabled: bool
    var callbacksRegistered: bool
    var workReady: bool
    var conLed: bool
    var advPending: bool
    var advStarted: bool
    var advRequests: nat
    var advStartCalls: nat

    /** The state before `main` runs. */
    ghost predicate PowerOn()
      reads this
    {
      && !ledsReady && !btEnableCalled && !btEnabled && !callbacksRegistered && !workReady
      && !conLed && !advPending && !advStarted && advRequests == 0 && advStartCalls == 0
    }

    /** Start-up happens in order, the LED is only driven once callbacks are
        registered, work is only queued once initialised, and every
        advertise-start call consumed a distinct request. */
    ghost predicate Valid()
      reads this
    {
      && (btEnableCalled ==> ledsReady)
      && (btEnabled ==> btEnableCalled)
      && (callbacksRegistered ==> btEnabled)
      && (workReady ==> callbacksRegistered)
      && (conLed ==> callbacksRegistered)
      && (advPending ==> workReady)
      && advStartCalls + (if advPending then 1 else 0) <= advRequests
      && (advStarted ==> advStartCalls >= 1)
    }

    constructor ()
      ensures PowerOn() && Valid()
    {
      ledsReady, btEnableCalled, btEnabled, callbacksRegistered, workReady := false, false, false, false, false;
      conLed, advPending, advStarted := false, false, false;
      advRequests, advStartCalls := 0, 0;
    }

    /** `main` up to its heartbeat loop. `ledInitErr` and `btEnableErr` are
        what `dk_leds_init` and `bt_enable` return. Either failing ends `main`
        with -1 before any callback is registered or advertising requested;
        otherwise callbacks are registered, the work item initialised and
        advertising requested exactly once. */
    method Boot(ledInitErr: int, btEnableErr: int) returns (outcome: BootOutcome)
      requires PowerOn()
      modifies this
      ensures Valid()
      ensures outcome.Running? <==> ledInitErr == 0 && btEnableErr == 0
      ensures outcome.Exited? ==> outcome.code == -1
      ensures ledsReady <==> ledInitErr == 0
      ensures btEnableCalled <==> ledInitErr == 0
      ensures btEnabled <==> ledInitErr == 0 && btEnableErr == 0
      ensures outcome.Exited? ==> !callbacksRegistered && !workReady && !advPending && advRequests == 0
      ensures outcome.Running? ==> callbacksRegistered && workReady && advPending && advRequests == 1
      ensures !conLed && !advStarted && advStartCalls == 0
    {
      if ledInitErr != 0 {
        return Exited(-1);
      }
      ledsReady := true;
      btEnableCalled := true;
      if btEnableErr != 0 {
        return Exited(-1);
      }
      btEnabled := true;
      callbacksRegistered := true;
      workReady := true;
      AdvertisingStart();
      outcome := Running;
    }

    /** `advertising_start`: submit `adv_work`. A submission while the item
        is already queued leaves one queued item (the kernel's `k_work_submit`
        behaviour, assumed here). */
    method AdvertisingStart()
      requires Valid() && workReady
      modifies this`advPending, this`advRequests
      ensures Valid()
      ensures advPending && advRequests == old(advRequests) + 1
    {
      advPending := true;
      advRequests := advRequests + 1;
    }

    /** `adv_work_handler`, run by the work queue for the queued item:
        one call of `bt_le_adv_start`, whose result is `startErr`. Success
        marks advertising active; failure changes nothing and schedules no
        retry. */
    method AdvWorkHandler(startErr: int)
      requires Valid() && advPending
      modifies this`advPending, this`advStarted, this`advStartCalls
      ensures Valid()
      ensures !advPending && advStartCalls == old(advStartCalls) + 1
      ensures startErr == 0 ==> advStarted
      ensures startErr != 0 ==> advStarted == old(advStarted)
    {
      advPending := false;
      advStartCalls := advStartCalls + 1;
      if startErr == 0 {
        advStarted := true;
      }
    }

    /** `on_connected`: a failed connection (`err != 0`) changes nothing;
        a successful one turns CON_STATUS_LED on. Advertising is not
        requested either way. */
    method OnConnected(err: uint8)
      requires Valid() && workReady
      modifies this`conLed
      ensures Valid()
      ensures err != 0 ==> conLed == old(conLed)
      ensures err == 0 ==> conLed
      ensures advRequests == old(advRequests) && advPending == old(advPending)
    {
      if err != 0 {
        return;
      }
      conLed := true;
    }

    /** `on_disconnected`: CON_STATUS_LED off whatever the reason, and no
        advertising request. */
    method OnDisconnected(reason: uint8)
      requires Valid() && workReady
      modifies this`conLed
      ensures Valid()
      ensures !conLed
      ensures advRequests == old(advRequests) && advPending == old(advPending)
    {
      conLed := false;
    }

    /** `recycled_cb`: the connection object is free again, so advertising
        is requested. */
    method OnRecycled()
      requires Valid() && workReady
      modifies this`advPending, this`advRequests
      ensures Valid()
      ensures advPending && advRequests == old(advRequests) + 1
    {
      AdvertisingStart();
    }
  }

  /** `struct sensor_value`: integer and millionths parts. */
  datatype SensorValue = SensorValue(val1: int32, val2: int32)

  /** What one `sensor_sample_fetch` returns (`rc`) and, when it succeeded,
      what the two `sensor_channel_get` calls read. */
  datatype Fetch = Fetch(rc: int, temperature: SensorValue, humidity: SensorValue)

  /** The outside world's part of one sampler cycle: the fetch, and the
      result the host gives if a notification reaches it. */
  datatype CycleInput = CycleInput(fetch: Fetch, hostResult: int)

  /** The line printed after a notify attempt. */
  datatype NotifyLog = NotEnabledLog | SentLog | NoLog

  /** What one cycle did: skipped on a failed fetch, or one notify call with
      its result and the line printed for it. */
  datatype Cycle = Skipped | Notified(err: int, log: NotifyLog)

  /** The sends one cycle makes: one notification of the reading's payload
      when the fetch succeeded and a central is subscribed, none otherwise. */
  function CycleSends(enabled: bool, c: CycleInput): seq<Send>
  {
    if c.fetch.rc == 0 && enabled
    then [Send(NotifyAttrIndex, Payload(c.fetch.temperature.val1, c.fetch.humidity.val1))]
    else []
  }

  /** The sends of a series of cycles, in order. */
  function ThreadSends(enabled: bool, cycles: seq<CycleInput>): seq<Send>
    decreases |cycles|
  {
    if cycles == [] then []
    else ThreadSends(enabled, cycles[..|cycles| - 1]) + CycleSends(enabled, cycles[|cycles| - 1])
  }

  /** The number of cycles whose fetch succeeded. */
  function SuccessfulFetches(cycles: seq<CycleInput>): nat
    decreases |cycles|
  {
    if cycles == [] then 0
    else SuccessfulFetches(cycles[..|cycles| - 1]) + (if cycles[|cycles| - 1].fetch.rc == 0 then 1 else 0)
  }

  /** One iteration of `dht11_notify_thread` (without its sleep). */
  method SamplerCycle(svc: SensorService, c: CycleInput) returns (cycle: Cycle)
    requires svc.Valid()
    modifies svc`sends
    ensures svc.Valid()
    ensures svc.sends == old(svc.sends) + CycleSends(svc.notifyEnabled, c)
    ensures cycle.Skipped? <==> c.fetch.rc != 0
    ensures cycle.Notified? && !svc.notifyEnabled ==> cycle.err == -EACCES
    ensures cycle.Notified? && svc.notifyEnabled ==> cycle.err == c.hostResult
    ensures cycle.Notified? && cycle.err == -EACCES ==> cycle.log == NotEnabledLog
    ensures cycle.Notified? && cycle.err != 0 && cycle.err != -EACCES ==> cycle.log == SentLog
    ensures cycle.Notified? && cycle.err == 0 ==> cycle.log == NoLog
  {
    if c.fetch.rc == 0 {
      var t, h := c.fetch.temperature.val1, c.fetch.humidity.val1;
      var dataStr := Snprintf(PayloadText(t, h), BufferSize);
      BufferHoldsPayload(t, h);
      var err := svc.NotifyString(dataStr, c.hostResult);
      var log := if err == -EACCES then NotEnabledLog else if err != 0 then SentLog else NoLog;
      cycle := Notified(err, log);
    } else {
      cycle := Skipped;
    }
  }

  /** `dht11_notify_thread` over a finite run of cycles: when the sensor
      device is not ready it returns before any cycle; otherwise each cycle
      is run in turn and the sends are those the cycles specify. */
  method SamplerThread(svc: SensorService, deviceReady: bool, cycles: seq<CycleInput>) returns (reports: seq<Cycle>)
    requires svc.Valid()
    modifies svc`sends
    ensures svc.Valid()
    ensures !deviceReady ==> reports == [] && svc.sends == old(svc.sends)
    ensures deviceReady ==> |reports| == |cycles|
    ensures deviceReady ==> svc.sends == old(svc.sends) + ThreadSends(svc.notifyEnabled, cycles)
    ensures deviceReady ==> forall i :: 0 <= i < |cycles| ==> (reports[i].Skipped? <==> cycles[i].fetch.rc != 0)
  {
    reports := [];
    if !deviceReady {
      return;
    }
    var enabled := svc.notifyEnabled;
    ghost var sends0 := svc.sends;
    var i := 0;
    while i < |cycles|
      invariant 0 <= i <= |cycles|
      invariant svc.Valid() && svc.notifyEnabled == enabled
      invariant |reports| == i
      invariant svc.sends == sends0 + ThreadSends(enabled, cycles[..i])
      invariant forall j :: 0 <= j < i ==> (reports[j].Skipped? <==> cycles[j].fetch.rc != 0)
    {
      var r := SamplerCycle(svc, cycles[i]);
      ThreadSendsSnoc(enabled, cycles, i);
      assert svc.sends == sends0 + ThreadSends(enabled, cycles[..i + 1]);
      reports := reports + [r];
      i := i + 1;
    }
    assert cycles[..|cycles|] == cycles;
  }

  /** Running one more cycle appends that cycle's sends. */
  lemma ThreadSendsSnoc(enabled: bool, cycles: seq<CycleInput>, i: nat)
    requires i < |cycles|
    ensures ThreadSends(enabled, cycles[..i + 1]) == ThreadSends(enabled, cycles[..i]) + CycleSends(enabled, cycles[i])
  {
    assert cycles[..i + 1][..i] == cycles[..i];
  }

  /** A subscribed central receives exactly one notification per successful
      fetch; an unsubscribed one none at all. */
  lemma {:induction false} ThreadSendsCount(enabled: bool, cycles: seq<CycleInput>)
    ensures |ThreadSends(enabled, cycles)| == if enabled then SuccessfulFetches(cycles) else 0
    decreases |cycles|
  {
    if cycles != [] {
      ThreadSendsCount(enabled, cycles[..|cycles| - 1]);
    }
  }

  /** Cycles whose fetches all fail make no sends. */
  lemma {:induction false} FailedFetchesSendNothing(enabled: bool, cycles: seq<CycleInput>)
    requires forall i :: 0 <= i < |cycles| ==> cycles[i].fetch.rc != 0
    ensures ThreadSends(enabled, cycles) == []
    decreases |cycles|
  {
    if cycles != [] {
      FailedFetchesSendNothing(enabled, cycles[..|cycles| - 1]);
    }
  }

  /** Every notification the sampler sends goes to the characteristic value
      and carries at most 19 bytes. */
  lemma {:induction false} ThreadSendsShape(enabled: bool, cycles: seq<CycleInput>)
    ensures forall k :: 0 <= k < |ThreadSends(enabled, cycles)| ==>
      ThreadSends(enabled, cycles)[k].attrIndex == NotifyAttrIndex && |ThreadSends(enabled, cycles)[k].data| <= BufferSize - 1
    decreases |cycles|
  {
    if cycles != [] {
      ThreadSendsShape(enabled, cycles[..|cycles| - 1]);
    }
  }

  /** The start-up scenario: connect, subscribe, one reading of 23 C and
      55 % (with fractional parts that play no part) gives exactly one
      notification "23C | 55%", reported as a success with no log line. */
  method ScenarioSubscribeAndSample() returns (led: bool, sent: seq<Send>, cycle: Cycle)
    ensures led
    ensures sent == [Send(NotifyAttrIndex, "23C | 55%")]
    ensures cycle == Notified(0, NoLog)
  {
    var app := new Peripheral();
    var outcome := app.Boot(0, 0);
    app.AdvWorkHandler(0);
    app.OnConnected(0);
    var svc := new SensorService();
    svc.CccCfgChanged(CccNotify);
    cycle := SamplerCycle(svc, CycleInput(Fetch(0, SensorValue(23, 400_000), SensorValue(55, 900_000)), 0));
    PayloadExample();
    led, sent := app.conLed, svc.sends;
  }

  /** Three failed fetches in a row: three skipped cycles and no send, even
      with a subscribed central. */
  method ScenarioFetchFailures() returns (sent: seq<Send>, reports: seq<Cycle>)
    ensures sent == [] && reports == [Skipped, Skipped, Skipped]
  {
    var svc := new SensorService();
    svc.CccCfgChanged(CccNotify);
    var fail := CycleInput(Fetch(-5, SensorValue(0, 0), SensorValue(0, 0)), 0);
    reports := SamplerThread(svc, true, [fail, fail, fail]);
    FailedFetchesSendNothing(true, [fail, fail, fail]);
    sent := svc.sends;
  }

  /** Subscribe, then unsubscribe: the next notify is refused again and
      nothing is sent. */
  method ScenarioUnsubscribe() returns (err: int, sent: seq<Send>)
    ensures err == -EACCES && sent == []
  {
    var svc := new SensorService();
    svc.CccCfgChanged(CccNotify);
    svc.CccCfgChanged(0x0000);
    err := svc.NotifyString("23C | 55%\0", 0);
    sent := svc.sends;
  }

  /** After a connection ends, two recycled events in a row queue one work
      item, so the host sees a single advertise-start call; a failed start
      leaves nothing queued. */
  method ScenarioRecycleTwice() returns (requests: nat, starts: nat, pending: bool)
    ensures requests == 2 && starts == 1 && !pending
  {
    var app := new Peripheral();
    var outcome := app.Boot(0, 0);
    app.AdvWorkHandler(0);
    app.OnConnected(0);
    app.OnDisconnected(0x13);
    var requestsBefore, startsBefore := app.advRequests, app.advStartCalls;
    app.OnRecycled();
    app.OnRecycled();
    app.AdvWorkHandler(-12);
    requests, starts, pending := app.advRequests - requestsBefore, app.advStartCalls - startsBefore, app.advPending;
  }
}
