# MySensor BLE peripheral — Dafny model

A Zephyr application that advertises as a BLE peripheral. It exposes one
custom GATT service with a notify-only characteristic, and every two seconds
sends the DHT11's temperature and humidity as text such as `23C | 55%`. It
sends only when a central has subscribed through the Client Characteristic
Configuration (CCC) descriptor.

The model covers the logic that sits between the drivers and the Bluetooth host:

- **Subscription and notify** (`src/my_sensor.c`), module `MySensor`:
  - the 4-attribute service table and its UUIDs;
  - class `SensorService`, holding the process-wide subscription flag, which
    the CCC handler overwrites;
  - the guarded `my_sensor_notify_string`, which either refuses with `-EACCES`
    or makes one send and passes the host's result through unchanged.

  Each send the host is asked to make is recorded in `sends`. A ghost history
  of CCC writes, `cccWrites`, together with the pure function `Replay`, states
  what the flag means after any sequence of writes.
- **Connection lifecycle and advertising** (`src/main.c`), module `App`:
  - class `Peripheral`, with one method per callback (`OnConnected`,
    `OnDisconnected`, `OnRecycled`) plus `advertising_start`, the
    `adv_work_handler` run by the work queue, and `main`'s start-up with its
    early returns (`Boot`);
  - its invariant `Valid` records the start-up order, and that every
    advertise-start call consumed a distinct request of the single work item.
- **Sampler** (`src/main.c`):
  - one iteration of `dht11_notify_thread` (`SamplerCycle`);
  - the thread itself over a finite run of cycles (`SamplerThread`),
    specified by the pure functions `CycleSends` and `ThreadSends`.
- **Payload** (module `PayloadFormat`, on top of `Decimal` for `%d`):
  - `snprintf(data_str, 20, "%dC | %d%%", temp.val1, hum.val1)` as functions,
    with `strlen` from module `CTypes`;
  - the parser `ParsePayload` as their inverse, proved in both directions.

External capabilities are parameters:
- the results of `dk_leds_init`, `bt_enable`, `bt_le_adv_start`,
  `bt_gatt_notify` and `sensor_sample_fetch`;
- the values read by `sensor_channel_get`;
- whether the DHT11 device is ready.

Effects on the outside world are recorded in fields:
- the connection LED;
- the queued work item;
- counts of advertise requests and advertise-start calls;
- the list of sends.

Events are sequential method calls.

### Behaviour of the code worth noting

- `advertising_start` submits the work item and does nothing else
  (src/main.c:90-93). It does so whether or not advertising is already on.
  Two submissions collapse into one only while the item is still queued. That
  is how the kernel's `k_work_submit` treats a pending item, and the model
  takes it as given.
- When `bt_le_adv_start` fails, the work handler prints an error and returns
  (src/main.c:82-85). No state is changed and no retry is queued.
- After `my_sensor_notify_string` returns, the sampler prints "Notification
  sent!" when the result is an error other than `-EACCES`. It prints nothing
  on success (src/main.c:125-129). `SamplerCycle` reports the log line as the
  code chooses it.
- The header comment for `my_sensor_notify_string` describes a 32-bit
  `sensor_value` parameter (src/my_sensor.h:42). The function takes a
  NUL-terminated string, and that is what `NotifyString` models.

## Model

| member | source | states |
|---|---|---|
| `CTypes.StrLen` | src/my_sensor.c:80 | `strlen` is the index of the first NUL: the character there is the terminator and none before it is |
| `CTypes.Visible` | src/my_sensor.c:78-80 | the characters handed to the host contain no NUL, and the string's terminator follows them |
| `CTypes.VisibleOfTerminated` | src/my_sensor.c:80 | a NUL-free text followed by a terminator is a C string whose `strlen` is the text's length and whose visible part is the text |
| `Decimal.Digits` | src/main.c:121 | the `%d` digits of a natural number are canonical (non-empty, no leading zero), and start with '0' only for zero |
| `Decimal.FormatInt` | src/main.c:121 | `%d` output is a well-formed decimal and has a minus sign exactly for negative values |
| `Decimal.DigitsRoundTrip` | src/main.c:121 | reading back the digits of `n` gives `n` |
| `Decimal.ParseDigitsRoundTrip` | src/main.c:121 | every canonical digit string is the digits of its value |
| `Decimal.ParseDigitsPositive` | src/main.c:121 | a digit string without a leading zero has a positive value |
| `Decimal.FormatIntRoundTrip` | src/main.c:121 | parsing what `%d` prints gives back the integer |
| `Decimal.ParseIntRoundTrip` | src/main.c:121 | every well-formed decimal is what `%d` prints for its value, so `%d` is a bijection onto well-formed decimals |
| `Decimal.DigitsLength` | src/main.c:121 | a number below 10^k has at most k digits |
| `Decimal.FormatIntLength` | src/main.c:121 | a value of at most k digits prints in at most k characters, plus one for a minus sign |
| `Decimal.FormatIntInt32` | src/main.c:121 | `%d` of an `int32_t` takes at most 11 characters |
| `PayloadFormat.PayloadText` | src/main.c:121 | the full text of `"%dC &#124; %d%%"` is the temperature's `%d` text, then "C &#124; ", then the humidity's `%d` text, then "%"; it is five characters longer than the two numbers and holds no NUL; `PayloadTextRoundTrip` and `ParsePayloadRoundTrip` prove `ParsePayload` is its inverse |
| `PayloadFormat.PayloadTextRoundTrip` | src/main.c:121 | the full formatted text parses back to the two integers |
| `PayloadFormat.Snprintf` | src/main.c:121 | `snprintf` into a buffer of `size` bytes stores a prefix of the text of length min(text length, size - 1), then a terminator |
| `PayloadFormat.Payload` | src/main.c:113-121 | the payload is the formatted text truncated to at most 19 characters: a prefix of it, of length min(text length, 19) |
| `PayloadFormat.IndexOf` | src/main.c:121 | the index returned is the first occurrence of the character, or the length when it is absent |
| `PayloadFormat.FormatIntAlphabet` | src/main.c:121 | `%d` output contains no 'C', '%' or NUL |
| `PayloadFormat.BufferHoldsPayload` | src/main.c:121-124 | the 20-byte buffer holds a C string whose `strlen` part is exactly the payload, at most 19 bytes, and the terminator is not part of it |
| `PayloadFormat.PayloadRoundTrip` | src/main.c:121 | a payload that fits the buffer parses back to the integer parts of the reading |
| `PayloadFormat.ParsePayloadRoundTrip` | src/main.c:121 | every text that parses is the full formatted text of the reading it parses to |
| `PayloadFormat.SensorRangeFits` | src/main.c:113 | for temperature -99..199 and humidity 0..100 the text has at most 11 characters, nothing is truncated, and it parses back |
| `PayloadFormat.PayloadTextInt32` | src/main.c:121 | for any two `int32_t` values the full text has at most 27 characters |
| `PayloadFormat.PayloadExample` | src/main.c:121 | the reading (23, 55) becomes "23C &#124; 55%" |
| `PayloadFormat.Int32MinText` | src/main.c:121 | `%d` of INT32_MIN is "-2147483648" |
| `PayloadFormat.Int32MinPayloadText` | src/main.c:121 | two INT32_MIN readings give the full text "-2147483648C &#124; -2147483648%" |
| `PayloadFormat.PayloadTruncationExample` | src/main.c:113 | two INT32_MIN readings give a 27-character text, which the buffer cuts to "-2147483648C &#124; -214" |
| `MySensor.Uuid128Encode` | src/my_sensor.h:28-34 | the five groups, each within its width, encode a value that fits in 128 bits |
| `MySensor.Uuid128EncodeInjective` | src/my_sensor.h:28-34 | different groups give different UUIDs: equal encodings have equal groups, each within its width |
| `MySensor.CccStep` | src/my_sensor.c:33 | one CCC write sets the flag exactly when the notifications bit (bit 0) is set and every other bit is clear, whatever the flag was before |
| `MySensor.NotifyTargetIsCharacteristicValue` | src/my_sensor.c:42-63 | the table has 4 attributes; `attrs[2]` is the value attribute of the notify-only characteristic declared at index 1, it has no client permissions, and the CCC descriptor follows; the two UUIDs differ |
| `MySensor.ReplayAppend` | src/my_sensor.c:31-34 | replaying one more CCC write is one more step of the handler |
| `MySensor.LastWriteDecides` | src/my_sensor.c:31-34 | after any non-empty series of CCC writes, the flag is set exactly when the last value written is 0x0001 |
| `MySensor.OnlyNotifyValueSubscribes` | src/my_sensor.c:33 | writing 0x0001 subscribes whatever came before; writing 0x0000, 0x0002 or 0x0003 unsubscribes |
| `MySensor.RepeatedWriteIdempotent` | src/my_sensor.c:33 | writing the same value twice gives the same state as writing it once |
| `MySensor.SensorService.constructor` | src/my_sensor.c:26 | the flag starts false (static zero-initialisation), with no sends and no CCC writes |
| `MySensor.SensorService.CccCfgChanged` | src/my_sensor.c:31-34 | after a write of `v` the flag is true iff `v == 0x0001`, and it still equals the replay of the whole write history |
| `MySensor.SensorService.NotifyString` | src/my_sensor.c:71-81 | unsubscribed: returns `-EACCES` and makes no send; subscribed: makes exactly one send to `attrs[2]` of the string's `strlen` characters and returns the host's result unchanged; the flag is never modified |
| `App.ScanResponseNamesService` | src/main.c:72-76 | the scan response lists exactly the MySensor service UUID |
| `App.Peripheral.constructor` | src/main.c:166-169 | before `main` nothing is initialised, the LED is off, and nothing is queued or counted |
| `App.Peripheral.Boot` | src/main.c:166-192 | if LED init fails, `main` returns -1 with the LEDs not ready and without calling `bt_enable`; if `bt_enable` fails, it returns -1 with Bluetooth not enabled; in both cases no callbacks are registered and no advertising is requested; otherwise the LEDs are ready, Bluetooth is enabled, the callbacks are registered, the work item is initialised and advertising is requested exactly once |
| `App.Peripheral.AdvertisingStart` | src/main.c:90-93 | the work item is queued (one slot however often it is submitted) and the request is counted |
| `App.Peripheral.AdvWorkHandler` | src/main.c:79-87 | exactly one advertise-start call and the item leaves the queue; success records that advertising has started; failure leaves it as it was and queues no retry |
| `App.Peripheral.OnConnected` | src/main.c:141-149 | err != 0 leaves the LED unchanged; err == 0 turns it on; advertising is not requested either way |
| `App.Peripheral.OnDisconnected` | src/main.c:152-156 | the LED is off whatever the reason or its prior state; advertising is not requested |
| `App.Peripheral.OnRecycled` | src/main.c:96-100 | advertising is requested: the work item is queued and the request is counted |
| `App.SamplerCycle` | src/main.c:116-134 | a failed fetch is skipped with no notify call; otherwise one notify of the truncated payload from the `val1` parts, whose result is `-EACCES` when unsubscribed and the host's result otherwise; sends grow by exactly the cycle's specified sends; the log line is as written |
| `App.SamplerThread` | src/main.c:103-137 | device not ready: returns before any cycle with no sends; otherwise one report per cycle, skipped exactly when the fetch failed, and the sends are exactly those the cycles specify |
| `App.ThreadSendsCount` | src/main.c:115-137 | when subscribed there is exactly one notification per successful fetch, and none when unsubscribed |
| `App.FailedFetchesSendNothing` | src/main.c:131-134 | cycles whose fetches all fail make no sends |
| `App.ThreadSendsShape` | src/main.c:121-124 | every notification the sampler sends goes to the characteristic value and carries at most 19 bytes |
| `App.ScenarioSubscribeAndSample` | src/main.c:116-129 | connect, subscribe, then one reading (23, 55): the LED is on and exactly one notification "23C &#124; 55%" is sent, whatever the fractional parts |
| `App.ScenarioFetchFailures` | src/main.c:131-136 | three failed fetches in a row: three skipped cycles and no send |
| `App.ScenarioUnsubscribe` | src/my_sensor.c:73-75 | after subscribing and then writing 0x0000, notify is refused with `-EACCES` and nothing is sent |
| `App.ScenarioRecycleTwice` | src/main.c:92 | two recycled events in a row queue one work item: two requests, one advertise-start call, and after a failed start nothing is queued |

## Left out

- Bluetooth host internals are not modelled. This covers `bt_enable`,
  `bt_le_adv_start`, `bt_gatt_notify` and connection management. Their
  results are parameters.
- The byte encoding of the advertising data and scan response is not
  modelled. The advertising parameters (connectable, identity address,
  interval 800-801 units of 0.625 ms) are not modelled either. Only the scan
  response's service UUID is.
- The host stops connectable advertising when a connection is made. That is
  host behaviour, not this code's. `advStarted` records only that some
  advertise-start call succeeded, and no method clears it.
- Zephyr threading, `K_THREAD_DEFINE`, the work-queue executor and the
  `k_sleep` periods (2000 ms and 1000 ms) are not modelled. Events are
  sequential method calls.
- The CCC handler and the sampler really run concurrently. In the model the
  subscription flag is constant during one `SamplerThread` run. CCC writes
  between cycles can be shown by calling `SamplerCycle` repeatedly.
- The sampler's `while (1)` loop is modelled over a finite sequence of cycles.
- The heartbeat loop of `main` (src/main.c:195-198) only toggles the run LED,
  so it is not modelled.
- `printk`/`LOG_*` text is not modelled. The exception is the line the
  sampler prints after a notify attempt.
- The devicetree check for the DHT11 alias (src/main.c:56-60) is a
  compile-time check and is not modelled.
- `App.Peripheral.OnConnected`: the callbacks require `main` to have finished
  start-up. In the source, callbacks are registered (src/main.c:186) before
  `k_work_init` (src/main.c:191). A recycled event in that window is not
  modelled, and none can occur before advertising has started.
- The DHT11 and LED drivers are capabilities: a fetch result code with the
  values read, and a flag for CON_STATUS_LED. The return value of
  `sensor_channel_get` is ignored by the source, and by the model too.
- The host's "notify all connections" fan-out is not modelled. Neither is
  per-connection subscription state: the source has a single process-wide
  flag.
