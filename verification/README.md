# occupi in Dafny

A model of the two pieces of sequential logic in occupi, a Slack bot for a room
with a light sensor.

- **The waiting-queue bot** (`occupi.py`, module `Occupi`). A user sends `?`, `!`
  or `--`. `?` answers with the room status, the queue length and the user's
  position. `!` joins the FIFO list `stack` idempotently. Anything that is not
  one of the three tokens gets an "unknown request" answer that lists the
  options. `--` is bound to the *string* `'remove_me_from_stack'` in the
  `commands` table, so dispatching it raises `TypeError`. The exception escapes
  `run`, and the batch being processed stops there. No operation removes a user
  from the queue. Posting a message is modelled as appending a `(text, channel)`
  pair to an outbound log. One batch returned by `rtm_read` is handled in order,
  skipping events that are not messages or that come from the bot's own id.
  The spec functions (`GetIndex`, `StatusText`, `Join`, `Handle`, `RunBatch`)
  work on values. The class `Bot` holds `stack` and the log as fields, and its
  methods follow the source statement by statement; each one is proved equal to
  its spec function. The partner of each message text is a reader
  (`ReadStatus`, `ReadJoin`, `ReadUnknown`). The lemmas prove that the reader
  recovers what the text is meant to say: the queue length, the rank, whether
  the user was added, or the token.
- **The TSL2561 driver's register logic** (`TSL2561.py`, module `Tsl2561`). It
  covers the command byte `register | 0x80` (Python's `|` modelled bit by bit),
  the exposure-mode state `current_mode` set by `set_mode`, and the delay chosen
  by the suffix of the mode name. For `LowManual` and `HighManual` no suffix
  matches, so `next` raises `StopIteration`. It also covers the little-endian
  decoding of the two channel words and the write pair of `manual_exposure`.
  The I2C bus is a trace of byte writes, block-read requests and sleeps (in
  seconds, as exact reals). The chip's answers to block reads come from an
  oracle that maps a command byte to two bytes.
- `Text` holds the pieces of Python string behaviour that the messages use:
  `' '.join`, `'{}'.format` of an `int`, and `str.endswith`. It also holds the
  decimal reader used by the message readers. `Wrappers` holds `Option`, which
  stands for `None`.

The code has no occupancy detector: `query_status` hardcodes "occupied"
(occupi.py:26-27), and nothing in `occupi.py` reads the sensor. No operation
dequeues or removes a user, and there is no per-user channel map, so the model
has none of these.

## Model

| member | source | states |
|---|---|---|
| `Occupi.GetIndex` | occupi.py:14-18 | Result is `None` exactly when the entry is absent. Otherwise it is the 0-based index of the FIRST occurrence. |
| `Occupi.GetIndexOfDistinct` | occupi.py:14-18 | In a list without duplicates, every entry is found at its own index. |
| `Occupi.Rank` | occupi.py:33-37 | The reported position is `None` exactly when the user is absent. Otherwise it lies in 1..len(stack), names the user, and no earlier entry is that user. |
| `Occupi.StatusTextReadsBack` | occupi.py:24-38 | The status text always starts with "Room is currently occupied, and the queue is". Reading it back gives exactly len(stack) and the user's rank, or `None` (the `Press "!"` call to action) when the user is not queued. |
| `Occupi.Bot.QueryStatus` | occupi.py:24-38 | Posts exactly the status text on the given channel and leaves `stack` unchanged. |
| `Occupi.Join` | occupi.py:40-49 | Adds the user exactly when they are absent. An absent user is appended at the end, so earlier entries keep their positions, and the reported position equals the new length. A present user leaves the stack unchanged, and the report gives their existing rank. The position is always in 1..len(stack) and names the user. |
| `Occupi.JoinIdempotent` | occupi.py:41-48 | Joining twice leaves the same stack as joining once. The second join reports "already in the queue" at the same position. |
| `Occupi.JoinThenStatus` | occupi.py:33-49 | After a join, a status query by the same user reports the position the join reported. |
| `Occupi.JoinKeepsNoDuplicates` | occupi.py:43-44 | Joining never creates a duplicate entry. |
| `Occupi.JoinTextReadsBack` | occupi.py:45-50 | Reading the join answer back gives whether the user was added, their position and the queue size. |
| `Occupi.Bot.AddMeToStack` | occupi.py:40-50 | The new `stack` and the posted message are those of `Join` on the old stack. |
| `Occupi.ReadAmountZeroIsEmpty` | occupi.py:28-32 | A queue length of 0 is read back only from the `empty.` wording, never from a numeral, so the two wordings are told apart. |
| `Occupi.UnknownTextReadsBack` | occupi.py:64 | The "unknown request" answer quotes exactly the token received. |
| `Occupi.HandleAnswersOnce` | occupi.py:52-64 | `handle_message` raises exactly for `--`. Every other token posts exactly one message, on the event's channel, and appends it to the log. Only `!` may change the stack. The message carries the expected answer: the status for `?`, the join report for `!`, and the quoted token for anything not in `['?', '!', '--']`. |
| `Occupi.HandleOnlyAppends` | occupi.py:52-64 | No handler removes anything: the old stack is a prefix of the new one, which is at most one longer. Distinct entries stay distinct. |
| `Occupi.Bot.HandleMessage` | occupi.py:59-64 | Its effect on `stack` and the log, and the exception it reports, are those of `Handle`. |
| `Occupi.RelevantEvents` | occupi.py:75 | Keeps only `message` events whose user is not the bot's own id, and keeps every such event: an event is in the result exactly when it is in the batch and relevant. |
| `Occupi.RelevantEventsCount` | occupi.py:74-75 | Every copy of a relevant event is kept, and no copy of any other event. |
| `Occupi.RelevantEventsInOrder` | occupi.py:74-75 | The kept events stay in batch order: filtering two consecutive parts of a batch and joining the results is filtering the whole. |
| `Occupi.RunBatchOne` | occupi.py:74-76 | A one-event batch does nothing for a skipped event. Otherwise its outcome is that of `handle_message` on the event: the exception it raises, or the state it leaves. |
| `Occupi.RunBatchAppend` | occupi.py:72-76 | Events are handled one after another. Running `first + second` is running `first`, then running `second` from the state `first` leaves. If `first` raised, that exception ends the batch and `second` is never handled. With `RunBatchOne`, this fixes that each event is answered from the state all earlier events left, in batch order. |
| `Occupi.RunBatchSkipsIrrelevant` | occupi.py:74-76 | Handling a batch is the same as handling only its relevant events. |
| `Occupi.RunBatchInvariants` | occupi.py:72-76 | Over a batch, the stack only grows at its end and keeps its entries distinct, and the log only grows. The batch stops with an exception exactly when a handled event carries `--`. Otherwise it posts exactly one message per handled event, and the k-th new post goes to the channel of the k-th handled event. The order in which events are handled is stated by `RunBatchAppend` and `RunBatchOne`. |
| `Occupi.RunBatchOnlyGrows` | occupi.py:72-76 | Over a batch, the stack and the log only grow at their ends, and the stack keeps its entries distinct. |
| `Occupi.RunBatchAnswers` | occupi.py:72-76 | A batch raises exactly when a handled event carries `--`. Otherwise each handled event posts exactly one message. |
| `Occupi.HandlePostsOnChannel` | occupi.py:52-64 | A handled message adds exactly one post at the end of the log, on the event's channel. |
| `Occupi.RunBatchAnswersInOrder` | occupi.py:72-76 | A batch that raises nothing keeps the old log as a prefix and adds one post per handled event. The k-th new post goes to the channel of the k-th handled event. This matches posts to events by channel only. |
| `Occupi.Bot.Run` | occupi.py:72-76 | Handles the events in order. The new state and the escaping exception are those of `RunBatch`. |
| `Occupi.Bot.PostMessage` | occupi.py:20-22 | Appends exactly one (text, channel) pair to the outbound log. |
| `Occupi.Bot.constructor` | occupi.py:66 | The queue starts empty. |
| `Text.Decimal` | occupi.py:32 | `'{}'.format(n)` is a non-empty string of digits that starts with '0' exactly when n is 0. |
| `Text.DecimalOfParse` | occupi.py:32 | Every numeral without a leading zero (a lone "0" included) is the formatting of its own value. With `ParseDecimalInverts`, `Decimal(n)` is the only such numeral for n, so `Decimal(0)` is "0". |
| `Text.ParseDecimalInverts` | occupi.py:32 | Reading a formatted count back gives the count. |
| `Tsl2561.CommandByteSetsTopBit` | TSL2561.py:20-21 | For any register below 0x80, OR-ing in 0x80 gives register + 0x80, a single byte. |
| `Tsl2561.DriverCommandBytes` | TSL2561.py:20-25 | The control, timing, channel-0 and channel-1 registers become command bytes 0x80, 0x81, 0x8C and 0x8E. |
| `Tsl2561.ResolveMode` | TSL2561.py:77-87 | `None` or an unknown name falls back to `LowShort` with code 0x00. A known name is kept with its own code. Either way the new `current_mode` is a key of `modes`, and the byte written is that key's code. |
| `Tsl2561.FindDelay` | TSL2561.py:104-106 | Returns the value of the FIRST table entry whose key is a suffix of the mode name. It returns `None` (the `StopIteration`) exactly when no key is a suffix. |
| `Tsl2561.FindDelayInOrder` | TSL2561.py:45 | Over the driver's `delays` table, the lookup tries `Short`, then `Med`, then `Long`, with 0.014, 0.101 and 0.403 seconds. |
| `Tsl2561.DelayOfShortName` | TSL2561.py:104-106 | Any mode name ending in `Short` waits 0.014 s. |
| `Tsl2561.DelayOfMedName` | TSL2561.py:104-106 | Any mode name ending in `Med` waits 0.101 s. |
| `Tsl2561.DelayOfLongName` | TSL2561.py:104-106 | Any mode name ending in `Long` waits 0.403 s. |
| `Tsl2561.DelayOfManualName` | TSL2561.py:104-106 | Any mode name ending in `Manual` matches no key, so the lookup raises `StopIteration`. |
| `Tsl2561.DelayOfEachMode` | TSL2561.py:31-45 | For every key of `modes`, the lookup fails exactly for `LowManual` and `HighManual`. Every other mode gets one of the three delays. |
| `Tsl2561.Word` | TSL2561.py:118-119 | A decoded channel value is below 65536. |
| `Tsl2561.WordSplitRoundTrip` | TSL2561.py:118-119 | Splitting a 16-bit value into (v % 256, v / 256) and decoding it gives v back. Decoding a block and splitting the result gives the block back. |
| `Tsl2561.MeasureReadsBothChannels` | TSL2561.py:109-122 | A successful measurement ends with a 2-byte read of channel 0 at 0x8C and then of channel 1 at 0x8E. It returns (ch0, ch1) as their little-endian words, both below 65536. |
| `Tsl2561.MeasureWithoutMode` | TSL2561.py:98-107 | With `current_mode` unset, the driver first sets `LowShort`, writing 0x00 to 0x81. It then waits 0.014 s whatever `wait` was, and always succeeds. |
| `Tsl2561.MeasureWithMode` | TSL2561.py:103-107 | With a mode set, the mode is kept. `StopIteration` happens exactly when waiting and the mode is manual, and then nothing has been done on the bus. Without waiting, only the two reads happen. |
| `Tsl2561.ManualExposureActions` | TSL2561.py:132-146 | Writes 0x1F to 0x81, waits the given delay, then writes 0x1E to 0x81. A negative delay stops after the first write. |
| `Tsl2561.Sensor.constructor` | TSL2561.py:47-55 | The address is the one given, 0x39 by default. The mode is unset and nothing has happened on the bus. |
| `Tsl2561.Sensor.PowerOn` | TSL2561.py:61-64 | Writes exactly 0x03 to command byte 0x80. |
| `Tsl2561.Sensor.PowerOff` | TSL2561.py:66-69 | Writes exactly 0x00 to command byte 0x80. |
| `Tsl2561.Sensor.SetMode` | TSL2561.py:71-91 | `current_mode` becomes the resolved name, always a key of `modes`. Exactly one write goes to 0x81, carrying `modes[current_mode]`. |
| `Tsl2561.Sensor.GetLightLevels` | TSL2561.py:93-122 | `wait` defaults to true. The new mode, the bus trace and the result are those of `Measure`. `current_mode` stays a known mode. From a state with a known mode set, the call raises `StopIteration` exactly when it waits and the mode is `LowManual` or `HighManual`. |
| `Tsl2561.Sensor.ReadChannels` | TSL2561.py:109-119 | Reads two bytes at 0x8C, then two at 0x8E, and returns both as little-endian words. |
| `Tsl2561.Sensor.ManualExposure` | TSL2561.py:125-146 | `gain` defaults to "Low". The trace grows by exactly `ManualExposureActions`. It reports an error exactly for a negative delay. `current_mode` is unchanged. |

## Left out

- Slack transport is not modelled: the client, `rtm_connect`, `rtm_read`, the `api_call` inside `post_message`, the `while True` loop, `time.sleep(SOCKET_DELAY)` and the `print`s. These are network I/O and timing. A batch of events is a parameter, and posting is the outbound log.
- Event fields are taken to be present strings. A missing key, which `event.get` would turn into `None`, is not modelled. Neither is an unset `SLACK_ID`.
- The process ending when an exception escapes `run` is modelled only as the batch stopping and reporting the exception.
- util/discover.py is not part of this model. It reads the environment, calls a remote API and prints.
- `luxcalc` (TSL2561.py:148-164) is not modelled: it is floating-point arithmetic with `** 1.4`.
- `get_part_no` is not modelled: it is a single bus read with no logic.
- The real I2C bus (`smbus.SMBus`) is replaced by the trace and the read oracle. `time.sleep` is recorded as a `Sleep` step and does not block.
- Tsl2561.Sensor.ManualExposure: the `gain` argument is accepted and ignored, as in the source. A negative delay is modelled as the `ValueError` that `time.sleep` raises.
- Assigning `current_mode` from outside the class is not modelled. In the model only `set_mode` and `get_light_levels` change it.
- Dictionary iteration order is taken to be insertion order (Python 3.7 and later). This fixes `command_list` as `['?', '!', '--']` and the delay lookup order as Short, Med, Long.
